/** The Accept-Language header as it is written: parts such as `it` and `en;q=0.5`, and which of
    them wins. */
module LanguageHeader {
  import opened Options
  import opened Sequences
  import opened Recipients
  import opened Locale

  // ----- One part -----

  /** Text that begins and ends with something else than white space. */
  predicate Trimmed(s: string) {
    s != "" && !IsSpace(s[0]) && !IsSpace(s[|s| - 1])
  }

  lemma StripTrimmed(s: string)
    requires Trimmed(s)
    ensures Strip(s) == s
  {
  }

  lemma SplitsAt(a: string, c: char, b: string)
    requires c !in a
    ensures IndexOf(a + [c] + b, c) == |a| && Before(a + [c] + b, c) == a && After(a + [c] + b, c) == b
  {
    var s := a + [c] + b;
    IndexOfFirst(s, c);
    assert s[|a|] == c && s[..|a|] == a;
    NotBefore(s, c, |a|);
  }

  lemma NoSplit(a: string, c: char)
    requires c !in a
    ensures IndexOf(a, c) == |a| && Before(a, c) == a && After(a, c) == ""
  {
    IndexOfFirst(a, c);
  }

  predicate IsTag(t: string) {
    Trimmed(t) && t != "*" && ';' !in t
  }

  /** What a quality counts as: a number above zero as itself, what is no number as the default of
      1, and anything else drops the part. */
  function QualityRead(n: Number): Option<Quality> {
    if n == Malformed then Some(Of(1.0))
    else if n == PlusInfinity then Some(Infinite)
    else if n.Finite? && n.value > 0.0 then Some(Of(n.value))
    else None
  }

  function PartOf(part: string, index: nat, quality: Option<Quality>, tag: string): Option<LanguageRange> {
    if quality.Some? then Some(LanguageRange(quality.value, index, tag)) else None
  }

  /** A tag alone counts as 1, one with a quality as that quality; a wildcard and a blank part count
      as nothing. White space around a part does not matter. */
  lemma PartMeans(part: string, tag: string, n: string, index: nat, floats: Floats)
    requires IsTag(tag)
    ensures Strip(part) == tag ==> PartRange(part, index, floats) == Some(LanguageRange(Of(1.0), index, tag))
    ensures Strip(part) == tag + ";q=" + n && Trimmed("q=" + n)
      ==> PartRange(part, index, floats) == PartOf(part, index, QualityRead(floats(n)), tag)
    ensures Strip(part) == "" || Strip(part) == "*" ==> PartRange(part, index, floats) == None
  {
    StripTrimmed(tag);
    NoSplit(tag, ';');
    if Strip(part) == tag + ";q=" + n && Trimmed("q=" + n) {
      assert tag + ";q=" + n == tag + [';'] + ("q=" + n);
      SplitsAt(tag, ';', "q=" + n);
      StripTrimmed("q=" + n);
      assert ("q=" + n)[2..] == n;
    }
    if Strip(part) == "*" {
      NoSplit("*", ';');
    }
  }

  // ----- A whole header -----

  /** A language and, when one is written, its quality. */
  datatype Wish = Wish(word: string, quality: Option<string>)

  function Spelt(w: Wish): string {
    if w.quality == None then w.word else w.word + ";q=" + w.quality.value
  }

  predicate Plainly(w: Wish, floats: Floats) {
    && IsAlpha(w.word)
    && (w.quality.Some? ==>
         && ',' !in w.quality.value && Trimmed("q=" + w.quality.value)
         && (floats(w.quality.value).Finite? || floats(w.quality.value) == Malformed))
  }

  function Weight(w: Wish, floats: Floats): real {
    if w.quality.Some? && floats(w.quality.value).Finite? then floats(w.quality.value).value else 1.0
  }

  function SpeltOf(): Wish -> string { (w: Wish) => Spelt(w) }

  function Parts(wishes: seq<Wish>): seq<string> {
    Map(SpeltOf(), wishes)
  }

  function Header(wishes: seq<Wish>): string {
    Join(",", Parts(wishes))
  }

  lemma {:induction false} SplitJoin(c: char, parts: seq<string>)
    requires |parts| > 0 && forall p :: p in parts ==> c !in p
    ensures SplitOn(Join([c], parts), c) == parts
  {
    var rest := parts[1..];
    assert parts[0] in parts;
    if |parts| == 1 {
      NoSplit(parts[0], c);
    } else {
      SplitJoin(c, rest);
      JoinFirst([c], parts[0], rest);
      assert parts == [parts[0]] + rest;
      SplitsAt(parts[0], c, Join([c], rest));
    }
  }

  lemma AlphaTag(w: string)
    requires IsAlpha(w)
    ensures IsTag(w) && ',' !in w && PrimarySubtag(w) == Some(Lower(w))
  {
    forall i | 0 <= i < |w| ensures !IsSpace(w[i]) && w[i] != ';' && w[i] != ',' && w[i] != '-' && w[i] != '*' {
    }
    StripTrimmed(w);
    NoSplit(w, '-');
    forall i | 0 <= i < |w| ensures 'a' <= Lower(w)[i] <= 'z' {
    }
  }

  lemma SpeltPart(w: Wish, floats: Floats, index: nat)
    requires Plainly(w, floats)
    ensures ',' !in Spelt(w)
    ensures PartRange(Spelt(w), index, floats)
         == if Weight(w, floats) > 0.0 then Some(LanguageRange(Of(Weight(w, floats)), index, w.word)) else None
  {
    AlphaTag(w.word);
    if w.quality == None {
      StripTrimmed(w.word);
      PartMeans(w.word, w.word, "", index, floats);
    } else {
      var n := w.quality.value;
      var part := w.word + ";q=" + n;
      assert part[|part| - 1] == ("q=" + n)[|n| + 1];
      StripTrimmed(part);
      PartMeans(part, w.word, n, index, floats);
    }
  }

  /** Of the highest weight, and the first of that weight. */
  predicate Wins(wishes: seq<Wish>, floats: Floats, i: nat) {
    && i < |wishes| && Weight(wishes[i], floats) > 0.0
    && forall j :: 0 <= j < |wishes| ==>
         || Weight(wishes[j], floats) < Weight(wishes[i], floats)
         || (Weight(wishes[j], floats) == Weight(wishes[i], floats) && i <= j)
  }

  lemma HeaderParts(wishes: seq<Wish>, floats: Floats)
    requires |wishes| > 0 && forall w :: w in wishes ==> Plainly(w, floats)
    ensures Header(wishes) != ""
    ensures SplitOn(Header(wishes), ',') == Parts(wishes)
  {
    var parts := Parts(wishes);
    MapMembers(SpeltOf(), wishes);
    forall p | p in parts ensures ',' !in p && p != "" {
      var w :| w in wishes && Spelt(w) == p;
      SpeltPart(w, floats, 0);
    }
    SplitJoin(',', parts);
    assert parts[0] in parts;
    JoinNotEmpty(parts);
  }

  lemma JoinNotEmpty(parts: seq<string>)
    requires |parts| > 0 && parts[0] != ""
    ensures Join(",", parts) != ""
  {
  }

  lemma CandidatesAre(wishes: seq<Wish>, floats: Floats, e: LanguageRange)
    requires |wishes| > 0 && forall w :: w in wishes ==> Plainly(w, floats)
    ensures Candidate(Parts(wishes), floats, e)
       <==> && e.index < |wishes| && Weight(wishes[e.index], floats) > 0.0
            && e == LanguageRange(Of(Weight(wishes[e.index], floats)), e.index, wishes[e.index].word)
  {
    if e.index < |wishes| {
      assert wishes[e.index] in wishes;
      SpeltPart(wishes[e.index], floats, e.index);
      AlphaTag(wishes[e.index].word);
    }
  }

  /** A header of plain wishes gives the word of the one that wins, in lower case. */
  lemma WinnerIsChosen(wishes: seq<Wish>, floats: Floats, i: nat)
    requires |wishes| > 0 && forall w :: w in wishes ==> Plainly(w, floats)
    requires Wins(wishes, floats, i)
    ensures FromHeader(Some(Header(wishes)), floats) == Some(Lower(wishes[i].word))
  {
    HeaderParts(wishes, floats);
    var best := HeaderPicksBest(Header(wishes), floats);
    WinnerBeats(wishes, floats, i, best);
    assert wishes[i] in wishes;
    AlphaTag(wishes[i].word);
  }

  lemma WinnerBeats(wishes: seq<Wish>, floats: Floats, i: nat, best: LanguageRange)
    requires |wishes| > 0 && forall w :: w in wishes ==> Plainly(w, floats)
    requires Wins(wishes, floats, i)
    ensures !NoCandidate(Parts(wishes), floats)
    ensures && Candidate(Parts(wishes), floats, best)
            && (forall e :: Candidate(Parts(wishes), floats, e) ==> Beats(best, e))
      ==> best.tag == wishes[i].word
  {
    var e := LanguageRange(Of(Weight(wishes[i], floats)), i, wishes[i].word);
    CandidatesAre(wishes, floats, e);
    CandidatesAre(wishes, floats, best);
    assert Candidate(Parts(wishes), floats, e);
    if Candidate(Parts(wishes), floats, best) && Beats(best, e) {
      OnlyWinnerBeats(wishes, floats, i, best.index);
    }
  }

  lemma OnlyWinnerBeats(wishes: seq<Wish>, floats: Floats, i: nat, k: nat)
    requires Wins(wishes, floats, i) && k < |wishes|
    requires Beats(LanguageRange(Of(Weight(wishes[k], floats)), k, wishes[k].word),
                   LanguageRange(Of(Weight(wishes[i], floats)), i, wishes[i].word))
    ensures k == i
  {
  }

  /** It gives nothing when no wish has a positive weight. */
  lemma NothingIsChosen(wishes: seq<Wish>, floats: Floats)
    requires |wishes| > 0 && forall w :: w in wishes ==> Plainly(w, floats)
    requires forall w :: w in wishes ==> Weight(w, floats) <= 0.0
    ensures FromHeader(Some(Header(wishes)), floats) == None
  {
    HeaderParts(wishes, floats);
    var best := HeaderPicksBest(Header(wishes), floats);
    forall e ensures !Candidate(Parts(wishes), floats, e) {
      CandidatesAre(wishes, floats, e);
      assert e.index < |wishes| ==> wishes[e.index] in wishes;
    }
  }

  /** `en;q=0.5,it` asks for Italian. */
  lemma ItalianFirst(floats: Floats)
    requires floats("0.5") == Finite(0.5)
    ensures FromHeader(Some("en;q=0.5,it"), floats) == Some("it")
  {
    var en, it := Wish("en", Some("0.5")), Wish("it", None);
    assert "q=" + "0.5" == "q=0.5" && Trimmed("q=0.5");
    assert Wins([en, it], floats, 1);
    TwoParts(en, it);
    assert "en" + ";q=" + "0.5" == "en;q=0.5";
    assert "en;q=0.5" + "," + "it" == "en;q=0.5,it";
    WinnerIsChosen([en, it], floats, 1);
    assert Lower("it") == "it";
  }

  lemma TwoParts(a: Wish, b: Wish)
    ensures Header([a, b]) == Spelt(a) + "," + Spelt(b)
  {
    assert Parts([a, b]) == [Spelt(a), Spelt(b)];
    JoinPair(Spelt(a), Spelt(b));
  }

  lemma JoinPair(x: string, y: string)
    ensures Join(",", [x, y]) == x + "," + y
  {
    assert [x, y][..1] == [x];
  }
}
