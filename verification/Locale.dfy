/** The caller's language (`api/user.py`): the token's claim, else the Accept-Language header
    ranked as section 12.5.4 of RFC 9110 describes, with the quality values of its section
    12.4.2. Reading a number is left to the library and enters as a parameter. */
module Locale {
  import opened Options
  import opened Sequences
  import opened Recipients

  // ----- Pieces of text -----

  /** The pieces between the separators, as many as there are separators plus one. */
  function SplitOn(s: string, c: char): seq<string>
    decreases |s|
  {
    var n := IndexOf(s, c);
    if n == |s| then [s] else [s[..n]] + SplitOn(s[n + 1..], c)
  }

  predicate IsAlpha(s: string) {
    s != "" && forall i :: 0 <= i < |s| ==> 'a' <= s[i] <= 'z' || 'A' <= s[i] <= 'Z'
  }

  /** The lower-cased primary subtag, when it is a word. */
  function PrimarySubtag(tag: string): Option<string> {
    var primary := Lower(Before(Strip(tag), '-'));
    if IsAlpha(primary) then Some(primary) else None
  }

  // ----- Entries of the header -----

  /** What reading a number gives: no number, or a float, infinities and NaN included. */
  datatype Number = Malformed | NotANumber | MinusInfinity | PlusInfinity | Finite(value: real)

  type Floats = string -> Number

  datatype Quality = Infinite | Of(q: real)

  /** A malformed quality counts as the default of 1; one that is not above 0 drops the entry. */
  function QualityOf(n: Number): Option<Quality> {
    match n
    case Malformed => Some(Of(1.0))
    case PlusInfinity => Some(Infinite)
    case Finite(v) => if v > 0.0 then Some(Of(v)) else None
    case NotANumber => None
    case MinusInfinity => None
  }

  function PartQuality(params: string, floats: Floats): Option<Quality> {
    if "q=" <= params then QualityOf(floats(params[2..])) else Some(Of(1.0))
  }

  datatype LanguageRange = LanguageRange(quality: Quality, index: nat, tag: string)

  function PartRange(part: string, index: nat, floats: Floats): Option<LanguageRange> {
    var p := Strip(part);
    var tag := Strip(Before(p, ';'));
    if tag == "" || tag == "*" then None
    else match PartQuality(Strip(After(p, ';')), floats)
      case Some(q) => Some(LanguageRange(q, index, tag))
      case None => None
  }

  function Ranked(parts: seq<string>, floats: Floats): seq<LanguageRange> {
    if |parts| == 0 then []
    else
      var n := |parts| - 1;
      var r := Ranked(parts[..n], floats);
      match PartRange(parts[n], n, floats)
      case Some(e) => r + [e]
      case None => r
  }

  predicate Higher(a: Quality, b: Quality) {
    b != Infinite && (a == Infinite || a.q > b.q)
  }

  /** Sorting by falling quality, then position, then tag. */
  predicate RangeLe(a: LanguageRange, b: LanguageRange) {
    Higher(a.quality, b.quality)
    || (a.quality == b.quality && (a.index < b.index || (a.index == b.index && StrLe(a.tag, b.tag))))
  }

  predicate Usable(e: LanguageRange) {
    PrimarySubtag(e.tag).Some?
  }

  function FirstUsable(entries: seq<LanguageRange>): Option<string> {
    if |entries| == 0 then None
    else
      var n := |entries| - 1;
      var first := FirstUsable(entries[..n]);
      if first.Some? then first else PrimarySubtag(entries[n].tag)
  }

  function FromHeader(header: Option<string>, floats: Floats): Option<string> {
    if header == None || header == Some("") then None
    else FirstUsable(SortBy(RangeLe, Ranked(SplitOn(header.value, ','), floats)))
  }

  method RankParts(parts: seq<string>, floats: Floats) returns (ranked: seq<LanguageRange>)
    ensures ranked == Ranked(parts, floats)
  {
    ranked := [];
    for index := 0 to |parts|
      invariant ranked == Ranked(parts[..index], floats)
    {
      assert parts[..index + 1][..index] == parts[..index];
      var part := Strip(parts[index]);
      var tag, params := Strip(Before(part, ';')), Strip(After(part, ';'));
      if tag == "" || tag == "*" {
        continue;
      }
      var quality := Some(Of(1.0));
      if "q=" <= params {
        quality := QualityOf(floats(params[2..]));
      }
      if quality.Some? {
        ranked := ranked + [LanguageRange(quality.value, index, tag)];
      }
    }
    assert parts[..|parts|] == parts;
  }

  method FromAcceptLanguage(header: Option<string>, floats: Floats) returns (language: Option<string>)
    ensures language == FromHeader(header, floats)
  {
    if header == None || header == Some("") {
      return None;
    }
    var ranked := RankParts(SplitOn(header.value, ','), floats);
    var entries := SortBy(RangeLe, ranked);
    for i := 0 to |entries|
      invariant FirstUsable(entries[..i]) == None
    {
      var primary := PrimarySubtag(entries[i].tag);
      FirstUsableStep(entries, i);
      if primary.Some? {
        return primary;
      }
    }
    assert entries[..|entries|] == entries;
    language := None;
  }

  lemma FirstUsableStep(entries: seq<LanguageRange>, i: nat)
    requires i < |entries| && FirstUsable(entries[..i]) == None
    ensures var primary := PrimarySubtag(entries[i].tag);
      FirstUsable(entries[..i + 1]) == primary && (primary.Some? ==> FirstUsable(entries) == primary)
  {
    assert entries[..i + 1][..i] == entries[..i];
    if PrimarySubtag(entries[i].tag).Some? {
      FirstUsableStays(entries, i + 1);
    }
  }

  lemma {:induction false} FirstUsableStays(entries: seq<LanguageRange>, i: nat)
    requires i <= |entries| && FirstUsable(entries[..i]).Some?
    ensures FirstUsable(entries) == FirstUsable(entries[..i])
    decreases |entries| - i
  {
    if i == |entries| {
      assert entries[..i] == entries;
    } else {
      assert entries[..i + 1][..i] == entries[..i];
      FirstUsableStays(entries, i + 1);
    }
  }

  /** A claim that is no text is None. */
  method ResolveLocale(claim: Option<string>, header: Option<string>, floats: Floats) returns (language: Option<string>)
    ensures language == LocaleFor(claim, header, floats)
  {
    if claim.Some? && Strip(claim.value) != "" {
      var primary := PrimarySubtag(claim.value);
      if primary.Some? {
        return primary;
      }
    }
    language := FromAcceptLanguage(header, floats);
  }

  function LocaleFor(claim: Option<string>, header: Option<string>, floats: Floats): Option<string> {
    if claim.Some? && Strip(claim.value) != "" && PrimarySubtag(claim.value).Some? then PrimarySubtag(claim.value)
    else FromHeader(header, floats)
  }

  // ----- Splitting loses nothing -----

  lemma {:induction false} JoinFirst(sep: string, x: string, xs: seq<string>)
    requires |xs| > 0
    ensures Join(sep, [x] + xs) == x + sep + Join(sep, xs)
  {
    var n := |xs| - 1;
    var all := [x] + xs;
    if n == 0 {
      assert all[..1] == [x];
    } else {
      assert all[..|all| - 1] == [x] + xs[..n];
      JoinFirst(sep, x, xs[..n]);
    }
  }

  /** Joining the pieces gives the text back, and no piece holds a separator. */
  lemma {:induction false} SplitOnJoin(s: string, c: char)
    ensures Join([c], SplitOn(s, c)) == s && |SplitOn(s, c)| > 0
    ensures forall p :: p in SplitOn(s, c) ==> c !in p
    decreases |s|
  {
    var n := IndexOf(s, c);
    IndexOfFirst(s, c);
    if n < |s| {
      var rest := s[n + 1..];
      assert s == s[..n] + [c] + rest;
      SplitOnJoin(rest, c);
      JoinFirst([c], s[..n], SplitOn(rest, c));
      assert c !in s[..n];
    }
  }

  // ----- The entry that wins -----

  lemma RangeLeOrder()
    ensures TotalPreorder(RangeLe)
  {
    forall a, b ensures RangeLe(a, b) || RangeLe(b, a) {
      StrLeTotal(a.tag, b.tag);
    }
    forall a, b, c | RangeLe(a, b) && RangeLe(b, c) ensures RangeLe(a, c) {
      if StrLe(a.tag, b.tag) && StrLe(b.tag, c.tag) {
        StrLeTransitive(a.tag, b.tag, c.tag);
      }
    }
  }

  lemma {:induction false} RankedMembers(parts: seq<string>, floats: Floats)
    ensures forall e :: e in Ranked(parts, floats)
              <==> e.index < |parts| && PartRange(parts[e.index], e.index, floats) == Some(e)
  {
    if |parts| == 0 {
    } else {
      var n := |parts| - 1;
      RankedMembers(parts[..n], floats);
      forall e ensures e in Ranked(parts, floats)
                  <==> e.index < |parts| && PartRange(parts[e.index], e.index, floats) == Some(e)
      {
        assert e.index < n ==> parts[..n][e.index] == parts[e.index];
      }
    }
  }

  lemma {:induction false} FirstUsableIs(entries: seq<LanguageRange>) returns (i: nat)
    ensures FirstUsable(entries) == None <==> forall e :: e in entries ==> !Usable(e)
    ensures FirstUsable(entries).Some? ==>
      && i < |entries| && Usable(entries[i]) && FirstUsable(entries) == PrimarySubtag(entries[i].tag)
      && forall j :: 0 <= j < i ==> !Usable(entries[j])
  {
    i := 0;
    if |entries| > 0 {
      var n := |entries| - 1;
      assert entries == entries[..n] + [entries[n]];
      assert entries[n] in entries;
      i := FirstUsableIs(entries[..n]);
      assert forall e :: e in entries[..n] ==> e in entries;
      if FirstUsable(entries[..n]).None? {
        i := n;
        assert forall j :: 0 <= j < n ==> entries[j] in entries[..n];
      }
    }
  }

  /** An entry of the header: named, not the wildcard, of positive quality, and a word. */
  predicate Candidate(parts: seq<string>, floats: Floats, e: LanguageRange) {
    e.index < |parts| && PartRange(parts[e.index], e.index, floats) == Some(e) && Usable(e)
  }

  ghost predicate NoCandidate(parts: seq<string>, floats: Floats) {
    forall e :: !Candidate(parts, floats, e)
  }

  /** `e` beats `f`: of higher quality, or of the same and sent no later. */
  predicate Beats(e: LanguageRange, f: LanguageRange) {
    Higher(e.quality, f.quality) || (e.quality == f.quality && e.index <= f.index)
  }

  /** Sorting and taking the first usable entry picks the best one: the language returned is that
      of the candidate no candidate beats, and there is none exactly when there is no candidate. */
  lemma HeaderPicksBest(header: string, floats: Floats) returns (best: LanguageRange)
    requires header != ""
    ensures var parts := SplitOn(header, ',');
      && (FromHeader(Some(header), floats) == None <==> NoCandidate(parts, floats))
      && (FromHeader(Some(header), floats).Some? ==>
          && Candidate(parts, floats, best)
          && FromHeader(Some(header), floats) == PrimarySubtag(best.tag)
          && forall e :: Candidate(parts, floats, e) ==> Beats(best, e))
  {
    best := PartsPickBest(SplitOn(header, ','), floats);
  }

  lemma PartsPickBest(parts: seq<string>, floats: Floats) returns (best: LanguageRange)
    ensures var language := FirstUsable(SortBy(RangeLe, Ranked(parts, floats)));
      && (language == None <==> NoCandidate(parts, floats))
      && (language.Some? ==>
          && Candidate(parts, floats, best)
          && language == PrimarySubtag(best.tag)
          && forall e :: Candidate(parts, floats, e) ==> Beats(best, e))
  {
    var entries := SortBy(RangeLe, Ranked(parts, floats));
    RangeLeOrder();
    SortBySorted(RangeLe, Ranked(parts, floats));
    best := SortedPick(entries);
    CandidatesSorted(parts, floats);
  }

  lemma CandidatesSorted(parts: seq<string>, floats: Floats)
    ensures forall e :: Candidate(parts, floats, e) <==> e in SortBy(RangeLe, Ranked(parts, floats)) && Usable(e)
  {
    RankedMembers(parts, floats);
    SortByMembers(RangeLe, Ranked(parts, floats));
  }

  lemma SortedPick(entries: seq<LanguageRange>) returns (best: LanguageRange)
    requires Sorted(RangeLe, entries)
    ensures FirstUsable(entries) == None <==> forall e :: e in entries ==> !Usable(e)
    ensures FirstUsable(entries).Some? ==>
      && best in entries && Usable(best) && FirstUsable(entries) == PrimarySubtag(best.tag)
      && forall e :: e in entries && Usable(e) ==> Beats(best, e)
  {
    var i := FirstUsableIs(entries);
    best := LanguageRange(Infinite, 0, "");
    if FirstUsable(entries).Some? {
      best := entries[i];
      forall e | e in entries && Usable(e) ensures Beats(best, e) {
        var j :| 0 <= j < |entries| && entries[j] == e;
        assert j == i || RangeLe(entries[i], entries[j]);
      }
    }
  }

  /** The winning candidate is the only one nothing else beats, so it could as well be found by
      one scan over the entries. */
  lemma BestIsUnique(parts: seq<string>, floats: Floats, e: LanguageRange, f: LanguageRange)
    requires Candidate(parts, floats, e) && Candidate(parts, floats, f)
    requires Beats(e, f) && Beats(f, e)
    ensures e == f
  {
  }

  // ----- The language resolved -----

  /** `w` is how the text starts, in lower case, up to its end or a hyphen. */
  predicate Starts(s: string, w: string, n: nat) {
    n <= |s| && Lower(s[..n]) == w && (n == |s| || s[n] == '-')
  }

  lemma AlphaChars(w: string)
    requires IsAlpha(Lower(w))
    ensures '-' !in w
  {
    forall i | 0 <= i < |w| ensures w[i] != '-' {
      assert Lower(w)[i] == LowerChar(w[i]);
    }
  }

  /** The primary subtag is the word the stripped tag starts with, and there is one exactly when it
      starts with a word that ends there or at a hyphen. */
  lemma PrimaryIs(tag: string, w: string)
    ensures PrimarySubtag(tag) == Some(w) <==> IsAlpha(w) && exists n: nat :: Starts(Strip(tag), w, n)
  {
    var s := Strip(tag);
    var k := IndexOf(s, '-');
    IndexOfFirst(s, '-');
    if PrimarySubtag(tag) == Some(w) {
      assert Starts(s, w, k);
    }
    if IsAlpha(w) && exists n: nat :: Starts(s, w, n) {
      var n: nat :| Starts(s, w, n);
      AlphaChars(s[..n]);
      NotBefore(s, '-', n);
    }
  }

  predicate IsLowerWord(w: string) {
    w != "" && forall i :: 0 <= i < |w| ==> 'a' <= w[i] <= 'z'
  }

  lemma PrimaryIsLowerWord(tag: string)
    ensures PrimarySubtag(tag).Some? ==> IsLowerWord(PrimarySubtag(tag).value)
  {
    var b := Before(Strip(tag), '-');
    if IsAlpha(Lower(b)) {
      forall i | 0 <= i < |b| ensures 'a' <= Lower(b)[i] <= 'z' {
        assert Lower(b)[i] == LowerChar(b[i]);
      }
    }
  }

  lemma StripBlank(tag: string)
    ensures PrimarySubtag(tag).Some? ==> Strip(tag) != ""
  {
  }

  /** The claim names a language. */
  predicate Claims(claim: Option<string>) {
    claim.Some? && PrimarySubtag(claim.value).Some?
  }

  ghost predicate HeaderOffers(header: Option<string>, floats: Floats) {
    header.Some? && header != Some("") && !NoCandidate(SplitOn(header.value, ','), floats)
  }

  /** The language is a lower-case word: the claim's when it names one, else that of the header's
      candidate no other beats; there is none exactly when neither names one. */
  lemma LocaleIs(claim: Option<string>, header: Option<string>, floats: Floats) returns (best: LanguageRange)
    ensures var language := LocaleFor(claim, header, floats);
      && (language.Some? ==> IsLowerWord(language.value))
      && (Claims(claim) ==> language == PrimarySubtag(claim.value))
      && (!Claims(claim) && language.Some? ==>
          && HeaderOffers(header, floats) && Candidate(SplitOn(header.value, ','), floats, best)
          && language == PrimarySubtag(best.tag)
          && forall e :: Candidate(SplitOn(header.value, ','), floats, e) ==> Beats(best, e))
      && (language == None <==> !Claims(claim) && !HeaderOffers(header, floats))
  {
    best := LanguageRange(Infinite, 0, "");
    if claim.Some? {
      StripBlank(claim.value);
      PrimaryIsLowerWord(claim.value);
    }
    if !Claims(claim) && header.Some? && header != Some("") {
      best := HeaderPicksBest(header.value, floats);
      PrimaryIsLowerWord(best.tag);
    }
  }
}
