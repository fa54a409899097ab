/** Recipient text, character by character: what counts as white space at its ends, which characters
    separate addresses, what an address looks like. */
module RecipientText {
  import opened Options
  import opened Sequences
  import opened Recipients
  import opened RecipientsProofs

  // ----- Stripping -----

  predicate Blank(s: string) {
    forall k :: 0 <= k < |s| ==> IsSpace(s[k])
  }

  lemma {:induction false} LStripIs(s: string) returns (a: string)
    ensures s == a + LStrip(s) && Blank(a) && (LStrip(s) != "" ==> !IsSpace(LStrip(s)[0]))
  {
    if s != "" && IsSpace(s[0]) {
      var rest := LStripIs(s[1..]);
      a := [s[0]] + rest;
      assert s == [s[0]] + s[1..];
    } else {
      a := "";
    }
  }

  lemma {:induction false} RStripIs(s: string) returns (b: string)
    ensures s == RStrip(s) + b && Blank(b) && (RStrip(s) != "" ==> !IsSpace(RStrip(s)[|RStrip(s)| - 1]))
    decreases |s|
  {
    if s == "" || !IsSpace(s[|s| - 1]) {
      b := "";
    } else {
      var n := |s| - 1;
      var init := RStripIs(s[..n]);
      b := init + [s[n]];
      OneMoreBlank(s, RStrip(s[..n]), init);
    }
  }

  lemma OneMoreBlank(s: string, r: string, init: string)
    requires s != "" && IsSpace(s[|s| - 1]) && s[..|s| - 1] == r + init && Blank(init)
    ensures s == r + (init + [s[|s| - 1]]) && Blank(init + [s[|s| - 1]])
  {
    assert s == s[..|s| - 1] + [s[|s| - 1]];
  }

  /** Stripping takes white space off both ends and nothing else. */
  lemma StripIs(s: string) returns (a: string, b: string)
    ensures s == a + Strip(s) + b && Blank(a) && Blank(b)
    ensures Strip(s) != "" ==> !IsSpace(Strip(s)[0]) && !IsSpace(Strip(s)[|Strip(s)| - 1])
  {
    a := LStripIs(s);
    b := RStripIs(LStrip(s));
    assert LStrip(s) == Strip(s) + b;
    if Strip(s) != "" {
      assert LStrip(s)[0] == Strip(s)[0];
    }
  }

  // ----- The characters between addresses -----

  /** Text without a comma, a semicolon or white space. */
  predicate Solid(x: string) {
    forall k :: 0 <= k < |x| ==> x[k] != ',' && x[k] != ';' && !IsSpace(x[k])
  }

  /** A non-empty run of commas, semicolons and white space. */
  predicate IsRun(run: string) {
    run != "" && forall k :: 0 <= k < |run| ==> run[k] == ',' || run[k] == ';' || IsSpace(run[k])
  }

  /** White space is these characters: the control characters and blanks of ASCII, the next line,
      and the blanks and separators of Unicode. */
  const WHITE_SPACE: set<int> := {
    0x09, 0x0A, 0x0B, 0x0C, 0x0D, 0x1C, 0x1D, 0x1E, 0x1F, 0x20, 0x85, 0xA0, 0x1680,
    0x2000, 0x2001, 0x2002, 0x2003, 0x2004, 0x2005, 0x2006, 0x2007, 0x2008, 0x2009, 0x200A,
    0x2028, 0x2029, 0x202F, 0x205F, 0x3000}

  lemma WhiteSpaceIs(c: char)
    ensures IsSpace(c) <==> c as int in WHITE_SPACE
  {
  }

  /** A comma, a semicolon, a blank, a tab and a line break each separate. */
  lemma EachSeparates(a: string, c: char, b: string)
    requires c == ',' || c == ';' || c == ' ' || c == '\t' || c == '\n'
    ensures Parse(Some(a + [c] + b)) == Parse(Some(a)) + Filter(NewTo(Parse(Some(a))), Parse(Some(b)))
  {
    ParseAppend(a, c, b);
  }

  /** An address: a local part and a domain with a dot inside it, no white space and one `@`. */
  predicate Spells(x: string, l: string, d: string, e: string) {
    && x == l + "@" + d + "." + e && l != "" && d != "" && e != ""
    && (forall k :: 0 <= k < |l| ==> l[k] != '@' && !IsSpace(l[k]))
    && (forall k :: 0 <= k < |d| ==> d[k] != '@' && !IsSpace(d[k]))
    && (forall k :: 0 <= k < |e| ==> e[k] != '@' && !IsSpace(e[k]))
  }

  lemma SpelledIsAddress(x: string, l: string, d: string, e: string)
    requires Spells(x, l, d, e)
    ensures IsAddress(x)
  {
    var i, j := |l|, |l| + 1 + |d|;
    forall k | 0 <= k < |x| ensures !IsSpace(x[k]) && (x[k] == '@' ==> k == i) {
      assert x[k] == if k < i then l[k] else if k == i then '@' else if k < j then d[k - i - 1]
                     else if k == j then '.' else e[k - j - 1];
    }
    assert AddressParts(x, i, j);
  }

  lemma AddressIsSpelled(x: string)
    requires IsAddress(x)
    ensures exists l, d, e :: Spells(x, l, d, e)
  {
    var i, j :| 0 <= i < |x| && 0 <= j < |x| && AddressParts(x, i, j);
    assert x == x[..i] + "@" + x[i + 1..j] + "." + x[j + 1..];
    assert Spells(x, x[..i], x[i + 1..j], x[j + 1..]);
  }

  lemma AddressesAre(x: string)
    ensures IsAddress(x) <==> exists l, d, e :: Spells(x, l, d, e)
  {
    if IsAddress(x) {
      AddressIsSpelled(x);
    }
    if l, d, e :| Spells(x, l, d, e) {
      SpelledIsAddress(x, l, d, e);
    }
  }

  /** An address without a separating character parses as itself. */
  lemma SolidParses(x: string)
    requires IsAddress(x) && Solid(x)
    ensures Parse(Some(x)) == [x]
  {
    ParseOne(x);
  }

  lemma {:induction false} WordsRun(run: string, b: string)
    requires IsRun(run)
    ensures Words(run + b) == Words(b)
    decreases |run|
  {
    var s := run + b;
    WordsSkip(s);
    if |run| == 1 {
      assert s[1..] == b;
    } else {
      assert s[1..] == run[1..] + b;
      WordsRun(run[1..], b);
    }
  }

  /** A run of separating characters separates like one of them. */
  lemma RunSeparates(a: string, run: string, b: string)
    requires IsRun(run)
    ensures Parse(Some(a + run + b)) == Parse(Some(a)) + Filter(NewTo(Parse(Some(a))), Parse(Some(b)))
  {
    var rest := run[1..] + b;
    assert a + run + b == a + [run[0]] + rest;
    ParseAppend(a, run[0], rest);
    ParseIsWords(rest);
    ParseIsWords(b);
    if |run| == 1 {
      assert rest == b;
    } else {
      WordsRun(run[1..], b);
    }
  }

  /** The addresses with a run between any two. */
  function Separated(xs: seq<string>, runs: seq<string>): string
    requires |xs| > 0 && |runs| == |xs| - 1
  {
    var n := |xs| - 1;
    if n == 0 then xs[0] else Separated(xs[..n], runs[..n - 1]) + runs[n - 1] + xs[n]
  }

  ghost predicate AllSolid(xs: seq<string>) {
    forall x :: x in xs ==> Solid(x)
  }

  ghost predicate AllRuns(runs: seq<string>) {
    forall run :: run in runs ==> IsRun(run)
  }

  /** Addresses distinct up to case, with any runs of separating characters between them, parse as
      that list. */
  lemma {:induction false} RunsParse(xs: seq<string>, runs: seq<string>)
    requires |xs| > 0 && |runs| == |xs| - 1 && Clean(xs) && AllSolid(xs) && AllRuns(runs)
    ensures Parse(Some(Separated(xs, runs))) == xs
  {
    var n := |xs| - 1;
    LastOf(xs, runs);
    if n == 0 {
      SolidParses(xs[n]);
      assert xs == [xs[0]];
    } else {
      var init := xs[..n];
      assert xs == init + [xs[n]];
      CleanInit(init, xs[n]);
      RunsParse(init, runs[..n - 1]);
      OneMoreParses(Separated(init, runs[..n - 1]), init, runs[n - 1], xs[n]);
    }
  }

  lemma LastOf(xs: seq<string>, runs: seq<string>)
    requires |xs| > 0 && |runs| == |xs| - 1 && Clean(xs) && AllSolid(xs) && AllRuns(runs)
    ensures var n := |xs| - 1;
      && IsAddress(xs[n]) && Solid(xs[n]) && AllSolid(xs[..n])
      && (n > 0 ==> IsRun(runs[n - 1]) && AllRuns(runs[..n - 1]))
  {
    assert xs[|xs| - 1] in xs;
    assert |runs| > 0 ==> runs[|runs| - 1] in runs;
  }

  lemma OneMoreParses(text: string, init: seq<string>, run: string, x: string)
    requires Parse(Some(text)) == init && IsRun(run) && IsAddress(x) && Solid(x) && IsNew(init, x)
    ensures Parse(Some(text + run + x)) == init + [x]
  {
    SolidParses(x);
    RunSeparates(text, run, x);
    FilterAll(NewTo(init), [x]);
  }

  lemma CleanInit(init: seq<string>, x: string)
    requires Clean(init + [x])
    ensures Clean(init) && IsNew(init, x)
  {
    LowersAppend(init, x);
    var ls := Lowers(init + [x]);
    forall i, j | 0 <= i < j < |init| ensures Lowers(init)[i] != Lowers(init)[j] {
      assert ls[i] == Lowers(init)[i] && ls[j] == Lowers(init)[j];
    }
    forall i | 0 <= i < |init| ensures Lowers(init)[i] != Lower(x) {
      assert ls[i] == Lowers(init)[i] && ls[|init|] == Lower(x);
    }
    forall y | y in init ensures IsAddress(y) {
      assert y in init + [x];
    }
  }

  /** Only the case of ASCII letters is ignored. */
  lemma LowerIs(s: string)
    ensures |Lower(s)| == |s|
    ensures forall k :: 0 <= k < |s| ==>
      if 'A' <= s[k] <= 'Z' then Lower(s)[k] as int == s[k] as int + 32 else Lower(s)[k] == s[k]
  {
  }
}
