/** What parsing and the canonical key promise. */
module RecipientsProofs {
  import opened Options
  import opened Sequences
  import opened Recipients

  // ----- Deduplication -----

  ghost predicate AllAddresses(xs: seq<string>) {
    forall x :: x in xs ==> IsAddress(x)
  }

  /** A clean list: addresses only, no two the same up to case. */
  ghost predicate Clean(xs: seq<string>) {
    AllAddresses(xs) && NoDup(Lowers(xs))
  }

  lemma LowersAppend(a: seq<string>, e: string)
    ensures Lowers(a + [e]) == Lowers(a) + [Lower(e)]
  {
    MapStep(Lower, a + [e], |a|);
    assert (a + [e])[..|a|] == a && (a + [e])[..|a| + 1] == a + [e];
  }

  lemma {:induction false} DedupeIsClean(values: seq<string>)
    ensures Clean(Dedupe(values))
  {
    if |values| == 0 {
    } else {
      var n := |values| - 1;
      var d := Dedupe(values[..n]);
      var email := Strip(values[n]);
      DedupeIsClean(values[..n]);
      if IsAddress(email) && Lower(email) !in Lowers(d) {
        LowersAppend(d, email);
      }
    }
  }

  /** Some value is, once stripped, an address with this lower-case form. */
  predicate Offers(values: seq<string>, k: string) {
    exists v :: v in values && IsAddress(Strip(v)) && Lower(Strip(v)) == k
  }

  lemma {:induction false} DedupeCovers(values: seq<string>, k: string)
    ensures k in Lowers(Dedupe(values)) <==> Offers(values, k)
  {
    if |values| == 0 {
    } else {
      var n := |values| - 1;
      var d := Dedupe(values[..n]);
      var email := Strip(values[n]);
      assert values == values[..n] + [values[n]];
      DedupeCovers(values[..n], k);
      assert Offers(values, k) <==> Offers(values[..n], k) || (IsAddress(email) && Lower(email) == k);
      if IsAddress(email) && Lower(email) !in Lowers(d) {
        LowersAppend(d, email);
      }
    }
  }

  /** The result is clean, and covers exactly the addresses among the values. */
  lemma DedupeClean(values: seq<string>)
    ensures Clean(Dedupe(values))
    ensures forall k :: k in Lowers(Dedupe(values)) <==> Offers(values, k)
  {
    DedupeIsClean(values);
    forall k ensures k in Lowers(Dedupe(values)) <==> Offers(values, k) {
      DedupeCovers(values, k);
    }
  }

  predicate IsNew(d: seq<string>, e: string) {
    Lower(e) !in Lowers(d)
  }

  /** Not yet in `d`, whatever the case. */
  function NewTo(d: seq<string>): string -> bool {
    (e: string) => IsNew(d, e)
  }

  /** Deduplicating more values appends those whose address is new, in order, in first spelling. */
  lemma {:induction false} DedupeAppend(a: seq<string>, b: seq<string>)
    ensures Dedupe(a + b) == Dedupe(a) + Filter(NewTo(Dedupe(a)), Dedupe(b))
  {
    if |b| == 0 {
      assert a + b == a;
    } else {
      var n := |b| - 1;
      assert (a + b)[..|a + b| - 1] == a + b[..n];
      DedupeAppend(a, b[..n]);
      var da, db := Dedupe(a), Dedupe(b[..n]);
      var email := Strip(b[n]);
      var p := NewTo(da);
      FilterAppend(p, db, [email]);
      assert [email][..0] == [];
      LowersOfFiltered(da, db, email);
    }
  }

  lemma LowersOfFiltered(da: seq<string>, db: seq<string>, email: string)
    ensures Lower(email) in Lowers(da + Filter(NewTo(da), db))
       <==> Lower(email) in Lowers(da) || Lower(email) in Lowers(db)
  {
    var p := NewTo(da);
    MapMembers(Lower, da + Filter(p, db));
    MapMembers(Lower, da);
    MapMembers(Lower, db);
    FilterMembers(p, db);
  }

  // ----- Splitting -----

  function Words(s: string): seq<string> {
    Filter(NonEmpty(), Split(s))
  }

  lemma FilterFirst(x: string, rest: seq<string>)
    ensures Filter(NonEmpty(), [x] + rest) == (if x != "" then [x] else []) + Filter(NonEmpty(), rest)
  {
    FilterAppend(NonEmpty(), [x], rest);
    assert [x][..0] == [];
  }

  lemma {:induction false} DedupeIgnoresEmpty(xs: seq<string>)
    ensures Dedupe(xs) == Dedupe(Filter(NonEmpty(), xs))
  {
    if |xs| == 0 {
    } else {
      var n := |xs| - 1;
      DedupeIgnoresEmpty(xs[..n]);
      var f := Filter(NonEmpty(), xs[..n]);
      if xs[n] != "" {
        assert (f + [xs[n]])[..|f|] == f;
      } else {
        assert Strip(xs[n]) == "";
      }
    }
  }

  lemma WordsOne(s: string)
    requires TokenEnd(s) == |s|
    ensures Words(s) == if s == "" then [] else [s]
  {
    FilterFirst(s, []);
    assert [s] + [] == [s];
  }

  /** A leading separator does not matter. */
  lemma WordsSkip(s: string)
    requires s != "" && IsSep(s[0])
    ensures Words(s) == Words(s[1..])
  {
    assert s[..0] == "" && s[0..] == s;
    FilterFirst("", Split(s[SepEnd(s)..]));
    assert SepEnd(s) == 1 + SepEnd(s[1..]);
    if s[1..] != "" && IsSep(s[1..][0]) {
      var t := s[1..];
      assert t[..0] == "" && t[0..] == t;
      FilterFirst("", Split(t[SepEnd(t)..]));
      assert s[SepEnd(s)..] == t[SepEnd(t)..];
    }
  }

  lemma SplitTake(t: string, rest: string)
    requires (forall k :: 0 <= k < |t| ==> !IsSep(t[k])) && rest != "" && IsSep(rest[0])
    ensures Split(t + rest) == [t] + Split(rest[SepEnd(rest)..])
  {
    TokenIs(t, rest);
  }

  /** A token up to a separator is the first word. */
  lemma WordsTake(t: string, rest: string)
    requires t != "" && (forall k :: 0 <= k < |t| ==> !IsSep(t[k]))
    requires rest != "" && IsSep(rest[0])
    ensures Words(t + rest) == [t] + Words(rest)
  {
    SplitTake(t, rest);
    SplitTake("", rest);
    assert "" + rest == rest;
    FilterTake(t, Split(t + rest), Split(rest), Split(rest[SepEnd(rest)..]));
  }

  lemma FilterTake(t: string, xs: seq<string>, ys: seq<string>, zs: seq<string>)
    requires t != "" && xs == [t] + zs && ys == [""] + zs
    ensures Filter(NonEmpty(), xs) == [t] + Filter(NonEmpty(), ys)
  {
    FilterFirst(t, zs);
    FilterFirst("", zs);
  }

  lemma TokenIs(t: string, rest: string)
    requires (forall k :: 0 <= k < |t| ==> !IsSep(t[k])) && rest != "" && IsSep(rest[0])
    ensures var s := t + rest;
      TokenEnd(s) == |t| && s[..|t|] == t && s[|t|..] == rest
  {
    var s := t + rest;
    assert forall k :: 0 <= k < |t| ==> s[k] == t[k];
    assert s[|t|] == rest[0];
  }

  lemma {:induction false} WordsAppend(a: string, c: char, b: string)
    requires IsSep(c)
    ensures Words(a + [c] + b) == Words(a) + Words(b)
    decreases |a|
  {
    if a == "" {
      var s := a + [c] + b;
      assert s[1..] == b && s[0] == c;
      WordsSkip(s);
      WordsOne(a);
    } else if IsSep(a[0]) {
      WordsAppend(a[1..], c, b);
      WordsSkipFirst(a, c, b);
    } else if TokenEnd(a) == |a| {
      WordsLast(a, c, b);
    } else {
      var t, r := a[..TokenEnd(a)], a[TokenEnd(a)..];
      assert a == t + r;
      WordsAppend(r, c, b);
      assert a + [c] + b == t + (r + [c] + b);
      WordsTakeFirst(t, r, r + [c] + b, b);
    }
  }

  lemma WordsSkipFirst(a: string, c: char, b: string)
    requires a != "" && IsSep(a[0])
    requires Words(a[1..] + [c] + b) == Words(a[1..]) + Words(b)
    ensures Words(a + [c] + b) == Words(a) + Words(b)
  {
    var s := a + [c] + b;
    assert s[1..] == a[1..] + [c] + b && s[0] == a[0];
    WordsSkip(s);
    WordsSkip(a);
  }

  lemma WordsTakeFirst(t: string, r: string, rest: string, b: string)
    requires t != "" && (forall k :: 0 <= k < |t| ==> !IsSep(t[k]))
    requires r != "" && IsSep(r[0]) && rest != "" && IsSep(rest[0])
    requires Words(rest) == Words(r) + Words(b)
    ensures Words(t + rest) == Words(t + r) + Words(b)
  {
    WordsTake(t, rest);
    WordsTake(t, r);
    assert [t] + (Words(r) + Words(b)) == [t] + Words(r) + Words(b);
  }

  lemma WordsLast(a: string, c: char, b: string)
    requires IsSep(c) && a != "" && TokenEnd(a) == |a|
    ensures Words(a + [c] + b) == Words(a) + Words(b)
  {
    var rest := [c] + b;
    assert a + [c] + b == a + rest && rest[1..] == b;
    WordsTake(a, rest);
    WordsSkip(rest);
    WordsOne(a);
  }

  lemma ParseIsWords(s: string)
    ensures Parse(Some(s)) == Dedupe(Words(s))
  {
    if s == "" {
      WordsOne(s);
    } else {
      DedupeIgnoresEmpty(Split(s));
    }
  }

  /** Two texts with a separator between them: the second adds what the first does not have. */
  lemma ParseAppend(a: string, c: char, b: string)
    requires IsSep(c)
    ensures Parse(Some(a + [c] + b)) == Parse(Some(a)) + Filter(NewTo(Parse(Some(a))), Parse(Some(b)))
  {
    ParseIsWords(a + [c] + b);
    ParseIsWords(a);
    ParseIsWords(b);
    WordsAppend(a, c, b);
    DedupeAppend(Words(a), Words(b));
  }

  // ----- Round trip -----

  ghost predicate SepFree(x: string) {
    forall k :: 0 <= k < |x| ==> !IsSep(x[k])
  }

  /** What parsing returns: clean, and free of separators. */
  ghost predicate Parsed(xs: seq<string>) {
    Clean(xs) && forall x :: x in xs ==> SepFree(x)
  }

  lemma {:induction false} SplitSepFree(s: string)
    ensures forall x :: x in Split(s) ==> SepFree(x)
    decreases |s|
  {
    var i := TokenEnd(s);
    if i < |s| {
      SplitSepFree(s[i..][SepEnd(s[i..])..]);
    }
  }

  lemma StripSepFree(s: string)
    requires SepFree(s)
    ensures Strip(s) == s
  {
  }

  lemma {:induction false} DedupeSepFree(values: seq<string>)
    requires forall v :: v in values ==> SepFree(v)
    ensures forall x :: x in Dedupe(values) ==> SepFree(x)
  {
    if |values| == 0 {
    } else {
      var n := |values| - 1;
      assert values == values[..n] + [values[n]];
      DedupeSepFree(values[..n]);
      StripSepFree(values[n]);
    }
  }

  lemma ParseParsed(value: Option<string>)
    ensures Parsed(Parse(value))
  {
    if value != None && value != Some("") {
      var pieces := Split(value.value);
      SplitSepFree(value.value);
      DedupeSepFree(pieces);
      DedupeClean(pieces);
    }
  }

  lemma {:induction false} SepFreeTokenEnd(x: string)
    requires SepFree(x)
    ensures TokenEnd(x) == |x|
  {
  }

  lemma ParseOne(x: string)
    requires IsAddress(x) && SepFree(x)
    ensures Parse(Some(x)) == [x]
  {
    SepFreeTokenEnd(x);
    StripSepFree(x);
    assert [x][..0] == [];
    assert Split(x) == [x];
    assert Dedupe([x][..0]) == [];
    assert Lowers([]) == [];
  }

  /** Writing a parsed list back with commas and parsing it again gives it back unchanged. */
  lemma {:induction false} ParseJoin(xs: seq<string>)
    requires Parsed(xs)
    ensures Parse(Some(Join(",", xs))) == xs
  {
    var n := |xs| - 1;
    if |xs| == 1 {
      assert xs[0] in xs;
      ParseOne(xs[0]);
    } else if |xs| > 1 {
      var init := xs[..n];
      assert xs == init + [xs[n]];
      LowersAppend(init, xs[n]);
      assert NoDup(Lowers(init)) by {
        assert forall i :: 0 <= i < n ==> Lowers(init)[i] == Lowers(xs)[i];
      }
      ParseJoin(init);
      assert IsNew(init, xs[n]) by {
        var ls := Lowers(xs);
        assert ls == Lowers(init) + [Lower(xs[n])];
        forall i | 0 <= i < n ensures Lowers(init)[i] != Lower(xs[n]) {
          assert ls[i] != ls[n];
        }
      }
      ParseStep(Join(",", init), init, xs[n]);
    }
  }

  lemma ParseStep(text: string, init: seq<string>, x: string)
    requires Parse(Some(text)) == init && IsAddress(x) && SepFree(x) && IsNew(init, x)
    ensures Parse(Some(text + "," + x)) == init + [x]
  {
    ParseOne(x);
    ParseAppend(text, ',', x);
    FilterAll(NewTo(init), [x]);
  }

  lemma ParseRoundTrip(value: Option<string>)
    ensures Parse(Some(Join(",", Parse(value)))) == Parse(value)
  {
    ParseParsed(value);
    ParseJoin(Parse(value));
  }
}
