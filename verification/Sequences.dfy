/** Sequence vocabulary shared by the whole model: the string order, a stable sort,
    filtering, mapping, summing, and the ways these respect permutation.

    Every recursive function peels the LAST element, so that it matches a loop that
    walks its input from the front and appends. */
module Sequences {

  /** Code point by code point, a proper prefix first: how strings are compared when sorted. */
  predicate StrLe(a: string, b: string) {
    if a == "" then true
    else if b == "" then false
    else if a[0] != b[0] then a[0] < b[0]
    else StrLe(a[1..], b[1..])
  }

  lemma {:induction false} StrLeTotal(a: string, b: string)
    ensures StrLe(a, b) || StrLe(b, a)
  {
    if a != "" && b != "" && a[0] == b[0] {
      StrLeTotal(a[1..], b[1..]);
    }
  }

  lemma {:induction false} StrLeAntisymmetric(a: string, b: string)
    requires StrLe(a, b) && StrLe(b, a)
    ensures a == b
  {
    if a != "" && b != "" {
      StrLeAntisymmetric(a[1..], b[1..]);
      assert a == [a[0]] + a[1..] && b == [b[0]] + b[1..];
    }
  }

  lemma {:induction false} StrLeTransitive(a: string, b: string, c: string)
    requires StrLe(a, b) && StrLe(b, c)
    ensures StrLe(a, c)
  {
    if a != "" && a[0] == b[0] == c[0] {
      StrLeTransitive(a[1..], b[1..], c[1..]);
    }
  }

  // ----- Contents of sequences -----

  lemma InitMultiset<T>(a: seq<T>)
    requires |a| > 0
    ensures multiset(a[..|a| - 1]) == multiset(a) - multiset{a[|a| - 1]}
  {
    assert a == a[..|a| - 1] + [a[|a| - 1]];
  }

  lemma WithoutAt<T>(b: seq<T>, i: nat)
    requires i < |b|
    ensures b == b[..i] + [b[i]] + b[i + 1..]
    ensures multiset(b[..i] + b[i + 1..]) == multiset(b) - multiset{b[i]}
  {
    assert b == b[..i] + [b[i]] + b[i + 1..];
    assert multiset(b) == multiset(b[..i]) + multiset{b[i]} + multiset(b[i + 1..]);
  }

  // ----- Sorting -----

  ghost predicate TotalPreorder<T(!new)>(leq: (T, T) -> bool) {
    && (forall a, b :: leq(a, b) || leq(b, a))
    && (forall a, b, c :: leq(a, b) && leq(b, c) ==> leq(a, c))
  }

  ghost predicate Sorted<T>(leq: (T, T) -> bool, s: seq<T>) {
    forall i, j :: 0 <= i < j < |s| ==> leq(s[i], s[j])
  }

  ghost predicate NoDup<T>(s: seq<T>) {
    forall i, j :: 0 <= i < j < |s| ==> s[i] != s[j]
  }

  /** Ties only between equal elements of `s`. */
  ghost predicate AntisymmetricOn<T>(leq: (T, T) -> bool, s: seq<T>) {
    forall i, j :: 0 <= i < |s| && 0 <= j < |s| && leq(s[i], s[j]) && leq(s[j], s[i]) ==> s[i] == s[j]
  }

  function Insert<T>(leq: (T, T) -> bool, s: seq<T>, x: T): (r: seq<T>)
    ensures |r| == |s| + 1
  {
    if |s| == 0 then [x]
    else
      var n := |s| - 1;
      if leq(s[n], x) then s + [x]
      else Insert(leq, s[..n], x) + [s[n]]
  }

  /** A stable sort: equal elements keep the order they came in. */
  function SortBy<T>(leq: (T, T) -> bool, xs: seq<T>): (r: seq<T>)
    ensures |r| == |xs|
  {
    if |xs| == 0 then []
    else Insert(leq, SortBy(leq, xs[..|xs| - 1]), xs[|xs| - 1])
  }

  lemma {:induction false} InsertPermutes<T>(leq: (T, T) -> bool, s: seq<T>, x: T)
    ensures multiset(Insert(leq, s, x)) == multiset(s) + multiset{x}
  {
    if |s| == 0 {
    } else {
      var n := |s| - 1;
      assert s == s[..n] + [s[n]];
      InsertPermutes(leq, s[..n], x);
    }
  }

  lemma {:induction false} SortByPermutes<T>(leq: (T, T) -> bool, xs: seq<T>)
    ensures multiset(SortBy(leq, xs)) == multiset(xs)
  {
    if |xs| == 0 {
    } else {
      var n := |xs| - 1;
      assert xs == xs[..n] + [xs[n]];
      SortByPermutes(leq, xs[..n]);
      InsertPermutes(leq, SortBy(leq, xs[..n]), xs[n]);
    }
  }

  lemma {:induction false} InsertSorted<T(!new)>(leq: (T, T) -> bool, s: seq<T>, x: T)
    requires TotalPreorder(leq) && Sorted(leq, s)
    ensures Sorted(leq, Insert(leq, s, x))
  {
    if |s| > 0 && !leq(s[|s| - 1], x) {
      var n := |s| - 1;
      InsertSorted(leq, s[..n], x);
      InsertBelow(leq, s[..n], x, s[n]);
      SortedPush(leq, Insert(leq, s[..n], x), s[n]);
    } else {
      forall i | 0 <= i < |s| ensures leq(s[i], x) {
        assert leq(s[i], s[|s| - 1]) || i == |s| - 1;
      }
    }
  }

  lemma SortedPush<T>(leq: (T, T) -> bool, s: seq<T>, x: T)
    requires Sorted(leq, s) && forall i :: 0 <= i < |s| ==> leq(s[i], x)
    ensures Sorted(leq, s + [x])
  {
  }

  lemma InsertBelow<T(!new)>(leq: (T, T) -> bool, s: seq<T>, x: T, last: T)
    requires TotalPreorder(leq) && !leq(last, x) && forall i :: 0 <= i < |s| ==> leq(s[i], last)
    ensures forall i :: 0 <= i < |Insert(leq, s, x)| ==> leq(Insert(leq, s, x)[i], last)
  {
    var r := Insert(leq, s, x);
    InsertPermutes(leq, s, x);
    forall i | 0 <= i < |r| ensures leq(r[i], last) {
      assert r[i] in multiset(r);
      assert r[i] == x || r[i] in s;
    }
  }

  lemma {:induction false} SortBySorted<T(!new)>(leq: (T, T) -> bool, xs: seq<T>)
    requires TotalPreorder(leq)
    ensures Sorted(leq, SortBy(leq, xs))
  {
    if |xs| == 0 {
    } else {
      SortBySorted(leq, xs[..|xs| - 1]);
      InsertSorted(leq, SortBy(leq, xs[..|xs| - 1]), xs[|xs| - 1]);
    }
  }

  lemma SortByMembers<T>(leq: (T, T) -> bool, xs: seq<T>)
    ensures forall x :: x in SortBy(leq, xs) <==> x in xs
  {
    SortByPermutes(leq, xs);
    forall x ensures x in SortBy(leq, xs) <==> x in xs {
      assert x in multiset(SortBy(leq, xs)) <==> x in multiset(xs);
    }
  }

  lemma {:induction false} NoDupMultiset<T>(s: seq<T>)
    ensures NoDup(s) <==> forall x :: multiset(s)[x] <= 1
  {
    if |s| == 0 {
    } else {
      var n := |s| - 1;
      assert s == s[..n] + [s[n]];
      NoDupMultiset(s[..n]);
      if NoDup(s) {
        assert NoDup(s[..n]);
        assert s[n] !in s[..n];
        forall x ensures multiset(s)[x] <= 1 {
        }
      }
      if forall x :: multiset(s)[x] <= 1 {
        forall x ensures multiset(s[..n])[x] <= 1 {
          assert multiset(s)[x] <= 1;
        }
        assert multiset(s)[s[n]] <= 1;
        assert s[n] !in s[..n];
        forall i, j | 0 <= i < j < |s| ensures s[i] != s[j] {
          if j < n {
            assert s[..n][i] != s[..n][j];
          } else {
            assert s[i] == s[..n][i];
          }
        }
      }
    }
  }

  lemma NoDupPermutation<T>(a: seq<T>, b: seq<T>)
    requires multiset(a) == multiset(b) && NoDup(a)
    ensures NoDup(b)
  {
    NoDupMultiset(a);
    NoDupMultiset(b);
  }

  lemma HasMember<T>(s: seq<T>)
    ensures |s| > 0 ==> exists x :: x in s
  {
    if |s| > 0 {
      assert s[0] in s;
    }
  }

  /** The uniqueness of a sort: two sorted sequences without repetitions that hold the same
      elements are the same sequence, as soon as no two of the elements tie. */
  lemma {:induction false} SortedUnique<T(!new)>(leq: (T, T) -> bool, a: seq<T>, b: seq<T>)
    requires TotalPreorder(leq)
    requires Sorted(leq, a) && Sorted(leq, b) && NoDup(a) && NoDup(b)
    requires AntisymmetricOn(leq, a)
    requires forall x :: x in a <==> x in b
    ensures a == b
  {
    if |a| == 0 {
      HasMember(b);
    } else {
      assert a[|a| - 1] in b;
      var m, n := |a| - 1, |b| - 1;
      assert b[n] in a;
      assert a[m] == b[n] by {
        var i :| 0 <= i < |b| && b[i] == a[m];
        var j :| 0 <= j < |a| && a[j] == b[n];
      }
      forall x ensures x in a[..m] <==> x in b[..n] {
        if x in a[..m] {
          var i :| 0 <= i < m && a[i] == x;
          assert x in b && x != b[n];
        }
        if x in b[..n] {
          var i :| 0 <= i < n && b[i] == x;
          assert x in a && x != a[m];
        }
      }
      SortedUnique(leq, a[..m], b[..n]);
      assert a == a[..m] + [a[m]] && b == b[..n] + [b[n]];
    }
  }

  lemma SameLast<T(!new)>(leq: (T, T) -> bool, a: seq<T>, b: seq<T>)
    requires Sorted(leq, a) && Sorted(leq, b) && |a| > 0 && |b| > 0
    requires a[|a| - 1] in b && b[|b| - 1] in a
    requires AntisymmetricOn(leq, a)
    ensures a[|a| - 1] == b[|b| - 1]
  {
    var i :| 0 <= i < |b| && b[i] == a[|a| - 1];
    var j :| 0 <= j < |a| && a[j] == b[|b| - 1];
  }

  lemma SameInit<T>(a: seq<T>, b: seq<T>)
    requires |a| > 0 && |b| > 0 && a[|a| - 1] == b[|b| - 1] && multiset(a) == multiset(b)
    ensures multiset(a[..|a| - 1]) == multiset(b[..|b| - 1])
  {
    InitMultiset(a);
    InitMultiset(b);
  }

  lemma SameLength<T>(a: seq<T>, b: seq<T>)
    requires multiset(a) == multiset(b)
    ensures |a| == |b|
  {
    assert |multiset(a)| == |a| && |multiset(b)| == |b|;
  }

  lemma SameLasts<T(!new)>(leq: (T, T) -> bool, a: seq<T>, b: seq<T>)
    requires Sorted(leq, a) && Sorted(leq, b) && |a| > 0 && |b| > 0 && multiset(a) == multiset(b)
    requires AntisymmetricOn(leq, a)
    ensures a[|a| - 1] == b[|b| - 1]
  {
    assert a[|a| - 1] in multiset(b) && b[|b| - 1] in multiset(a);
    SameLast(leq, a, b);
  }

  lemma InitOrdered<T>(leq: (T, T) -> bool, a: seq<T>)
    requires |a| > 0
    ensures Sorted(leq, a) ==> Sorted(leq, a[..|a| - 1])
    ensures AntisymmetricOn(leq, a) ==> AntisymmetricOn(leq, a[..|a| - 1])
  {
  }

  /** The same with repetitions: equal contents, equal sorted sequences. */
  lemma {:induction false} SortedSame<T(!new)>(leq: (T, T) -> bool, a: seq<T>, b: seq<T>)
    requires Sorted(leq, a) && Sorted(leq, b) && multiset(a) == multiset(b)
    requires AntisymmetricOn(leq, a)
    ensures a == b
    decreases |a|
  {
    SameLength(a, b);
    if |a| > 0 {
      var n := |a| - 1;
      SameLasts(leq, a, b);
      SameInit(a, b);
      InitOrdered(leq, a);
      InitOrdered(leq, b);
      SortedSame(leq, a[..n], b[..n]);
      assert a == a[..n] + [a[n]] && b == b[..n] + [b[n]];
    }
  }

  // ----- Strings in a set, sorted -----

  function Distinct(xs: seq<string>): (r: seq<string>)
    ensures NoDup(r)
    ensures forall x :: x in r <==> x in xs
  {
    if |xs| == 0 then []
    else
      var r := Distinct(xs[..|xs| - 1]);
      var x := xs[|xs| - 1];
      assert xs == xs[..|xs| - 1] + [x];
      if x in r then r else r + [x]
  }

  function SortedSet(xs: seq<string>): seq<string> {
    SortBy(StrLe, Distinct(xs))
  }

  lemma StrLeOrder(s: seq<string>)
    ensures TotalPreorder(StrLe) && AntisymmetricOn(StrLe, s)
  {
    forall a, b ensures StrLe(a, b) || StrLe(b, a) {
      StrLeTotal(a, b);
    }
    forall a, b, c | StrLe(a, b) && StrLe(b, c) ensures StrLe(a, c) {
      StrLeTransitive(a, b, c);
    }
    forall i, j | 0 <= i < |s| && 0 <= j < |s| && StrLe(s[i], s[j]) && StrLe(s[j], s[i]) ensures s[i] == s[j] {
      StrLeAntisymmetric(s[i], s[j]);
    }
  }

  lemma SortedSetProperties(xs: seq<string>)
    ensures Sorted(StrLe, SortedSet(xs)) && NoDup(SortedSet(xs))
    ensures forall x :: x in SortedSet(xs) <==> x in xs
  {
    StrLeOrder(xs);
    SortBySorted(StrLe, Distinct(xs));
    SortByMembers(StrLe, Distinct(xs));
    SortByPermutes(StrLe, Distinct(xs));
    NoDupPermutation(Distinct(xs), SortedSet(xs));
  }

  /** Sorting a set forgets both the order and the repetitions of where it came from. */
  lemma SortedSetSame(xs: seq<string>, ys: seq<string>)
    requires forall x :: x in xs <==> x in ys
    ensures SortedSet(xs) == SortedSet(ys)
  {
    SortedSetProperties(xs);
    SortedSetProperties(ys);
    StrLeOrder(SortedSet(xs));
    SortedUnique(StrLe, SortedSet(xs), SortedSet(ys));
  }

  // ----- Map and filter -----

  function Map<T, U>(f: T -> U, xs: seq<T>): (r: seq<U>)
    ensures |r| == |xs|
    ensures forall i {:trigger r[i]} :: 0 <= i < |xs| ==> r[i] == f(xs[i])
  {
    if |xs| == 0 then [] else Map(f, xs[..|xs| - 1]) + [f(xs[|xs| - 1])]
  }

  lemma SameSeq<T>(a: seq<T>, b: seq<T>)
    requires |a| == |b| && forall i :: 0 <= i < |a| ==> a[i] == b[i]
    ensures a == b
  {
  }

  lemma MapStep<T, U>(f: T -> U, xs: seq<T>, i: nat)
    requires i < |xs|
    ensures Map(f, xs[..i + 1]) == Map(f, xs[..i]) + [f(xs[i])]
  {
    assert xs[..i + 1][..i] == xs[..i];
  }

  function Filter<T>(p: T -> bool, xs: seq<T>): (r: seq<T>)
    ensures |r| <= |xs|
  {
    if |xs| == 0 then []
    else
      var r := Filter(p, xs[..|xs| - 1]);
      var x := xs[|xs| - 1];
      if p(x) then r + [x] else r
  }

  lemma {:induction false} FilterMembers<T(!new)>(p: T -> bool, xs: seq<T>)
    ensures forall x :: x in Filter(p, xs) <==> x in xs && p(x)
  {
    if |xs| == 0 {
    } else {
      assert xs == xs[..|xs| - 1] + [xs[|xs| - 1]];
      FilterMembers(p, xs[..|xs| - 1]);
    }
  }

  lemma FilterPush<T>(p: T -> bool, xs: seq<T>, x: T)
    ensures Filter(p, xs + [x]) == if p(x) then Filter(p, xs) + [x] else Filter(p, xs)
  {
    assert (xs + [x])[..|xs|] == xs;
  }

  lemma {:induction false} FilterAppend<T(!new)>(p: T -> bool, a: seq<T>, b: seq<T>)
    ensures Filter(p, a + b) == Filter(p, a) + Filter(p, b)
  {
    if |b| == 0 {
      assert a + b == a;
    } else {
      var n := |b| - 1;
      assert (a + b)[..|a + b| - 1] == a + b[..n];
      FilterAppend(p, a, b[..n]);
    }
  }

  /** Filtering keeps the relative order of what it keeps, so it keeps sortedness. */
  lemma {:induction false} FilterSorted<T(!new)>(leq: (T, T) -> bool, p: T -> bool, s: seq<T>)
    requires Sorted(leq, s)
    ensures Sorted(leq, Filter(p, s))
  {
    if |s| == 0 {
    } else {
      var n := |s| - 1;
      FilterSorted(leq, p, s[..n]);
      FilterMembers(p, s[..n]);
      var r := Filter(p, s[..n]);
      forall i | 0 <= i < |r| ensures leq(r[i], s[n]) {
        assert r[i] in s[..n];
      }
    }
  }

  lemma {:induction false} FilterMultiset<T(!new)>(p: T -> bool, xs: seq<T>, x: T)
    ensures multiset(Filter(p, xs))[x] == if p(x) then multiset(xs)[x] else 0
  {
    if |xs| == 0 {
    } else {
      assert xs == xs[..|xs| - 1] + [xs[|xs| - 1]];
      FilterMultiset(p, xs[..|xs| - 1], x);
    }
  }

  lemma FilterPermutation<T(!new)>(p: T -> bool, a: seq<T>, b: seq<T>)
    requires multiset(a) == multiset(b)
    ensures multiset(Filter(p, a)) == multiset(Filter(p, b))
  {
    forall x ensures multiset(Filter(p, a))[x] == multiset(Filter(p, b))[x] {
      FilterMultiset(p, a, x);
      FilterMultiset(p, b, x);
    }
  }

  /** Filtering keeps two sequences aligned when the filter looks only at what they share. */
  lemma {:induction false} FilterAligned<T(!new), U>(p: T -> bool, er: T -> U, x: seq<T>, y: seq<T>)
    requires |x| == |y| && forall i :: 0 <= i < |x| ==> er(x[i]) == er(y[i])
    requires forall a, b :: er(a) == er(b) ==> p(a) == p(b)
    ensures var s, t := Filter(p, x), Filter(p, y);
      |s| == |t| && forall i :: 0 <= i < |s| ==> er(s[i]) == er(t[i])
  {
    if |x| == 0 {
    } else {
      var n := |x| - 1;
      assert er(x[n]) == er(y[n]);
      FilterAligned(p, er, x[..n], y[..n]);
    }
  }

  lemma {:induction false} FilterAll<T>(p: T -> bool, xs: seq<T>)
    requires forall i :: 0 <= i < |xs| ==> p(xs[i])
    ensures Filter(p, xs) == xs
  {
    if |xs| == 0 {
    } else {
      FilterAll(p, xs[..|xs| - 1]);
    }
  }

  lemma {:induction false} FilterNone<T>(p: T -> bool, xs: seq<T>)
    requires forall i :: 0 <= i < |xs| ==> !p(xs[i])
    ensures Filter(p, xs) == []
  {
    if |xs| == 0 {
    } else {
      FilterNone(p, xs[..|xs| - 1]);
    }
  }

  lemma {:induction false} FilterCongruent<T>(p: T -> bool, q: T -> bool, xs: seq<T>)
    requires forall i :: 0 <= i < |xs| ==> p(xs[i]) == q(xs[i])
    ensures Filter(p, xs) == Filter(q, xs)
  {
    if |xs| == 0 {
    } else {
      FilterCongruent(p, q, xs[..|xs| - 1]);
    }
  }

  lemma {:induction false} FiltersCommute<T>(p: T -> bool, q: T -> bool, xs: seq<T>)
    ensures Filter(p, Filter(q, xs)) == Filter(q, Filter(p, xs))
  {
    if |xs| == 0 {
    } else {
      var n := |xs| - 1;
      FiltersCommute(p, q, xs[..n]);
      var a, b := Filter(p, xs[..n]), Filter(q, xs[..n]);
      assert (a + [xs[n]])[..|a|] == a && (b + [xs[n]])[..|b|] == b;
    }
  }

  lemma {:induction false} FilterOnly<T>(p: T -> bool, xs: seq<T>, k: nat)
    requires k < |xs| && forall i :: 0 <= i < |xs| ==> (p(xs[i]) <==> i == k)
    ensures Filter(p, xs) == [xs[k]]
  {
    var n := |xs| - 1;
    if k == n {
      FilterNone(p, xs[..n]);
    } else {
      FilterOnly(p, xs[..n], k);
    }
  }

  lemma {:induction false} DistinctNoDup(xs: seq<string>)
    requires NoDup(xs)
    ensures Distinct(xs) == xs
  {
    if |xs| == 0 {
    } else {
      DistinctNoDup(xs[..|xs| - 1]);
    }
  }

  lemma {:induction false} DistinctConstant(xs: seq<string>, c: string)
    requires forall i :: 0 <= i < |xs| ==> xs[i] == c
    ensures Distinct(xs) == if |xs| == 0 then [] else [c]
  {
    if |xs| == 0 {
    } else {
      DistinctConstant(xs[..|xs| - 1], c);
    }
  }

  // ----- Sorting one value per key -----

  /** A total preorder in which only values with the same key tie. */
  ghost predicate KeyOrder<T(!new)>(leq: (T, T) -> bool, key: T -> string) {
    && TotalPreorder(leq)
    && (forall a, b :: leq(a, b) && leq(b, a) ==> key(a) == key(b))
  }

  ghost predicate DistinctKeys<T>(key: T -> string, s: seq<T>) {
    forall i, j :: 0 <= i < j < |s| ==> key(s[i]) != key(s[j])
  }

  lemma {:induction false} FilterMap<T, U>(p: U -> bool, q: T -> bool, f: T -> U, xs: seq<T>)
    requires forall i :: 0 <= i < |xs| ==> p(f(xs[i])) == q(xs[i])
    ensures Filter(p, Map(f, xs)) == Map(f, Filter(q, xs))
  {
    if |xs| == 0 {
    } else {
      var n := |xs| - 1;
      FilterMap(p, q, f, xs[..n]);
      FilterPush(p, Map(f, xs[..n]), f(xs[n]));
      MapAppend(f, Filter(q, xs[..n]), [xs[n]]);
      assert Map(f, [xs[n]]) == [f(xs[n])];
    }
  }

  /** What `f` makes of each element, one after the other. */
  function Flat<T, U>(f: T -> seq<U>, xs: seq<T>): seq<U> {
    if |xs| == 0 then [] else Flat(f, xs[..|xs| - 1]) + f(xs[|xs| - 1])
  }

  lemma {:induction false} FlatMembers<T(!new), U(!new)>(f: T -> seq<U>, xs: seq<T>)
    ensures forall y :: y in Flat(f, xs) <==> exists x :: x in xs && y in f(x)
  {
    if |xs| == 0 {
    } else {
      var k := |xs| - 1;
      FlatMembers(f, xs[..k]);
      assert xs == xs[..k] + [xs[k]];
      forall y ensures y in Flat(f, xs) <==> exists x :: x in xs && y in f(x) {
        if y in f(xs[k]) {
          assert xs[k] in xs;
        }
      }
    }
  }

  lemma AppendDistinct<T, U>(key: T -> U, a: seq<T>, b: seq<T>)
    requires NoDup(Map(key, a)) && NoDup(Map(key, b))
    requires forall i, j :: 0 <= i < |a| && 0 <= j < |b| ==> key(a[i]) != key(b[j])
    ensures NoDup(Map(key, a + b))
  {
    MapAppend(key, a, b);
  }

  /** Keys stay distinct across the parts when a key tells which part it is of. */
  lemma {:induction false} FlatDistinct<T(!new), U(!new), K>(key: U -> K, part: K -> T, f: T -> seq<U>, xs: seq<T>)
    requires NoDup(xs) && forall x :: NoDup(Map(key, f(x)))
    requires forall x, u :: u in f(x) ==> part(key(u)) == x
    ensures NoDup(Map(key, Flat(f, xs)))
  {
    if |xs| == 0 {
    } else {
      var k := |xs| - 1;
      var before, now := Flat(f, xs[..k]), f(xs[k]);
      FlatDistinct(key, part, f, xs[..k]);
      FlatMembers(f, xs[..k]);
      forall i, j | 0 <= i < |before| && 0 <= j < |now| ensures key(before[i]) != key(now[j]) {
        assert before[i] in before && now[j] in now;
      }
      AppendDistinct(key, before, now);
    }
  }

  lemma {:induction false} FilterDistinctKeys<T(!new)>(key: T -> string, p: T -> bool, s: seq<T>)
    requires DistinctKeys(key, s)
    ensures DistinctKeys(key, Filter(p, s))
  {
    if |s| == 0 {
    } else {
      var n := |s| - 1;
      var kept := Filter(p, s[..n]);
      FilterDistinctKeys(key, p, s[..n]);
      FilterMembers(p, s[..n]);
      forall i | 0 <= i < |kept| ensures key(kept[i]) != key(s[n]) {
        assert kept[i] in s[..n];
        var j :| 0 <= j < n && s[j] == kept[i];
      }
    }
  }

  lemma MapMembers<T(!new), U(!new)>(f: T -> U, xs: seq<T>)
    ensures forall y :: y in Map(f, xs) <==> exists x :: x in xs && f(x) == y
  {
    var r := Map(f, xs);
    forall y ensures y in r <==> exists x :: x in xs && f(x) == y {
      if y in r {
        var i :| 0 <= i < |r| && r[i] == y;
        assert xs[i] in xs;
      }
      if x :| x in xs && f(x) == y {
        var i :| 0 <= i < |xs| && xs[i] == x;
        assert r[i] == y;
      }
    }
  }

  /** One value per key, sorted: exactly the values of the keys, each key once. */
  lemma KeyedShape<T(!new)>(leq: (T, T) -> bool, key: T -> string, f: string -> T, ks: seq<string>)
    requires TotalPreorder(leq) && NoDup(ks)
    requires forall k :: key(f(k)) == k
    ensures var s := SortBy(leq, Map(f, ks));
      && Sorted(leq, s) && |s| == |ks| && DistinctKeys(key, s)
      && (forall x :: x in s <==> key(x) in ks && x == f(key(x)))
  {
    var u := Map(f, ks);
    var s := SortBy(leq, u);
    SortBySorted(leq, u);
    SortByMembers(leq, u);
    MapMembers(f, ks);
    assert NoDup(u) by {
      forall i, j | 0 <= i < j < |u| ensures u[i] != u[j] {
        assert key(u[i]) == ks[i] && key(u[j]) == ks[j];
      }
    }
    SortByPermutes(leq, u);
    NoDupPermutation(u, s);
    forall i, j | 0 <= i < j < |s| ensures key(s[i]) != key(s[j]) {
      assert s[i] in s && s[j] in s;
    }
  }

  lemma KeyedImage<T(!new)>(key: T -> string, er: T -> T, f: string -> T, g: string -> T,
                            ks: seq<string>, s: seq<T>, t: seq<T>)
    requires forall x :: x in s ==> key(x) in ks && x == f(key(x))
    requires forall k :: k in ks ==> g(k) in t && er(f(k)) == er(g(k))
    ensures forall e :: e in Map(er, s) ==> e in Map(er, t)
  {
    MapMembers(er, s);
    MapMembers(er, t);
    forall e | e in Map(er, s) ensures e in Map(er, t) {
      var a :| a in s && er(a) == e;
      assert er(g(key(a))) == e;
    }
  }

  /** Two tables over the same keys that agree under `er` sort into the same order. */
  lemma KeyedSame<T(!new)>(leq: (T, T) -> bool, key: T -> string, er: T -> T,
                           f: string -> T, g: string -> T, ks: seq<string>, ls: seq<string>)
    requires KeyOrder(leq, key) && NoDup(ks) && NoDup(ls)
    requires forall k :: k in ks <==> k in ls
    requires forall k :: key(f(k)) == k && key(g(k)) == k && er(f(k)) == er(g(k))
    requires forall a :: key(er(a)) == key(a)
    requires forall a, b :: leq(er(a), er(b)) == leq(a, b)
    ensures var s, t := SortBy(leq, Map(f, ks)), SortBy(leq, Map(g, ls));
      |s| == |t| && forall i :: 0 <= i < |s| ==> er(s[i]) == er(t[i])
  {
    var s, t := SortBy(leq, Map(f, ks)), SortBy(leq, Map(g, ls));
    KeyedShape(leq, key, f, ks);
    KeyedShape(leq, key, g, ls);
    var x, y := Map(er, s), Map(er, t);
    MappedShape(leq, key, er, s);
    MappedShape(leq, key, er, t);
    assert forall e :: e in x <==> e in y by {
      forall k | k in ks ensures g(k) in t && f(k) in s {
        assert key(g(k)) == k && key(f(k)) == k;
      }
      KeyedImage(key, er, f, g, ks, s, t);
      KeyedImage(key, er, g, f, ls, t, s);
    }
    SortedUnique(leq, x, y);
    forall i | 0 <= i < |s| ensures er(s[i]) == er(t[i]) {
      assert x[i] == y[i];
    }
  }

  lemma MappedShape<T(!new)>(leq: (T, T) -> bool, key: T -> string, er: T -> T, s: seq<T>)
    requires KeyOrder(leq, key) && Sorted(leq, s) && DistinctKeys(key, s)
    requires forall a :: key(er(a)) == key(a)
    requires forall a, b :: leq(er(a), er(b)) == leq(a, b)
    ensures var x := Map(er, s); Sorted(leq, x) && NoDup(x) && AntisymmetricOn(leq, x)
  {
    var x := Map(er, s);
    forall i, j | 0 <= i < j < |x| ensures leq(x[i], x[j]) && x[i] != x[j] {
      assert leq(s[i], s[j]) && key(s[i]) != key(s[j]);
    }
    forall i, j | 0 <= i < |x| && 0 <= j < |x| && leq(x[i], x[j]) && leq(x[j], x[i]) ensures x[i] == x[j] {
      assert key(s[i]) == key(s[j]);
    }
  }

  lemma {:induction false} MapAppend<T, U>(f: T -> U, a: seq<T>, b: seq<T>)
    ensures Map(f, a + b) == Map(f, a) + Map(f, b)
  {
    if |b| == 0 {
      assert a + b == a;
    } else {
      assert (a + b)[..|a + b| - 1] == a + b[..|b| - 1];
      MapAppend(f, a, b[..|b| - 1]);
    }
  }

  lemma {:induction false} MapPermutation<T, U>(f: T -> U, a: seq<T>, b: seq<T>)
    requires multiset(a) == multiset(b)
    ensures multiset(Map(f, a)) == multiset(Map(f, b))
    decreases |a|
  {
    assert |multiset(a)| == |a| && |multiset(b)| == |b|;
    if |a| > 0 {
      var n := |a| - 1;
      assert a[n] in multiset(b);
      var i :| 0 <= i < |b| && b[i] == a[n];
      InitMultiset(a);
      WithoutAt(b, i);
      MapWithout(f, b, i);
      MapPermutation(f, a[..n], b[..i] + b[i + 1..]);
    }
  }

  lemma MapWithout<T, U>(f: T -> U, b: seq<T>, i: nat)
    requires i < |b|
    ensures multiset(Map(f, b)) == multiset(Map(f, b[..i] + b[i + 1..])) + multiset{f(b[i])}
  {
    WithoutAt(b, i);
    MapMiddle(f, b[..i], b[i], b[i + 1..]);
    MapAppend(f, b[..i], b[i + 1..]);
    MultisetMiddle(Map(f, b[..i]), f(b[i]), Map(f, b[i + 1..]));
  }

  lemma MapMiddle<T, U>(f: T -> U, a: seq<T>, x: T, b: seq<T>)
    ensures Map(f, a + [x] + b) == Map(f, a) + [f(x)] + Map(f, b)
  {
    MapAppend(f, a + [x], b);
    MapAppend(f, a, [x]);
    assert Map(f, [x]) == [f(x)];
  }

  lemma MultisetMiddle<T>(a: seq<T>, x: T, b: seq<T>)
    ensures multiset(a + [x] + b) == multiset(a + b) + multiset{x}
  {
  }

  // ----- Maximum by rank -----

  /** `max` with a rank as its key: the first of the elements of highest rank. */
  function FirstMax<T>(rank: T -> nat, xs: seq<T>): T
    requires |xs| > 0
  {
    var n := |xs| - 1;
    if n == 0 then xs[0]
    else
      var m := FirstMax(rank, xs[..n]);
      if rank(xs[n]) > rank(m) then xs[n] else m
  }

  lemma {:induction false} FirstMaxProperties<T>(rank: T -> nat, xs: seq<T>)
    requires |xs| > 0
    ensures FirstMax(rank, xs) in xs
    ensures forall i :: 0 <= i < |xs| ==> rank(xs[i]) <= rank(FirstMax(rank, xs))
    ensures rank(FirstMax(rank, xs)) == rank(xs[0]) ==> FirstMax(rank, xs) == xs[0]
  {
    var n := |xs| - 1;
    if n > 0 {
      FirstMaxProperties(rank, xs[..n]);
      assert xs == xs[..n] + [xs[n]];
    }
  }

  /** Some element outranks 0, or all elements are the same one. */
  predicate Settled<T(==)>(rank: T -> nat, xs: seq<T>) {
    || (exists x :: x in xs && rank(x) > 0)
    || (forall x, y :: x in xs && y in xs ==> x == y)
  }

  lemma SettledMax<T(!new)>(rank: T -> nat, xs: seq<T>, ys: seq<T>)
    requires |xs| > 0 && |ys| > 0 && (forall x :: x in xs <==> x in ys)
    requires forall x, y :: rank(x) == rank(y) > 0 ==> x == y
    requires Settled(rank, xs)
    ensures FirstMax(rank, xs) == FirstMax(rank, ys)
  {
    FirstMaxProperties(rank, xs);
    FirstMaxProperties(rank, ys);
    var x, y := FirstMax(rank, xs), FirstMax(rank, ys);
    var i :| 0 <= i < |ys| && ys[i] == x;
    var j :| 0 <= j < |xs| && xs[j] == y;
    assert rank(x) == rank(y);
    if rank(x) == 0 {
      assert forall z :: z in xs ==> rank(z) == 0;
    }
  }

  /** When nothing settles it, some element of rank 0 is not the maximum returned. */
  lemma UnsettledDissent<T>(rank: T -> nat, xs: seq<T>) returns (i: nat)
    requires !Settled(rank, xs)
    ensures i < |xs| && xs[i] != FirstMax(rank, xs)
  {
    var x, y :| x in xs && y in xs && x != y;
    var z := if x != FirstMax(rank, xs) then x else y;
    i :| 0 <= i < |xs| && xs[i] == z;
  }

  // ----- Sums -----

  function SumOf<T>(f: T -> real, xs: seq<T>): real {
    if |xs| == 0 then 0.0 else SumOf(f, xs[..|xs| - 1]) + f(xs[|xs| - 1])
  }

  lemma {:induction false} SumAppend<T>(f: T -> real, a: seq<T>, b: seq<T>)
    ensures SumOf(f, a + b) == SumOf(f, a) + SumOf(f, b)
  {
    if |b| == 0 {
      assert a + b == a;
    } else {
      assert (a + b)[..|a + b| - 1] == a + b[..|b| - 1];
      SumAppend(f, a, b[..|b| - 1]);
    }
  }

  lemma {:induction false} SumPermutation<T>(f: T -> real, a: seq<T>, b: seq<T>)
    requires multiset(a) == multiset(b)
    ensures SumOf(f, a) == SumOf(f, b)
    decreases |a|
  {
    assert |multiset(a)| == |a| && |multiset(b)| == |b|;
    if |a| > 0 {
      var n := |a| - 1;
      assert a[n] in multiset(b);
      var i :| 0 <= i < |b| && b[i] == a[n];
      InitMultiset(a);
      WithoutAt(b, i);
      SumWithout(f, b, i);
      SumPermutation(f, a[..n], b[..i] + b[i + 1..]);
    }
  }

  lemma SumWithout<T>(f: T -> real, b: seq<T>, i: nat)
    requires i < |b|
    ensures SumOf(f, b) == SumOf(f, b[..i] + b[i + 1..]) + f(b[i])
  {
    WithoutAt(b, i);
    SumMiddle(f, b[..i], b[i], b[i + 1..]);
    SumAppend(f, b[..i], b[i + 1..]);
  }

  lemma SumMiddle<T>(f: T -> real, a: seq<T>, x: T, b: seq<T>)
    ensures SumOf(f, a + [x] + b) == SumOf(f, a) + f(x) + SumOf(f, b)
  {
    SumAppend(f, a + [x], b);
    assert (a + [x])[..|a|] == a;
  }

  lemma {:induction false} SumCongruent<T>(f: T -> real, g: T -> real, xs: seq<T>)
    requires forall x :: x in xs ==> f(x) == g(x)
    ensures SumOf(f, xs) == SumOf(g, xs)
  {
    if |xs| == 0 {
    } else {
      assert xs == xs[..|xs| - 1] + [xs[|xs| - 1]];
      SumCongruent(f, g, xs[..|xs| - 1]);
    }
  }

  /** Changing the summand at one element of a repetition-free list changes the sum by that much. */
  lemma {:induction false} SumChangeOne<T>(f: T -> real, g: T -> real, xs: seq<T>, k: T, d: real)
    requires NoDup(xs) && k in xs && g(k) == f(k) + d
    requires forall x :: x in xs && x != k ==> f(x) == g(x)
    ensures SumOf(g, xs) == SumOf(f, xs) + d
  {
    var n := |xs| - 1;
    assert xs == xs[..n] + [xs[n]];
    if xs[n] == k {
      forall x | x in xs[..n] ensures f(x) == g(x) {
        var i :| 0 <= i < n && xs[i] == x;
      }
      SumCongruent(f, g, xs[..n]);
    } else {
      SumChangeOne(f, g, xs[..n], k, d);
    }
  }

  lemma {:induction false} SumAtLeast<T>(f: T -> real, xs: seq<T>, x: T)
    requires x in xs && forall y :: y in xs ==> f(y) >= 0.0
    ensures SumOf(f, xs) >= f(x)
  {
    var n := |xs| - 1;
    assert xs == xs[..n] + [xs[n]];
    if xs[n] == x {
      SumNonNegative(f, xs[..n]);
    } else {
      SumAtLeast(f, xs[..n], x);
    }
  }

  lemma {:induction false} SumNonNegative<T>(f: T -> real, xs: seq<T>)
    requires forall y :: y in xs ==> f(y) >= 0.0
    ensures SumOf(f, xs) >= 0.0
  {
    if |xs| == 0 {
    } else {
      assert xs == xs[..|xs| - 1] + [xs[|xs| - 1]];
      SumNonNegative(f, xs[..|xs| - 1]);
    }
  }

  // ----- Pieces of text -----

  function IndexOf(s: string, c: char): (n: nat)
    ensures n <= |s|
  {
    if s == "" || s[0] == c then 0 else 1 + IndexOf(s[1..], c)
  }

  function Before(s: string, c: char): string {
    s[..IndexOf(s, c)]
  }

  function After(s: string, c: char): string {
    if IndexOf(s, c) == |s| then "" else s[IndexOf(s, c) + 1..]
  }

  function NonEmpty(): string -> bool { (s: string) => s != "" }

  lemma {:induction false} IndexOfFirst(s: string, c: char)
    ensures var n := IndexOf(s, c);
      (n < |s| ==> s[n] == c) && forall i :: 0 <= i < n ==> s[i] != c
  {
    if s != "" && s[0] != c {
      IndexOfFirst(s[1..], c);
    }
  }

  lemma {:induction false} NotBefore(s: string, c: char, n: nat)
    requires n <= |s| && c !in s[..n]
    ensures IndexOf(s, c) >= n
  {
    if n > 0 {
      assert s[0] == s[..n][0] && s[1..][..n - 1] == s[..n][1..];
      NotBefore(s[1..], c, n - 1);
    }
  }
}
