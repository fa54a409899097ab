/** When the canonical key of a recipient list tells it from every other list. Addresses may contain
    the joining character, and then a piece at a join can belong to either neighbour. */
module CanonicalKey {
  import opened Sequences
  import opened Recipients
  import opened RecipientsProofs

  /** The pieces that the key joins. */
  function Pieces(recipients: seq<string>): seq<string> {
    SortBy(StrLe, Lowers(recipients))
  }

  /** Order and case never change the key. */
  lemma SpellingDoesNotMatter(a: seq<string>, b: seq<string>)
    requires SameAddresses(a, b)
    ensures Canonical(a) == Canonical(b)
  {
    PiecesSorted(a);
    PiecesSorted(b);
    StrLeOrder(Pieces(a));
    SortedSame(StrLe, Pieces(a), Pieces(b));
  }

  lemma PiecesSorted(a: seq<string>)
    ensures Sorted(StrLe, Pieces(a)) && multiset(Pieces(a)) == multiset(Lowers(a)) && |Pieces(a)| == |a|
  {
    StrLeOrder(Lowers(a));
    SortBySorted(StrLe, Lowers(a));
    SortByPermutes(StrLe, Lowers(a));
  }

  lemma LowerAddress(e: string)
    requires IsAddress(e)
    ensures IsAddress(Lower(e))
  {
    var l := Lower(e);
    var i, j :| 0 <= i < |e| && 0 <= j < |e| && AddressParts(e, i, j);
    forall k | 0 <= k < |l| ensures !IsSpace(l[k]) && (l[k] == '@' <==> e[k] == '@') {
      assert !IsSpace(e[k]);
    }
    assert AddressParts(l, i, j);
  }

  lemma PiecesAreAddresses(a: seq<string>)
    requires AllAddresses(a)
    ensures AllAddresses(Pieces(a))
  {
    SortByMembers(StrLe, Lowers(a));
    MapMembers(Lower, a);
    forall e | e in a ensures IsAddress(Lower(e)) {
      LowerAddress(e);
    }
  }

  // ----- What the key shows -----

  lemma OneAt(e: string)
    requires IsAddress(e)
    ensures multiset(e)['@'] == 1
  {
    var i, j :| 0 <= i < |e| && 0 <= j < |e| && AddressParts(e, i, j);
    assert e == e[..i] + ['@'] + e[i + 1..];
    assert '@' !in e[..i] && '@' !in e[i + 1..];
  }

  ghost predicate PipeFree(xs: seq<string>) {
    forall x :: x in xs ==> '|' !in x
  }

  /** A joined list of addresses shows how many there are by its `@`s; its `|`s count the joins
      plus whatever the addresses contain. */
  lemma {:induction false} JoinCounts(xs: seq<string>)
    requires AllAddresses(xs)
    ensures multiset(Join("|", xs))['@'] == |xs|
    ensures |xs| > 0 ==> multiset(Join("|", xs))['|'] >= |xs| - 1
    ensures |xs| > 0 ==> (multiset(Join("|", xs))['|'] == |xs| - 1 <==> PipeFree(xs))
  {
    var n := |xs| - 1;
    if |xs| > 0 {
      assert xs[n] in xs;
      OneAt(xs[n]);
      assert xs == xs[..n] + [xs[n]];
      JoinCounts(xs[..n]);
      assert PipeFree(xs) <==> PipeFree(xs[..n]) && '|' !in xs[n];
      if |xs| > 1 {
        assert multiset(Join("|", xs)) == multiset(Join("|", xs[..n])) + multiset("|") + multiset(xs[n]);
      }
    }
  }

  // ----- Local parts and domains -----

  /** Text without `@` or whitespace. */
  predicate Plain(r: string) {
    forall k :: 0 <= k < |r| ==> r[k] != '@' && !IsSpace(r[k])
  }

  predicate IsLocal(l: string) {
    l != "" && Plain(l)
  }

  predicate IsDomain(d: string) {
    Plain(d) && exists j :: 1 <= j && j + 1 < |d| && d[j] == '.'
  }

  function Local(e: string): string { Before(e, '@') }
  function Domain(e: string): string { After(e, '@') }
  function Address(l: string, d: string): string { l + "@" + d }

  lemma AtIs(e: string, i: nat)
    requires i < |e| && e[i] == '@' && '@' !in e[..i]
    ensures IndexOf(e, '@') == i
  {
    IndexOfFirst(e, '@');
    assert forall k :: 0 <= k < i ==> e[k] == e[..i][k];
  }

  lemma AddressSplits(e: string)
    requires IsAddress(e)
    ensures IsLocal(Local(e)) && IsDomain(Domain(e)) && e == Address(Local(e), Domain(e))
  {
    var i, j :| 0 <= i < |e| && 0 <= j < |e| && AddressParts(e, i, j);
    AtIs(e, i);
    assert Domain(e)[j - i - 1] == '.';
  }

  lemma AddressMade(l: string, d: string)
    requires IsLocal(l) && IsDomain(d)
    ensures IsAddress(Address(l, d)) && Local(Address(l, d)) == l && Domain(Address(l, d)) == d
  {
    var e := Address(l, d);
    var j :| 1 <= j && j + 1 < |d| && d[j] == '.';
    assert e[..|l|] == l && e[|l| + 1..] == d;
    AtIs(e, |l|);
    var dot := |l| + 1 + j;
    assert e[dot] == '.';
    assert AddressParts(e, |l|, dot);
  }

  // ----- The text between two `@`s -----

  /** The text between the `@`s of two neighbours: a domain, the join, a local part. */
  function Between(x: seq<string>, k: nat): string
    requires k + 1 < |x|
  {
    Domain(x[k]) + "|" + Local(x[k + 1])
  }

  /** The joined text up to the last `@`. */
  function Head(x: seq<string>): string
    requires |x| > 0
  {
    var n := |x| - 1;
    if n == 0 then Local(x[0]) else Head(x[..n]) + "@" + Between(x, n - 1)
  }

  lemma {:induction false} JoinHead(x: seq<string>)
    requires AllAddresses(x) && |x| > 0
    ensures Join("|", x) == Head(x) + "@" + Domain(x[|x| - 1])
  {
    var n := |x| - 1;
    AddressSplits(x[n]);
    if n > 0 {
      JoinHead(x[..n]);
      var h, d, l, e := Head(x[..n]), Domain(x[n - 1]), Local(x[n]), Domain(x[n]);
      assert (h + "@" + d) + "|" + (l + "@" + e) == h + "@" + (d + "|" + l) + "@" + e;
    }
  }

  lemma LastPiece(c: char, a: string, x: string, b: string, y: string)
    requires a + [c] + x == b + [c] + y && c !in x && c !in y
    ensures a == b && x == y
  {
    var s := a + [c] + x;
    assert s[|a|] == c && s[|b|] == c;
    forall k | |a| < k < |s| ensures s[k] != c {
      assert s[k] == x[k - |a| - 1];
    }
    forall k | |b| < k < |s| ensures s[k] != c {
      assert s[k] == y[k - |b| - 1];
    }
    assert a == s[..|a|] && x == s[|a| + 1..];
    assert b == s[..|b|] && y == s[|b| + 1..];
  }

  ghost predicate SameBetween(x: seq<string>, y: seq<string>) {
    && |x| == |y| > 0 && Local(x[0]) == Local(y[0])
    && forall k :: 0 <= k && k + 1 < |x| ==> Between(x, k) == Between(y, k)
  }

  lemma BetweenPlain(x: seq<string>, k: nat)
    requires AllAddresses(x) && k + 1 < |x|
    ensures '@' !in Between(x, k)
  {
    AddressSplits(x[k]);
    AddressSplits(x[k + 1]);
  }

  lemma {:induction false} SameHeads(x: seq<string>, y: seq<string>)
    requires AllAddresses(x) && AllAddresses(y) && |x| == |y| > 0 && Head(x) == Head(y)
    ensures SameBetween(x, y)
  {
    var n := |x| - 1;
    if n > 0 {
      BetweenPlain(x, n - 1);
      BetweenPlain(y, n - 1);
      LastPiece('@', Head(x[..n]), Between(x, n - 1), Head(y[..n]), Between(y, n - 1));
      SameHeads(x[..n], y[..n]);
      OneMoreBetween(x, y);
    }
  }

  lemma OneMoreBetween(x: seq<string>, y: seq<string>)
    requires |x| == |y| > 1 && SameBetween(x[..|x| - 1], y[..|x| - 1])
    requires Between(x, |x| - 2) == Between(y, |x| - 2)
    ensures SameBetween(x, y)
  {
    var n := |x| - 1;
    forall k | 0 <= k && k + 1 < |x| ensures Between(x, k) == Between(y, k) {
      if k + 1 < n {
        assert Between(x[..n], k) == Between(y[..n], k);
      }
    }
  }

  /** Two joined lists that read the same have the same text between any two `@`s. */
  lemma SameJoins(x: seq<string>, y: seq<string>)
    requires AllAddresses(x) && AllAddresses(y) && |x| > 0 && Join("|", x) == Join("|", y)
    ensures SameBetween(x, y) && Domain(x[|x| - 1]) == Domain(y[|y| - 1])
  {
    SameCount(x, y);
    var n := |x| - 1;
    JoinHead(x);
    JoinHead(y);
    LastDomain(x);
    LastDomain(y);
    LastPiece('@', Head(x), Domain(x[n]), Head(y), Domain(y[n]));
    SameHeads(x, y);
  }

  lemma SameCount(x: seq<string>, y: seq<string>)
    requires AllAddresses(x) && AllAddresses(y) && Join("|", x) == Join("|", y)
    ensures |x| == |y|
  {
    JoinCounts(x);
    JoinCounts(y);
  }

  lemma LastDomain(x: seq<string>)
    requires AllAddresses(x) && |x| > 0
    ensures '@' !in Domain(x[|x| - 1])
  {
    AddressSplits(x[|x| - 1]);
  }

  // ----- Moving a piece over a join -----

  /** A piece of an address that the joined text lets its neighbour have: the end of address `at`,
      or the start of the one after it. */
  datatype Move = Onward(at: nat, left: string, right: string) | Back(at: nat, left: string, right: string)

  /** What stays behind must still be an address. */
  predicate Possible(x: seq<string>, m: Move) {
    m.at + 1 < |x| &&
    match m
    case Onward(k, left, right) => x[k] == left + "|" + right && IsAddress(left)
    case Back(k, left, right) => x[k + 1] == left + "|" + right && IsAddress(right)
  }

  function Moved(x: seq<string>, m: Move): (y: seq<string>)
    requires m.at + 1 < |x|
    ensures |y| == |x|
  {
    match m
    case Onward(k, left, right) => x[k := left][k + 1 := right + "|" + x[k + 1]]
    case Back(k, left, right) => x[k := x[k] + "|" + left][k + 1 := right]
  }

  /** Some piece of the list could belong to a neighbour. */
  ghost predicate Loose(x: seq<string>) {
    exists m :: Possible(x, m)
  }

  /** One text cut at two of its `|`s. */
  lemma TwoCuts(a: string, b: string, c: string, d: string) returns (m: string)
    requires a + "|" + b == c + "|" + d && |a| < |c|
    ensures c == a + "|" + m && b == m + "|" + d
  {
    var s := a + "|" + b;
    m := c[|a| + 1..];
    assert c == s[..|c|] && s[|a|] == '|';
    assert b == s[|a| + 1..];
  }

  /** `x` with the text over one join cut as `y` cuts it. */
  function Recut(x: seq<string>, y: seq<string>, k: nat): seq<string>
    requires k + 1 < |x| == |y|
  {
    x[k := Address(Local(x[k]), Domain(y[k]))][k + 1 := Address(Local(y[k + 1]), Domain(x[k + 1]))]
  }

  /** Another reading of the text between two `@`s is a move of one piece. */
  lemma OtherCutIsMove(x: seq<string>, y: seq<string>, k: nat) returns (m: Move)
    requires AllAddresses(x) && AllAddresses(y) && |x| == |y| && k + 1 < |x|
    requires Between(x, k) == Between(y, k) && Domain(x[k]) != Domain(y[k])
    ensures Possible(x, m) && m.at == k
    ensures Moved(x, m) == Recut(x, y, k)
  {
    var left, right := x[k], x[k + 1];
    var p, q := Address(Local(x[k]), Domain(y[k])), Address(Local(y[k + 1]), Domain(x[k + 1]));
    var onward, piece := OtherCut(left, right, y[k], y[k + 1]);
    m := if onward then Onward(k, p, piece) else Back(k, piece, q);
  }

  /** Two neighbours and another pair with the same text between: one piece changes sides. */
  lemma OtherCut(a: string, b: string, c: string, d: string) returns (onward: bool, piece: string)
    requires IsAddress(a) && IsAddress(b) && IsAddress(c) && IsAddress(d)
    requires Domain(a) + "|" + Local(b) == Domain(c) + "|" + Local(d) && Domain(a) != Domain(c)
    ensures var p, q := Address(Local(a), Domain(c)), Address(Local(d), Domain(b));
      if onward then a == p + "|" + piece && IsAddress(p) && q == piece + "|" + b
      else b == piece + "|" + q && IsAddress(q) && p == a + "|" + piece
  {
    Mixed(a, c);
    Mixed(d, b);
    Mixed(a, a);
    Mixed(b, b);
    onward, piece := OtherCutText(Local(a), Domain(a), Local(b), Domain(b), Domain(c), Local(d));
  }

  /** The local part of one address and the domain of another make an address. */
  lemma Mixed(a: string, b: string)
    requires IsAddress(a) && IsAddress(b)
    ensures IsAddress(Address(Local(a), Domain(b))) && Local(Address(Local(a), Domain(b))) == Local(a)
    ensures a == b ==> Address(Local(a), Domain(b)) == a
  {
    AddressSplits(a);
    AddressSplits(b);
    AddressMade(Local(a), Domain(b));
  }

  lemma OtherCutText(l: string, d: string, m: string, e: string, d': string, m': string)
    returns (onward: bool, piece: string)
    requires d + "|" + m == d' + "|" + m' && d != d'
    ensures if onward then Address(l, d) == Address(l, d') + "|" + piece
        && Address(m', e) == piece + "|" + Address(m, e)
      else Address(m, e) == piece + "|" + Address(m', e) && Address(l, d') == Address(l, d) + "|" + piece
  {
    onward := |d| > |d'|;
    if onward {
      piece := TwoCuts(d', m', d, m);
      PieceOnward(l, d', piece);
      PieceBack(piece, m, e);
    } else {
      if |d| == |d'| {
        SameLengthCuts(d, m, d', m');
      }
      piece := TwoCuts(d, m, d', m');
      PieceOnward(l, d, piece);
      PieceBack(piece, m', e);
    }
  }

  lemma PieceOnward(l: string, d: string, r: string)
    ensures Address(l, d + "|" + r) == Address(l, d) + "|" + r
  {
  }

  lemma PieceBack(r: string, l: string, d: string)
    ensures Address(r + "|" + l, d) == r + "|" + Address(l, d)
  {
  }

  lemma SameLengthCuts(a: string, b: string, c: string, d: string)
    requires a + "|" + b == c + "|" + d && |a| == |c|
    ensures a == c
  {
    var s := a + "|" + b;
    assert a == s[..|a|] && c == s[..|c|];
  }

  // ----- No loose piece: the key is exact -----

  lemma SameCuts(x: seq<string>, y: seq<string>)
    requires AllAddresses(x) && AllAddresses(y) && SameBetween(x, y)
    requires forall k :: 0 <= k < |x| ==> Domain(x[k]) == Domain(y[k])
    ensures x == y
  {
    forall k | 0 <= k < |x| ensures x[k] == y[k] {
      AddressSplits(x[k]);
      AddressSplits(y[k]);
      if k > 0 {
        assert Between(x, k - 1) == Between(y, k - 1);
        SameEnd(Domain(x[k - 1]) + "|", Local(x[k]), Local(y[k]));
      }
    }
  }

  lemma SameEnd(p: string, a: string, b: string)
    requires p + a == p + b
    ensures a == b
  {
    assert a == (p + a)[|p|..] && b == (p + b)[|p|..];
  }

  /** Different lists with the same joined text differ by a piece at some join. */
  lemma OtherReading(x: seq<string>, y: seq<string>) returns (k: nat)
    requires AllAddresses(x) && AllAddresses(y) && x != y && Join("|", x) == Join("|", y)
    ensures k + 1 < |x| == |y| && Between(x, k) == Between(y, k) && Domain(x[k]) != Domain(y[k])
  {
    SameCount(x, y);
    assert |x| > 0;
    SameJoins(x, y);
    if forall i :: 0 <= i < |x| ==> Domain(x[i]) == Domain(y[i]) {
      SameCuts(x, y);
    }
    k :| 0 <= k < |x| && Domain(x[k]) != Domain(y[k]);
  }

  lemma SameTextIsLoose(x: seq<string>, y: seq<string>)
    requires AllAddresses(x) && AllAddresses(y) && Join("|", x) == Join("|", y) && x != y
    ensures Loose(x)
  {
    var k := OtherReading(x, y);
    var m := OtherCutIsMove(x, y, k);
  }

  /** The key tells recipient lists apart: two lists of addresses, one of them without a loose
      piece, have the same key exactly when they hold the same addresses up to order and case. */
  lemma CanonicalExactly(a: seq<string>, b: seq<string>)
    requires AllAddresses(a) && AllAddresses(b)
    requires !Loose(Pieces(a)) || !Loose(Pieces(b))
    ensures Canonical(a) == Canonical(b) <==> SameAddresses(a, b)
  {
    if SameAddresses(a, b) {
      SpellingDoesNotMatter(a, b);
    }
    if Canonical(a) == Canonical(b) {
      PiecesSorted(a);
      PiecesSorted(b);
      PiecesAreAddresses(a);
      PiecesAreAddresses(b);
      if Pieces(a) != Pieces(b) {
        SameTextIsLoose(Pieces(a), Pieces(b));
        SameTextIsLoose(Pieces(b), Pieces(a));
        assert false;
      }
    }
  }

  lemma LowerPipe(e: string)
    ensures '|' in Lower(e) <==> '|' in e
  {
    var l := Lower(e);
    forall k | 0 <= k < |e| ensures l[k] == '|' <==> e[k] == '|' {
    }
    if '|' in l {
      var k :| 0 <= k < |l| && l[k] == '|';
      assert e[k] in e;
    }
    if '|' in e {
      var k :| 0 <= k < |e| && e[k] == '|';
      assert l[k] in l;
    }
  }

  /** A list of one address, and a list free of `|`, has no loose piece. */
  lemma NothingLoose(a: seq<string>)
    requires |a| <= 1 || PipeFree(a)
    ensures !Loose(Pieces(a))
  {
    var x := Pieces(a);
    forall m: Move | m.at + 1 < |x| ensures !Possible(x, m) {
      PieceHasNoPipe(a, x[m.at]);
      PieceHasNoPipe(a, x[m.at + 1]);
      var text := m.left + "|" + m.right;
      assert text[|m.left|] == '|';
    }
  }

  lemma PieceHasNoPipe(a: seq<string>, e: string)
    requires PipeFree(a) && e in Pieces(a)
    ensures '|' !in e
  {
    SortByMembers(StrLe, Lowers(a));
    MapMembers(Lower, a);
    var f :| f in a && Lower(f) == e;
    LowerPipe(f);
  }

  // ----- A loose piece that may move: another list with the same key -----

  /** An address stays one when plain text is attached behind a `|`, after it or before it. */
  lemma AddressExtends(e: string, r: string)
    requires IsAddress(e) && Plain(r)
    ensures IsAddress(e + "|" + r) && IsAddress(r + "|" + e)
  {
    var i, j :| 0 <= i < |e| && 0 <= j < |e| && AddressParts(e, i, j);
    var after, before := e + "|" + r, r + "|" + e;
    forall k | 0 <= k < |after| ensures !IsSpace(after[k]) && (after[k] == '@' ==> k == i) {
    }
    assert AddressParts(after, i, j);
    var d := |r| + 1;
    forall k | 0 <= k < |before| ensures !IsSpace(before[k]) && (before[k] == '@' ==> k == i + d) {
      assert k >= d ==> before[k] == e[k - d];
    }
    assert before[i + d] == e[i] && before[j + d] == e[j];
    assert AddressParts(before, i + d, j + d);
  }

  /** The part of an address that is not an address when the other is: it has no `@`. */
  lemma OtherPartPlain(p: string, q: string)
    requires IsAddress(p + "|" + q)
    ensures IsAddress(p) ==> Plain(q)
    ensures IsAddress(q) ==> Plain(p)
  {
    var e := p + "|" + q;
    OneAt(e);
    assert multiset(e) == multiset(p) + multiset("|") + multiset(q);
    assert forall k :: 0 <= k < |p| ==> e[k] == p[k];
    assert forall k :: 0 <= k < |q| ==> e[|p| + 1 + k] == q[k];
    if IsAddress(p) {
      OneAt(p);
      assert '@' !in q;
    }
    if IsAddress(q) {
      OneAt(q);
      assert '@' !in p;
    }
  }

  lemma {:induction false} JoinTwo(u: seq<string>, a: string, b: string, v: seq<string>)
    ensures Join("|", u + [a, b] + v) == Join("|", u + [a + "|" + b] + v)
  {
    var x, y := u + [a, b] + v, u + [a + "|" + b] + v;
    if v == [] {
      assert x[..|x| - 1] == u + [a] && y[..|y| - 1] == u;
      assert (u + [a])[..|u|] == u;
      if u == [] {
        assert u + [a] == [a];
      } else {
        assert Join("|", x) == (Join("|", u) + "|" + a) + "|" + b;
        assert Join("|", y) == Join("|", u) + "|" + (a + "|" + b);
      }
    } else {
      var n := |v| - 1;
      assert x[..|x| - 1] == u + [a, b] + v[..n] && y[..|y| - 1] == u + [a + "|" + b] + v[..n];
      JoinTwo(u, a, b, v[..n]);
    }
  }

  /** A move keeps the joined text and leaves addresses behind. */
  lemma MoveKeepsText(x: seq<string>, m: Move)
    requires AllAddresses(x) && Possible(x, m)
    ensures AllAddresses(Moved(x, m)) && Join("|", Moved(x, m)) == Join("|", x)
    ensures Moved(x, m)[m.at] != x[m.at]
  {
    MoveKeepsAddresses(x, m);
    MoveText(x, m);
    JoinAt(x, m.at);
    JoinAt(Moved(x, m), m.at);
    assert Moved(x, m)[..m.at] == x[..m.at] && Moved(x, m)[m.at + 2..] == x[m.at + 2..];
  }

  lemma JoinAt(x: seq<string>, k: nat)
    requires k + 1 < |x|
    ensures Join("|", x) == Join("|", x[..k] + [x[k] + "|" + x[k + 1]] + x[k + 2..])
  {
    AroundTwo(x, k);
    JoinTwo(x[..k], x[k], x[k + 1], x[k + 2..]);
  }

  lemma AroundTwo<T>(x: seq<T>, k: nat)
    requires k + 1 < |x|
    ensures x == x[..k] + [x[k], x[k + 1]] + x[k + 2..]
  {
  }

  lemma MoveText(x: seq<string>, m: Move)
    requires Possible(x, m)
    ensures var y, k := Moved(x, m), m.at;
      y[k] + "|" + y[k + 1] == x[k] + "|" + x[k + 1] && y[k] != x[k]
  {
    var k := m.at;
    if m.Onward? {
      assert (m.left + "|" + m.right) + "|" + x[k + 1] == m.left + "|" + (m.right + "|" + x[k + 1]);
      assert |x[k]| > |m.left|;
    } else {
      assert x[k] + "|" + (m.left + "|" + m.right) == (x[k] + "|" + m.left) + "|" + m.right;
    }
  }

  lemma MoveKeepsAddresses(x: seq<string>, m: Move)
    requires AllAddresses(x) && Possible(x, m)
    ensures AllAddresses(Moved(x, m))
  {
    OtherPartPlain(m.left, m.right);
    if m.Onward? {
      AddressExtends(x[m.at + 1], m.right);
    } else {
      AddressExtends(x[m.at], m.left);
    }
  }

  predicate IsLower(e: string) { Lower(e) == e }

  lemma LowerPiped(p: string, q: string)
    ensures IsLower(p + "|" + q) <==> IsLower(p) && IsLower(q)
  {
    var e := p + "|" + q;
    assert Lower(e) == Lower(p) + "|" + Lower(q);
    assert |Lower(p)| == |p| && |Lower(q)| == |q|;
    if IsLower(e) {
      assert Lower(p) == e[..|p|] && Lower(q) == e[|p| + 1..];
    }
  }

  /** What parsing and lower-casing leave in every piece: lower case and no separator. */
  ghost predicate Tidy(x: seq<string>) {
    forall e :: e in x ==> IsLower(e) && SepFree(e)
  }

  ghost predicate AllLower(x: seq<string>) {
    forall e :: e in x ==> IsLower(e)
  }

  lemma PiecesLower(a: seq<string>)
    ensures AllLower(Pieces(a))
  {
    SortByMembers(StrLe, Lowers(a));
    MapMembers(Lower, a);
  }

  lemma LowerSepFree(e: string)
    requires SepFree(e)
    ensures SepFree(Lower(e))
  {
    forall k | 0 <= k < |e| ensures !IsSep(Lower(e)[k]) {
      assert !IsSep(e[k]);
    }
  }

  lemma ParsedPieces(a: seq<string>)
    requires Parsed(a)
    ensures AllAddresses(Pieces(a)) && Tidy(Pieces(a)) && Sorted(StrLe, Pieces(a)) && NoDup(Pieces(a))
  {
    PiecesSorted(a);
    PiecesAreAddresses(a);
    PiecesLower(a);
    NoDupPermutation(Lowers(a), Pieces(a));
    SortByMembers(StrLe, Lowers(a));
    MapMembers(Lower, a);
    forall e | e in a ensures SepFree(Lower(e)) {
      LowerSepFree(e);
    }
  }

  lemma MovedLower(x: seq<string>, m: Move)
    requires Possible(x, m) && AllLower(x)
    ensures AllLower(Moved(x, m))
  {
    var k := m.at;
    assert x[k] in x && x[k + 1] in x;
    LowerPiped(m.left, m.right);
    LowerPiped(m.right, x[k + 1]);
    LowerPiped(x[k], m.left);
    MovedKeeps((e: string) => IsLower(e), x, m);
  }

  lemma SepFreePiped(p: string, q: string)
    ensures SepFree(p + "|" + q) <==> SepFree(p) && SepFree(q)
  {
    var e := p + "|" + q;
    assert forall k :: 0 <= k < |p| ==> p[k] == e[k];
    assert forall k :: 0 <= k < |q| ==> q[k] == e[|p| + 1 + k];
  }

  lemma MovedSepFree(x: seq<string>, m: Move)
    requires Possible(x, m) && forall e :: e in x ==> SepFree(e)
    ensures forall e :: e in Moved(x, m) ==> SepFree(e)
  {
    var k := m.at;
    assert x[k] in x && x[k + 1] in x;
    SepFreePiped(m.left, m.right);
    SepFreePiped(m.right, x[k + 1]);
    SepFreePiped(x[k], m.left);
    MovedKeeps((e: string) => forall i :: 0 <= i < |e| ==> !IsSep(e[i]), x, m);
  }

  lemma MovedKeeps(p: string -> bool, x: seq<string>, m: Move)
    requires m.at + 1 < |x| && forall e :: e in x ==> p(e)
    requires p(Moved(x, m)[m.at]) && p(Moved(x, m)[m.at + 1])
    ensures forall e :: e in Moved(x, m) ==> p(e)
  {
    var y := Moved(x, m);
    forall i | 0 <= i < |y| ensures p(y[i]) {
      assert x[i] in x;
    }
  }

  lemma MovedTidy(x: seq<string>, m: Move)
    requires Possible(x, m) && Tidy(x)
    ensures Tidy(Moved(x, m))
  {
    MovedLower(x, m);
    MovedSepFree(x, m);
  }

  /** A sorted list of lower-case text is its own pieces. */
  lemma SortedIsPieces(x: seq<string>)
    requires Sorted(StrLe, x) && AllLower(x)
    ensures Lowers(x) == x && Pieces(x) == x
  {
    forall i | 0 <= i < |x| ensures Lowers(x)[i] == x[i] {
      assert IsLower(x[i]);
    }
    SameSeq(Lowers(x), x);
    PiecesSorted(x);
    StrLeOrder(x);
    SortedSame(StrLe, x, Pieces(x));
  }

  /** A sorted list of lower-case addresses, none twice, is one that parsing can give. */
  lemma SortedIsParsed(x: seq<string>)
    requires AllAddresses(x) && Tidy(x) && Sorted(StrLe, x) && NoDup(x)
    ensures Parsed(x) && Pieces(x) == x
  {
    SortedIsPieces(x);
  }

  /** A loose piece whose move leaves the list sorted gives other addresses with the same key. If
      the move repeats no address, they are a list that parsing can give. */
  lemma MoveCollides(a: seq<string>, m: Move)
    requires AllAddresses(a) && Possible(Pieces(a), m) && Sorted(StrLe, Moved(Pieces(a), m))
    ensures var b := Moved(Pieces(a), m);
      && AllAddresses(b) && Canonical(b) == Canonical(a) && !SameAddresses(a, b)
      && (Parsed(a) && NoDup(b) ==> Parsed(b))
  {
    var b := Moved(Pieces(a), m);
    PiecesAreAddresses(a);
    MoveKeepsText(Pieces(a), m);
    PiecesLower(a);
    MovedLower(Pieces(a), m);
    SortedIsPieces(b);
    OtherPieces(a, b);
    if Parsed(a) && NoDup(b) {
      ParsedPieces(a);
      MovedTidy(Pieces(a), m);
      SortedIsParsed(b);
    }
  }

  lemma OtherPieces(a: seq<string>, b: seq<string>)
    requires Pieces(a) != Pieces(b)
    ensures !SameAddresses(a, b)
  {
    if SameAddresses(a, b) {
      PiecesSorted(a);
      PiecesSorted(b);
      StrLeOrder(Pieces(a));
      SortedSame(StrLe, Pieces(a), Pieces(b));
    }
  }

  // ----- Every other list with the same key -----

  /** Moves over joins from left to right, each join at most once, from `x` to `y`. */
  ghost predicate Chain(x: seq<string>, from: nat, moves: seq<Move>, y: seq<string>)
    decreases |moves|
  {
    if moves == [] then x == y
    else
      && moves[0].at >= from && Possible(x, moves[0])
      && Chain(Moved(x, moves[0]), moves[0].at + 1, moves[1..], y)
  }

  lemma {:induction false} ChainKeeps(x: seq<string>, from: nat, moves: seq<Move>, y: seq<string>)
    requires AllAddresses(x) && Tidy(x) && Chain(x, from, moves, y)
    ensures AllAddresses(y) && Tidy(y) && Join("|", y) == Join("|", x)
    decreases |moves|
  {
    if moves == [] {
    } else {
      MoveKeepsText(x, moves[0]);
      MovedTidy(x, moves[0]);
      ChainKeeps(Moved(x, moves[0]), moves[0].at + 1, moves[1..], y);
    }
  }

  ghost predicate SameDomains(x: seq<string>, y: seq<string>, k: nat) {
    |x| == |y| && forall i :: 0 <= i < k && i < |x| ==> Domain(x[i]) == Domain(y[i])
  }

  /** Another list with the same joined text is reached by moving pieces. */
  lemma {:induction false} ReadingIsChain(x: seq<string>, y: seq<string>, k: nat) returns (moves: seq<Move>)
    requires AllAddresses(x) && AllAddresses(y) && |x| > 0 && Join("|", x) == Join("|", y) && SameDomains(x, y, k)
    ensures Chain(x, k, moves, y)
    decreases |x| - k
  {
    SameJoins(x, y);
    if k + 1 >= |x| {
      assert forall i :: 0 <= i < |x| - 1 ==> Domain(x[i]) == Domain(y[i]);
      SameCuts(x, y);
      moves := [];
    } else if Domain(x[k]) == Domain(y[k]) {
      moves := ReadingIsChain(x, y, k + 1);
    } else {
      var m := OtherCutIsMove(x, y, k);
      MoveKeepsText(x, m);
      MovedDomains(x, y, k, m);
      var rest := ReadingIsChain(Moved(x, m), y, k + 1);
      moves := [m] + rest;
      assert moves[1..] == rest;
    }
  }

  lemma MovedDomains(x: seq<string>, y: seq<string>, k: nat, m: Move)
    requires AllAddresses(x) && AllAddresses(y) && SameDomains(x, y, k) && k + 1 < |x|
    requires m.at == k
    requires Moved(x, m) == Recut(x, y, k)
    ensures SameDomains(Moved(x, m), y, k + 1)
  {
    AddressSplits(x[k]);
    AddressSplits(y[k]);
    AddressMade(Local(x[k]), Domain(y[k]));
  }

  /** Parsing can give other addressees the same key. */
  ghost predicate Shared(a: seq<string>) {
    exists b :: Parsed(b) && Canonical(b) == Canonical(a) && !SameAddresses(a, b)
  }

  /** Moves that lead to another sorted list without repetition. */
  ghost predicate Rereads(x: seq<string>, moves: seq<Move>, y: seq<string>) {
    Chain(x, 0, moves, y) && y != x && Sorted(StrLe, y) && NoDup(y)
  }

  /** A parsed list shares its key with other addressees exactly when some of its loose pieces can
      move, over each join at most one, and leave another sorted list without repetition. */
  lemma SharedByMoves(a: seq<string>)
    requires Parsed(a)
    ensures Shared(a) <==> exists moves, y :: Rereads(Pieces(a), moves, y)
  {
    if moves, y :| Rereads(Pieces(a), moves, y) {
      ChainCollides(a, moves, y);
    }
    if Shared(a) {
      var moves, y := OtherIsChain(a);
    }
  }

  lemma ChainCollides(a: seq<string>, moves: seq<Move>, y: seq<string>)
    requires Parsed(a) && Rereads(Pieces(a), moves, y)
    ensures Parsed(y) && Canonical(y) == Canonical(a) && !SameAddresses(a, y) && Shared(a)
  {
    ParsedPieces(a);
    ChainKeeps(Pieces(a), 0, moves, y);
    SortedIsParsed(y);
    OtherPieces(a, y);
  }

  lemma OtherIsChain(a: seq<string>) returns (moves: seq<Move>, y: seq<string>)
    requires Parsed(a) && Shared(a)
    ensures Rereads(Pieces(a), moves, y)
  {
    var b := OtherPiecesOf(a);
    y := Pieces(b);
    SameCount(Pieces(a), y);
    moves := ReadingIsChain(Pieces(a), y, 0);
  }

  lemma OtherPiecesOf(a: seq<string>) returns (b: seq<string>)
    requires Parsed(a) && Shared(a)
    ensures Parsed(b) && Join("|", Pieces(b)) == Join("|", Pieces(a)) && Pieces(b) != Pieces(a)
    ensures AllAddresses(Pieces(a)) && AllAddresses(Pieces(b))
    ensures Sorted(StrLe, Pieces(a)) && Sorted(StrLe, Pieces(b)) && NoDup(Pieces(b))
  {
    b :| Parsed(b) && Canonical(b) == Canonical(a) && !SameAddresses(a, b);
    ParsedPieces(a);
    ParsedPieces(b);
    PiecesSorted(a);
    PiecesSorted(b);
  }

  // ----- Neighbours with different local parts: nothing else collides -----

  /** The text after the last `|`. */
  function Stem(l: string): string {
    if l == "" || l[|l| - 1] == '|' then "" else Stem(l[..|l| - 1]) + [l[|l| - 1]]
  }

  lemma {:induction false} StemPiped(p: string, l: string)
    ensures Stem(p + "|" + l) == Stem(l)
  {
    var e := p + "|" + l;
    if l != "" {
      assert e[..|e| - 1] == p + "|" + l[..|l| - 1];
      StemPiped(p, l[..|l| - 1]);
    }
  }

  /** No two neighbours have local parts that end alike after their last `|`. */
  predicate StemsApart(x: seq<string>) {
    forall k :: 0 <= k && k + 1 < |x| ==> Stem(Local(x[k])) != Stem(Local(x[k + 1]))
  }

  /** The order of addresses with different local parts. */
  predicate LocalLess(l: string, m: string) {
    l != m && StrLe(l + "@", m + "@")
  }

  lemma {:induction false} LocalsDecide(l: string, d: string, m: string, e: string)
    requires '@' !in l && '@' !in m && l != m
    ensures StrLe(Address(l, d), Address(m, e)) <==> StrLe(l + "@", m + "@")
  {
    var a, b := Address(l, d), Address(m, e);
    if l != "" && m != "" && l[0] == m[0] {
      assert l == [l[0]] + l[1..] && m == [m[0]] + m[1..];
      assert a[1..] == Address(l[1..], d) && b[1..] == Address(m[1..], e);
      assert (l + "@")[1..] == l[1..] + "@" && (m + "@")[1..] == m[1..] + "@";
      LocalsDecide(l[1..], d, m[1..], e);
    }
  }

  lemma LessTransitive(l: string, m: string, n: string)
    requires LocalLess(l, m) && LocalLess(m, n)
    ensures LocalLess(l, n)
  {
    StrLeTransitive(l + "@", m + "@", n + "@");
    if l == n {
      StrLeAntisymmetric(l + "@", m + "@");
      SameLengthPrefix(l, m);
    }
  }

  lemma SameLengthPrefix(l: string, m: string)
    requires l + "@" == m + "@"
    ensures l == m
  {
    assert l == (l + "@")[..|l|] && m == (m + "@")[..|m|];
  }

  lemma LessTotal(l: string, m: string)
    ensures l == m || LocalLess(l, m) || LocalLess(m, l)
  {
    StrLeTotal(l + "@", m + "@");
  }

  predicate Rising(ls: seq<string>) {
    forall k :: 0 <= k && k + 1 < |ls| ==> LocalLess(ls[k], ls[k + 1])
  }

  function LocalOf(): string -> string { (e: string) => Local(e) }

  lemma SortedRises(x: seq<string>)
    requires AllAddresses(x) && Sorted(StrLe, x)
    requires forall k :: 0 <= k && k + 1 < |x| ==> Local(x[k]) != Local(x[k + 1])
    ensures Rising(Map(LocalOf(), x))
  {
    forall k | 0 <= k && k + 1 < |x| ensures LocalLess(Local(x[k]), Local(x[k + 1])) {
      AddressSplits(x[k]);
      AddressSplits(x[k + 1]);
      LocalsDecide(Local(x[k]), Domain(x[k]), Local(x[k + 1]), Domain(x[k + 1]));
    }
  }

  lemma RisesSorted(x: seq<string>)
    requires AllAddresses(x) && Rising(Map(LocalOf(), x))
    ensures Sorted(StrLe, x)
  {
    forall k | 0 <= k && k + 1 < |x| ensures StrLe(x[k], x[k + 1]) {
      AddressSplits(x[k]);
      AddressSplits(x[k + 1]);
      assert LocalLess(Map(LocalOf(), x)[k], Map(LocalOf(), x)[k + 1]);
      LocalsDecide(Local(x[k]), Domain(x[k]), Local(x[k + 1]), Domain(x[k + 1]));
    }
    forall i, j | 0 <= i < j < |x| ensures StrLe(x[i], x[j]) {
      NeighboursSort(x, i, j);
    }
  }

  lemma {:induction false} NeighboursSort(x: seq<string>, i: nat, j: nat)
    requires i < j < |x| && forall k :: 0 <= k && k + 1 < |x| ==> StrLe(x[k], x[k + 1])
    ensures StrLe(x[i], x[j])
    decreases j
  {
    assert StrLe(x[j - 1], x[j - 1 + 1]);
    if i < j - 1 {
      NeighboursSort(x, i, j - 1);
      StrLeTransitive(x[i], x[j - 1], x[j]);
    }
  }

  lemma {:induction false} RunStart(l: seq<string>, m: seq<string>, i: nat) returns (k: nat)
    requires i < |l| == |m| && LocalLess(m[i], l[i])
    ensures k <= i && LocalLess(m[k], l[k]) && (k > 0 ==> !LocalLess(m[k - 1], l[k - 1]))
  {
    if i > 0 && LocalLess(m[i - 1], l[i - 1]) {
      k := RunStart(l, m, i - 1);
    } else {
      k := i;
    }
  }

  lemma {:induction false} RunEnd(l: seq<string>, m: seq<string>, i: nat) returns (k: nat)
    requires i < |l| == |m| && LocalLess(l[i], m[i])
    ensures i <= k < |l| && LocalLess(l[k], m[k]) && (k + 1 < |l| ==> !LocalLess(l[k + 1], m[k + 1]))
    decreases |l| - i
  {
    if i + 1 < |l| && LocalLess(l[i + 1], m[i + 1]) {
      k := RunEnd(l, m, i + 1);
    } else {
      k := i;
    }
  }

  /** Two rising lists with the same first element: one element of the second fits into the first. */
  lemma OneFits(l: seq<string>, m: seq<string>) returns (k: nat)
    requires |l| == |m| > 0 && l[0] == m[0] && l != m && Rising(l) && Rising(m)
    ensures 0 < k < |l| && l[k] != m[k]
    ensures LocalLess(l[k - 1], m[k]) && (k + 1 < |l| ==> LocalLess(m[k], l[k + 1]))
  {
    var i :| 0 <= i < |l| && l[i] != m[i];
    LessTotal(l[i], m[i]);
    if LocalLess(m[i], l[i]) {
      k := RunStart(l, m, i);
      StartFits(l, m, k);
    } else {
      k := RunEnd(l, m, i);
      EndFits(l, m, k);
    }
  }

  lemma StartFits(l: seq<string>, m: seq<string>, k: nat)
    requires |l| == |m| && 0 < k < |l| && Rising(l) && Rising(m)
    requires LocalLess(m[k], l[k]) && !LocalLess(m[k - 1], l[k - 1])
    ensures LocalLess(l[k - 1], m[k]) && (k + 1 < |l| ==> LocalLess(m[k], l[k + 1]))
  {
    assert LocalLess(m[k - 1], m[k - 1 + 1]);
    LessTotal(l[k - 1], m[k - 1]);
    if l[k - 1] != m[k - 1] {
      LessTransitive(l[k - 1], m[k - 1], m[k]);
    }
    if k + 1 < |l| {
      LessTransitive(m[k], l[k], l[k + 1]);
    }
  }

  lemma EndFits(l: seq<string>, m: seq<string>, k: nat)
    requires |l| == |m| && 0 < k < |l| && Rising(l) && Rising(m)
    requires LocalLess(l[k], m[k]) && (k + 1 < |l| ==> !LocalLess(l[k + 1], m[k + 1]))
    ensures LocalLess(l[k - 1], m[k]) && (k + 1 < |l| ==> LocalLess(m[k], l[k + 1]))
  {
    assert LocalLess(l[k - 1], l[k - 1 + 1]);
    LessTransitive(l[k - 1], l[k], m[k]);
    if k + 1 < |l| {
      LessTotal(l[k + 1], m[k + 1]);
      if l[k + 1] != m[k + 1] {
        LessTransitive(m[k], m[k + 1], l[k + 1]);
      }
    }
  }

  lemma SameStem(x: seq<string>, y: seq<string>, k: nat)
    requires SameBetween(x, y) && k < |x|
    ensures Stem(Local(x[k])) == Stem(Local(y[k]))
  {
    if k > 0 {
      assert Between(x, k - 1) == Between(y, k - 1);
      StemPiped(Domain(x[k - 1]), Local(x[k]));
      StemPiped(Domain(y[k - 1]), Local(y[k]));
    }
  }

  /** Another sorted reading of a list whose stems are apart can be reached, as far as one piece
      goes, without disturbing the order. */
  lemma OneMoveSorts(x: seq<string>, y: seq<string>) returns (m: Move)
    requires AllAddresses(x) && AllAddresses(y) && Sorted(StrLe, x) && Sorted(StrLe, y)
    requires x != y && Join("|", x) == Join("|", y) && StemsApart(x)
    ensures Possible(x, m) && Sorted(StrLe, Moved(x, m))
  {
    var i := OtherReading(x, y);
    SameJoins(x, y);
    LocalsRise(x, y);
    LocalsDiffer(x, y, i);
    var k := OneFits(Map(LocalOf(), x), Map(LocalOf(), y));
    DomainsDiffer(x, y, k - 1);
    m := OtherCutIsMove(x, y, k - 1);
    MoveKeepsAddresses(x, m);
    Mixed(x[k - 1], y[k - 1]);
    Mixed(y[k], x[k]);
    LocalsAfter(x, k - 1, Address(Local(x[k - 1]), Domain(y[k - 1])), Address(Local(y[k]), Domain(x[k])));
    StillRising(Map(LocalOf(), x), k, Local(y[k]));
    RisesSorted(Moved(x, m));
  }

  lemma LocalsRise(x: seq<string>, y: seq<string>)
    requires AllAddresses(x) && AllAddresses(y) && Sorted(StrLe, x) && Sorted(StrLe, y)
    requires SameBetween(x, y) && StemsApart(x)
    ensures Rising(Map(LocalOf(), x)) && Rising(Map(LocalOf(), y))
  {
    forall k | 0 <= k && k + 1 < |x| ensures Local(x[k]) != Local(x[k + 1]) && Local(y[k]) != Local(y[k + 1]) {
      SameStem(x, y, k);
      SameStem(x, y, k + 1);
    }
    SortedRises(x);
    SortedRises(y);
  }

  lemma LocalsDiffer(x: seq<string>, y: seq<string>, k: nat)
    requires |x| == |y| && k + 1 < |x| && Between(x, k) == Between(y, k) && Domain(x[k]) != Domain(y[k])
    ensures Map(LocalOf(), x) != Map(LocalOf(), y)
  {
    if |Domain(x[k])| == |Domain(y[k])| {
      SameLengthCuts(Domain(x[k]), Local(x[k + 1]), Domain(y[k]), Local(y[k + 1]));
    }
    assert |Local(x[k + 1])| != |Local(y[k + 1])|;
    assert Map(LocalOf(), x)[k + 1] != Map(LocalOf(), y)[k + 1];
  }

  lemma DomainsDiffer(x: seq<string>, y: seq<string>, k: nat)
    requires |x| == |y| && k + 1 < |x| && Between(x, k) == Between(y, k) && Local(x[k + 1]) != Local(y[k + 1])
    ensures Domain(x[k]) != Domain(y[k])
  {
    if Domain(x[k]) == Domain(y[k]) {
      SameEnd(Domain(x[k]) + "|", Local(x[k + 1]), Local(y[k + 1]));
    }
  }

  lemma LocalsAfter(x: seq<string>, k: nat, p: string, q: string)
    requires k + 1 < |x| && Local(p) == Local(x[k])
    ensures Map(LocalOf(), x[k := p][k + 1 := q]) == Map(LocalOf(), x)[k + 1 := Local(q)]
  {
    SameSeq(Map(LocalOf(), x[k := p][k + 1 := q]), Map(LocalOf(), x)[k + 1 := Local(q)]);
  }

  lemma StillRising(l: seq<string>, k: nat, e: string)
    requires Rising(l) && 0 < k < |l| && LocalLess(l[k - 1], e) && (k + 1 < |l| ==> LocalLess(e, l[k + 1]))
    ensures Rising(l[k := e])
  {
    var n := l[k := e];
    forall i | 0 <= i && i + 1 < |n| ensures LocalLess(n[i], n[i + 1]) {
      assert LocalLess(l[i], l[i + 1]);
    }
  }

  lemma RisesNoDup(x: seq<string>)
    requires Rising(Map(LocalOf(), x)) && Sorted(StrLe, x)
    ensures NoDup(x)
  {
    forall i, j | 0 <= i < j < |x| ensures x[i] != x[j] {
      assert LocalLess(Map(LocalOf(), x)[i], Map(LocalOf(), x)[i + 1]);
      if x[i] == x[j] {
        assert StrLe(x[i], x[i + 1]) && (i + 1 == j || StrLe(x[i + 1], x[j]));
        StrLeAntisymmetric(x[i], x[i + 1]);
      }
    }
  }

  /** With the stems apart a sorted move repeats no address. */
  lemma MoveRepeatsNothing(x: seq<string>, m: Move)
    requires AllAddresses(x) && Sorted(StrLe, x) && StemsApart(x)
    requires Possible(x, m) && Sorted(StrLe, Moved(x, m))
    ensures NoDup(Moved(x, m))
  {
    MoveKeepsText(x, m);
    SameJoins(x, Moved(x, m));
    LocalsRise(x, Moved(x, m));
    RisesNoDup(Moved(x, m));
  }

  /** A parsed list whose neighbours' stems are apart shares its key with other addressees exactly
      when one of its loose pieces can move and leave the list sorted. */
  lemma SharedExactly(a: seq<string>)
    requires Parsed(a) && StemsApart(Pieces(a))
    ensures Shared(a) <==> exists m :: Possible(Pieces(a), m) && Sorted(StrLe, Moved(Pieces(a), m))
  {
    ParsedPieces(a);
    if m :| Possible(Pieces(a), m) && Sorted(StrLe, Moved(Pieces(a), m)) {
      MoveRepeatsNothing(Pieces(a), m);
      MoveCollides(a, m);
      assert Parsed(Moved(Pieces(a), m));
    }
    if Shared(a) {
      var b := OtherPiecesOf(a);
      var m := OneMoveSorts(Pieces(a), Pieces(b));
    }
  }
}
