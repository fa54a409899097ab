/** Recipient lists that share a canonical key, and lists that show where a condition for it ends. */
module KeyCollisions {
  import opened Sequences
  import opened Recipients
  import opened RecipientsProofs
  import opened CanonicalKey

  /** Text a parsed list may hold, in lower case. */
  ghost predicate Word(e: string) {
    e != "" && IsLower(e) && SepFree(e)
  }

  lemma PairParsed(x: string, y: string)
    requires IsAddress(x) && IsAddress(y) && Word(x) && Word(y) && x[0] < y[0]
    ensures Parsed([x, y]) && Sorted(StrLe, [x, y]) && Pieces([x, y]) == [x, y]
  {
    SortedIsPieces([x, y]);
  }

  /** Lists that parsing can give, with one key: the piece between the two addresses can belong to
      either. */
  lemma PipesCollide(x: string, r: string, y: string)
    requires IsAddress(x) && Plain(r) && IsAddress(y) && Word(x) && Word(r) && Word(y)
    requires x[0] < r[0] && x[0] < y[0]
    ensures Parsed([x + "|" + r, y]) && Parsed([x, r + "|" + y])
    ensures Canonical([x + "|" + r, y]) == Canonical([x, r + "|" + y])
    ensures !SameAddresses([x + "|" + r, y], [x, r + "|" + y])
  {
    AddressExtends(x, r);
    AddressExtends(y, r);
    WordPiped(x, r);
    WordPiped(r, y);
    PairParsed(x + "|" + r, y);
    PairParsed(x, r + "|" + y);
    PairCollides(x, r, y);
  }

  lemma WordPiped(p: string, q: string)
    requires Word(p) && Word(q)
    ensures Word(p + "|" + q) && (p + "|" + q)[0] == p[0]
  {
    LowerPiped(p, q);
  }

  lemma PairCollides(x: string, r: string, y: string)
    requires IsAddress(x) && AllAddresses([x + "|" + r, y])
    requires Pieces([x + "|" + r, y]) == [x + "|" + r, y] && Sorted(StrLe, [x, r + "|" + y])
    ensures Canonical([x + "|" + r, y]) == Canonical([x, r + "|" + y])
    ensures !SameAddresses([x + "|" + r, y], [x, r + "|" + y])
  {
    var a, m := [x + "|" + r, y], Onward(0, x, r);
    assert Possible(a, m) && Moved(a, m) == [x, r + "|" + y];
    MoveCollides(a, m);
  }

  lemma PipesCollideExample() returns (a: seq<string>, b: seq<string>)
    ensures Parsed(a) && Parsed(b)
    ensures |a| == |b| == 2 && Canonical(a) == Canonical(b) && !SameAddresses(a, b)
  {
    var x, r, y := "a@b.c", "d", "e@f.g";
    ShortAddress(x);
    ShortAddress(y);
    assert IsLower(r);
    PipesCollide(x, r, y);
    a, b := [x + "|" + r, y], [x, r + "|" + y];
  }

  lemma ShortAddress(e: string)
    requires |e| == 5 && e[1] == '@' && e[3] == '.'
    requires 'a' <= e[0] <= 'z' && 'a' <= e[2] <= 'z' && 'a' <= e[4] <= 'z'
    ensures IsAddress(e) && Word(e)
  {
    assert AddressParts(e, 1, 3);
  }

  lemma HasPipe(a: string, b: string)
    ensures '|' in a + "|" + b
  {
    assert (a + "|" + b)[|a|] == '|';
  }

  lemma OnlyCut(u: string, v: string, left: string, right: string)
    requires u + "|" + v == left + "|" + right && '|' !in u && '|' !in v
    ensures left == u && right == v
  {
    if |u| < |left| {
      var m := TwoCuts(u, v, left, right);
      HasPipe(m, right);
    } else if |left| < |u| {
      var m := TwoCuts(left, right, u, v);
      HasPipe(left, m);
    } else {
      SameLengthCuts(u, v, left, right);
      SameEnd(u + "|", v, right);
    }
  }

  /** Why the stems matter: two neighbours with one local part. Moving either loose piece alone
      breaks the order, moving both gives another sorted list with the same key. */
  lemma TiesMoveTogether(u: string, p: string, s: string, w: string)
    requires IsAddress(u) && IsAddress(w) && Plain(p) && Plain(s)
    requires Word(u) && Word(p) && Word(s) && Word(w) && PipeFree([u, p, s, w])
    requires u[0] < w[0] < p[0] < s[0]
    ensures var a, b := [u, p + "|" + u, s + "|" + w], [u + "|" + p, u + "|" + s, w];
      && Parsed(a) && Parsed(b) && Canonical(a) == Canonical(b) && !SameAddresses(a, b)
      && forall m: Move :: Possible(Pieces(a), m) ==> !Sorted(StrLe, Moved(Pieces(a), m))
  {
    var a, b := [u, p + "|" + u, s + "|" + w], [u + "|" + p, u + "|" + s, w];
    TiedLists(u, p, s, w);
    TiedText(u, p, s, w);
    TiedDiffer(u, p, s, w);
    forall m: Move | Possible(a, m) ensures !Sorted(StrLe, Moved(a, m)) {
      TiedMoves(u, p, s, w, m);
    }
  }

  /** Why nothing may repeat: the one move that keeps this list sorted gives an address twice, which
      parsing never does, and the list shares its key with no other list that parsing gives. */
  lemma RepeatIsNoCollision(r: string, x: string, c: seq<string>)
    requires IsAddress(x) && Plain(r) && Word(r) && Word(x) && '|' !in r && '|' !in x && r[0] < x[0]
    ensures var a, m := [r + "|" + x + "|" + r, x], Onward(0, r + "|" + x, r);
      && Parsed(a) && Pieces(a) == a
      && Possible(a, m) && Sorted(StrLe, Moved(a, m)) && !NoDup(Moved(a, m))
      && (Parsed(c) && Canonical(c) == Canonical(a) ==> SameAddresses(a, c))
  {
    var a := [r + "|" + x + "|" + r, x];
    RepeatParsed(r, x);
    AddressExtends(x, r);
    RepeatMoved(r, x);
    if Parsed(c) && Canonical(c) == Canonical(a) && Pieces(c) != a {
      ParsedPieces(c);
      RepeatOnly(r, x, Pieces(c));
      assert false;
    }
    if Pieces(c) == a {
      PiecesSorted(a);
      PiecesSorted(c);
    }
  }

  lemma RepeatParsed(r: string, x: string)
    requires IsAddress(x) && Plain(r) && Word(r) && Word(x) && r[0] < x[0]
    ensures Parsed([r + "|" + x + "|" + r, x]) && Pieces([r + "|" + x + "|" + r, x]) == [r + "|" + x + "|" + r, x]
  {
    AddressExtends(x, r);
    AddressExtends(r + "|" + x, r);
    WordPiped(r, x);
    WordPiped(r + "|" + x, r);
    PairParsed(r + "|" + x + "|" + r, x);
  }

  lemma RepeatMoved(r: string, x: string)
    requires IsAddress(r + "|" + x)
    ensures var a, m := [r + "|" + x + "|" + r, x], Onward(0, r + "|" + x, r);
      Possible(a, m) && Sorted(StrLe, Moved(a, m)) && !NoDup(Moved(a, m))
  {
    var e := r + "|" + x;
    var y := Moved([e + "|" + r, x], Onward(0, e, r));
    StrLeTotal(e, e);
    assert y[0] == e && y[1] == e;
  }

  /** Whatever else reads as that list repeats an address. */
  lemma RepeatOnly(r: string, x: string, y: seq<string>)
    requires IsAddress(x) && Plain(r) && '|' !in r && '|' !in x && AllAddresses(y)
    requires var a := [r + "|" + x + "|" + r, x]; y != a && Join("|", y) == Join("|", a)
    ensures !NoDup(y)
  {
    AddressExtends(x, r);
    AddressExtends(r + "|" + x, r);
    var a := [r + "|" + x + "|" + r, x];
    assert a[0] == r + "|" + x + "|" + r && a[1] == x;
    OtherPair(a, y);
    RepeatParts(r, x);
    RepeatTwice(r, x, y[0], y[1]);
  }

  lemma OtherPair(a: seq<string>, y: seq<string>)
    requires |a| == 2 && AllAddresses(a) && AllAddresses(y) && y != a && Join("|", y) == Join("|", a)
    ensures |y| == 2 && Local(y[0]) == Local(a[0]) && Domain(y[1]) == Domain(a[1]) && Domain(y[0]) != Domain(a[0])
    ensures Domain(y[0]) + "|" + Local(y[1]) == Domain(a[0]) + "|" + Local(a[1])
  {
    var k := OtherReading(a, y);
    SameJoins(a, y);
    assert Between(a, 0) == Between(y, 0);
  }

  lemma RepeatParts(r: string, x: string)
    requires IsAddress(x) && Plain(r)
    ensures var e := r + "|" + x + "|" + r; Local(e) == r + "|" + Local(x) && Domain(e) == Domain(x) + "|" + r
  {
    var l, d := Local(x), Domain(x);
    AddressSplits(x);
    AddressExtends(x, r);
    AddressSplits(r + "|" + x);
    PieceBack(r, l, d);
    PieceOnward(r + "|" + l, d, r);
    PlainDomain(x, r);
    AddressMade(r + "|" + l, d + "|" + r);
  }

  lemma PlainDomain(x: string, r: string)
    requires IsAddress(x) && Plain(r)
    ensures IsLocal(r + "|" + Local(x)) && IsDomain(Domain(x) + "|" + r)
  {
    AddressSplits(x);
    var d := Domain(x);
    var j :| 1 <= j && j + 1 < |d| && d[j] == '.';
    assert (d + "|" + r)[j] == '.';
  }

  lemma RepeatTwice(r: string, x: string, p: string, q: string)
    requires IsAddress(x) && IsAddress(p) && IsAddress(q) && '|' !in r && '|' !in x
    requires Local(p) == r + "|" + Local(x) && Domain(q) == Domain(x)
    requires Domain(x) + "|" + r + "|" + Local(x) == Domain(p) + "|" + Local(q) && Domain(p) != Domain(x) + "|" + r
    ensures p == q
  {
    AddressSplits(x);
    AddressSplits(p);
    AddressSplits(q);
    OtherCutOf(Domain(x), r, Local(x), Domain(p), Local(q));
  }

  lemma OtherCutOf(d: string, r: string, l: string, d': string, l': string)
    requires d + "|" + r + "|" + l == d' + "|" + l' && d' != d + "|" + r
    requires '|' !in d && '|' !in r && '|' !in l
    ensures d' == d && l' == r + "|" + l
  {
    var both := d + "|" + r;
    if |d'| < |both| {
      var m := TwoCuts(d', l', both, l);
      OnlyCut(d, r, d', m);
    } else if |both| < |d'| {
      var m := TwoCuts(both, l, d', l');
      HasPipe(m, l');
    } else {
      SameLengthCuts(both, l, d', l');
    }
  }

  lemma TiedLists(u: string, p: string, s: string, w: string)
    requires IsAddress(u) && IsAddress(w) && Plain(p) && Plain(s)
    requires Word(u) && Word(p) && Word(s) && Word(w)
    requires u[0] < w[0] < p[0] < s[0]
    ensures var a, b := [u, p + "|" + u, s + "|" + w], [u + "|" + p, u + "|" + s, w];
      Parsed(a) && Parsed(b) && Lowers(a) == a && Lowers(b) == b && Pieces(a) == a && Pieces(b) == b
  {
    AddressExtends(u, p);
    AddressExtends(u, s);
    AddressExtends(w, s);
    WordPiped(p, u);
    WordPiped(s, w);
    WordPiped(u, p);
    WordPiped(u, s);
    SameStart(u + "|", p, s);
    SameStart(u + "|", s, p);
    ThreeParsed(u, p + "|" + u, s + "|" + w);
    ThreeParsed(u + "|" + p, u + "|" + s, w);
  }

  lemma ThreeParsed(a: string, b: string, c: string)
    requires IsAddress(a) && IsAddress(b) && IsAddress(c) && Word(a) && Word(b) && Word(c)
    requires StrLe(a, b) && StrLe(b, c) && !StrLe(b, a) && !StrLe(c, b)
    ensures Parsed([a, b, c]) && Lowers([a, b, c]) == [a, b, c] && Pieces([a, b, c]) == [a, b, c]
  {
    StrLeTotal(a, a);
    StrLeTotal(b, b);
    if a == c {
      assert false;
    }
    SortedThree(a, b, c);
    SortedIsPieces([a, b, c]);
    SortedIsParsed([a, b, c]);
  }

  lemma SortedThree(a: string, b: string, c: string)
    requires StrLe(a, b) && StrLe(b, c)
    ensures Sorted(StrLe, [a, b, c])
  {
    StrLeTransitive(a, b, c);
  }

  lemma {:induction false} SameStart(u: string, a: string, b: string)
    ensures StrLe(u + a, u + b) <==> StrLe(a, b)
  {
    if u == "" {
      assert u + a == a && u + b == b;
    } else {
      assert (u + a)[1..] == u[1..] + a && (u + b)[1..] == u[1..] + b;
      SameStart(u[1..], a, b);
    }
  }

  lemma TiedText(u: string, p: string, s: string, w: string)
    ensures Join("|", [u, p + "|" + u, s + "|" + w]) == Join("|", [u + "|" + p, u + "|" + s, w])
  {
    JoinThree(u, p + "|" + u, s + "|" + w);
    JoinThree(u + "|" + p, u + "|" + s, w);
    assert u + "|" + (p + "|" + u) + "|" + (s + "|" + w) == (u + "|" + p) + "|" + (u + "|" + s) + "|" + w;
  }

  lemma TiedDiffer(u: string, p: string, s: string, w: string)
    requires u != "" && w != "" && u[0] != w[0]
    ensures multiset([u, p + "|" + u, s + "|" + w]) != multiset([u + "|" + p, u + "|" + s, w])
  {
    var a, b := [u, p + "|" + u, s + "|" + w], [u + "|" + p, u + "|" + s, w];
    assert u in multiset(a) && u !in b;
  }

  lemma JoinThree(a: string, b: string, c: string)
    ensures Join("|", [a, b, c]) == a + "|" + b + "|" + c
  {
    assert [a, b, c][..2] == [a, b] && [a, b][..1] == [a];
    assert Join("|", [a, b]) == a + "|" + b;
  }

  lemma TiedMoves(u: string, p: string, s: string, w: string, m: Move)
    requires u != "" && p != "" && w != "" && w[0] < p[0] && PipeFree([u, p, s, w]) && Plain(p)
    requires Possible([u, p + "|" + u, s + "|" + w], m)
    ensures !Sorted(StrLe, Moved([u, p + "|" + u, s + "|" + w], m))
  {
    assert u in [u, p, s, w] && p in [u, p, s, w] && s in [u, p, s, w] && w in [u, p, s, w];
    if m.at == 0 {
      FirstTied(u, p, s + "|" + w, m);
    } else {
      SecondTied(u, p, s, w, m);
    }
  }

  lemma FirstTied(u: string, p: string, b: string, m: Move)
    requires '|' !in u && '|' !in p && m.at == 0 && Possible([u, p + "|" + u, b], m)
    ensures !Sorted(StrLe, Moved([u, p + "|" + u, b], m))
  {
    if m.Onward? {
      HasPipe(m.left, m.right);
      assert false;
    } else {
      OnlyCut(p, u, m.left, m.right);
      LongerIsLater(u, "|" + p);
      var y := Moved([u, p + "|" + u, b], m);
      assert y[0] == u + ("|" + p) && y[1] == u;
    }
  }

  lemma SecondTied(u: string, p: string, s: string, w: string, m: Move)
    requires p != "" && w != "" && w[0] < p[0] && Plain(p)
    requires '|' !in u && '|' !in p && '|' !in s && '|' !in w
    requires m.at == 1 && Possible([u, p + "|" + u, s + "|" + w], m)
    ensures !Sorted(StrLe, Moved([u, p + "|" + u, s + "|" + w], m))
  {
    if m.Onward? {
      OnlyCut(p, u, m.left, m.right);
      assert false;
    } else {
      OnlyCut(s, w, m.left, m.right);
      var y := Moved([u, p + "|" + u, s + "|" + w], m);
      assert y[1][0] == p[0] && y[2] == w;
    }
  }

  lemma LongerIsLater(u: string, v: string)
    requires v != ""
    ensures !StrLe(u + v, u)
  {
    SameStart(u, v, "");
    assert u + "" == u;
  }
}
