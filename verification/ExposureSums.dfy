/** What the sums of a report obey: nothing is lost between the grains, the totals' index is a
    mean of the units' indices even after rounding, and rounding errors stay bounded. */
module ExposureSums {
  import opened Options
  import opened Sequences
  import opened Rounding
  import opened Exposure
  import opened ExposureOrder

  // ----- Sums over disjoint classes -----

  function ClassSum<K, T>(f: T -> real, p: K -> (T -> bool), xs: seq<T>): K -> real {
    (k: K) => SumOf(f, Filter(p(k), xs))
  }

  function InSome<K(==), T>(p: K -> (T -> bool), ks: seq<K>): T -> bool {
    (x: T) => exists k :: k in ks && p(k)(x)
  }

  ghost predicate Disjoint<K(!new), T(!new)>(p: K -> (T -> bool)) {
    forall k, l, x :: p(k)(x) && p(l)(x) ==> k == l
  }

  /** Summing class by class is summing once over whatever lies in some class. */
  lemma {:induction false} SumByClass<K(!new), T(!new)>(f: T -> real, p: K -> (T -> bool), ks: seq<K>, xs: seq<T>)
    requires NoDup(ks) && Disjoint(p)
    ensures SumOf(ClassSum(f, p, xs), ks) == SumOf(f, Filter(InSome(p, ks), xs))
  {
    if |xs| == 0 {
      SumZero(ClassSum(f, p, xs), ks);
    } else {
      var n := |xs| - 1;
      SumByClass(f, p, ks, xs[..n]);
      var before, after := ClassSum(f, p, xs[..n]), ClassSum(f, p, xs);
      forall k ensures after(k) == before(k) + if p(k)(xs[n]) then f(xs[n]) else 0.0 {
        SumFilterStep(f, p(k), xs);
      }
      SumFilterStep(f, InSome(p, ks), xs);
      if k :| k in ks && p(k)(xs[n]) {
        SumChangeOne(before, after, ks, k, f(xs[n]));
      } else {
        SumCongruent(before, after, ks);
      }
    }
  }

  lemma SumFilterStep<T>(f: T -> real, p: T -> bool, xs: seq<T>)
    requires |xs| > 0
    ensures var n := |xs| - 1;
      SumOf(f, Filter(p, xs)) == SumOf(f, Filter(p, xs[..n])) + if p(xs[n]) then f(xs[n]) else 0.0
  {
    var r := Filter(p, xs[..|xs| - 1]);
    assert (r + [xs[|xs| - 1]])[..|r|] == r;
  }

  lemma {:induction false} SumZero<T>(f: T -> real, xs: seq<T>)
    requires forall x :: x in xs ==> f(x) == 0.0
    ensures SumOf(f, xs) == 0.0
  {
    if |xs| == 0 {
    } else {
      assert xs == xs[..|xs| - 1] + [xs[|xs| - 1]];
      SumZero(f, xs[..|xs| - 1]);
    }
  }

  function Compose<A, B>(h: B -> real, f: A -> B): A -> real {
    (a: A) => h(f(a))
  }

  lemma {:induction false} SumMap<A, B>(h: B -> real, f: A -> B, xs: seq<A>)
    ensures SumOf(h, Map(f, xs)) == SumOf(Compose(h, f), xs)
  {
    if |xs| == 0 {
    } else {
      var m := Map(f, xs);
      assert m[..|m| - 1] == Map(f, xs[..|xs| - 1]);
      SumMap(h, f, xs[..|xs| - 1]);
    }
  }

  // ----- Conservation -----

  function GroupTest(g: Grain): string -> (Row -> bool) { (k: string) => InGroup(g, k) }

  function GroupSum(f: Row -> real, rows: seq<Row>, g: Grain): string -> real {
    (k: string) => SumOf(f, GroupRows(rows, g, k))
  }

  /** Whatever is measured of the rows, the groups of a grain add up to all of it: no row is in
      two groups and none is in no group. */
  lemma GroupsPartition(f: Row -> real, rows: seq<Row>, g: Grain)
    ensures SumOf(GroupSum(f, rows, g), Keys(rows, g)) == SumOf(f, rows)
  {
    var ks := Keys(rows, g);
    SumByClass(f, GroupTest(g), ks, rows);
    KeysMembers(rows, g);
    forall i | 0 <= i < |rows| ensures InSome(GroupTest(g), ks)(rows[i]) {
      var k := Key(g, rows[i]);
      assert rows[i] in rows && k in ks && GroupTest(g)(k)(rows[i]);
    }
    FilterAll(InSome(GroupTest(g), ks), rows);
    SumCongruent(ClassSum(f, GroupTest(g), rows), GroupSum(f, rows, g), ks);
  }

  /** A figure of each entry that is a sum over its group adds up to the sum over all the rows. */
  lemma EntriesAddUp(h: Entry -> real, f: Row -> real, rows: seq<Row>, g: Grain)
    requires forall k :: h(EntryIn(rows, g)(k)) == SumOf(f, GroupRows(rows, g, k))
    ensures SumOf(h, Summary(rows, g)) == SumOf(f, rows)
  {
    SortByPermutes(EntryLe, Unsorted(rows, g));
    SumPermutation(h, Summary(rows, g), Unsorted(rows, g));
    SumMap(h, EntryIn(rows, g), Keys(rows, g));
    SumCongruent(Compose(h, EntryIn(rows, g)), GroupSum(f, rows, g), Keys(rows, g));
    GroupsPartition(f, rows, g);
  }

  function One(): Row -> real { (r: Row) => 1.0 }
  function EntryCount(): Entry -> real { (e: Entry) => e.nTratte as real }
  function UnitCount(): UnitRow -> real { (u: UnitRow) => u.nTratte as real }

  lemma {:induction false} CountOnes(rows: seq<Row>)
    ensures SumOf(One(), rows) == |rows| as real
  {
    if |rows| == 0 {
    } else {
      CountOnes(rows[..|rows| - 1]);
    }
  }

  /** Every row is counted in exactly one unit and in exactly one line (before any filter). */
  lemma EntriesCountRows(rows: seq<Row>, g: Grain)
    ensures SumOf(EntryCount(), Summary(rows, g)) == |rows| as real
  {
    forall k ensures EntryCount()(EntryIn(rows, g)(k)) == SumOf(One(), GroupRows(rows, g, k)) {
      CountOnes(GroupRows(rows, g, k));
    }
    EntriesAddUp(EntryCount(), One(), rows, g);
    CountOnes(rows);
  }

  lemma TotalsEntry(rows: seq<Row>)
    ensures TotalsOf(rows) == if |rows| > 0 then ToTotals(EntryOfGroup("*", rows, Whole))
                              else Totals(0, 0.0, 0.0, 0.0, None, None, None, "NORMAL")
  {
    WholeGroup(rows);
    SummaryShape(rows, Whole);
    var s := Summary(rows, Whole);
    if |s| > 0 {
      EntryAt(rows, Whole, s[0]);
      assert s[0].key == "*";
    }
  }

  /** The totals are the figures of the whole subset. */
  lemma TotalsFigures(rows: seq<Row>)
    ensures var t := TotalsOf(rows);
      && t.nTratte == |rows|
      && t.kmTotal == Round2(SumOf(Total, rows))
      && t.kmAlert == Round2(SumOf(Alert, rows))
      && t.kmWarning == Round2(SumOf(Warning, rows))
      && t.riskIndex == Index(SumOf(Total, rows), SumOf(Alert, rows), SumOf(Warning, rows))
  {
    TotalsEntry(rows);
    RoundZero();
  }

  lemma RoundZero()
    ensures Round2(0.0) == 0.0 && Round1(0.0) == 0.0 && Round1(100.0) == 100.0
  {
    assert (0.0 as real).Floor == 0;
    assert (1000.0 as real).Floor == 1000;
  }

  /** In every block the units count the same rows as the totals. */
  lemma BlockCounts(subset: seq<Row>, vector: string, threshold: Option<string>, topN: nat)
    ensures var b := BlockFor(subset, vector, threshold, topN);
      SumOf(UnitCount(), b.units) == b.totals.nTratte as real && b.totals.nTratte == |subset|
  {
    TotalsFigures(subset);
    EntriesCountRows(subset, ByUnit);
    SumMap(UnitCount(), ToUnit(), Summary(subset, ByUnit));
    SumCongruent(Compose(UnitCount(), ToUnit()), EntryCount(), Summary(subset, ByUnit));
  }

  function LineTotal(): LineIn -> real { (l: LineIn) => l.kmTotal }
  function LineAlert(): LineIn -> real { (l: LineIn) => l.kmAlert }
  function LineWarning(): LineIn -> real { (l: LineIn) => l.kmWarning }

  lemma LinesAddUp(h: LineIn -> real, f: Row -> real, rows: seq<Row>)
    requires forall k :: h(LineFrom(rows)(k)) == SumOf(f, GroupRows(rows, ByLine, k))
    ensures SumOf(h, LinesWithin(rows)) == SumOf(f, rows)
  {
    var u := Map(LineFrom(rows), Keys(rows, ByLine));
    SortByPermutes(LineLe, u);
    SumPermutation(h, LinesWithin(rows), u);
    SumMap(h, LineFrom(rows), Keys(rows, ByLine));
    SumCongruent(Compose(h, LineFrom(rows)), GroupSum(f, rows, ByLine), Keys(rows, ByLine));
    GroupsPartition(f, rows, ByLine);
  }

  /** The lines inside a unit add up to the unit exactly; only the unit's own figures are rounded. */
  lemma UnitIsItsLines(subset: seq<Row>, e: Entry)
    requires e in Summary(subset, ByUnit)
    ensures var lines := LinesWithin(GroupRows(subset, ByUnit, e.key));
      && e.kmTotal == Round2(SumOf(LineTotal(), lines))
      && e.kmAlert == Round2(SumOf(LineAlert(), lines))
      && e.kmWarning == Round2(SumOf(LineWarning(), lines))
  {
    var group := GroupRows(subset, ByUnit, e.key);
    EntryAt(subset, ByUnit, e);
    LinesAddUp(LineTotal(), Total, group);
    LinesAddUp(LineAlert(), Alert, group);
    LinesAddUp(LineWarning(), Warning, group);
  }

  // ----- Conservation over the whole report -----

  function BlockCount(): Block -> real { (b: Block) => b.totals.nTratte as real }
  function DayCount(): Day -> real { (d: Day) => SumOf(BlockCount(), d.vectors) }

  predicate IsNamed(dates: seq<string>, vectors: seq<string>, r: Row) {
    r.date.Some? && r.date.value in dates && r.riskVector.Some? && r.riskVector.value in vectors
  }

  function Named(dates: seq<string>, vectors: seq<string>): Row -> bool {
    (r: Row) => IsNamed(dates, vectors, r)
  }

  predicate IsOn(date: string, vectors: seq<string>, r: Row) {
    r.date == Some(date) && r.riskVector.Some? && r.riskVector.value in vectors
  }

  function OnDate(vectors: seq<string>): string -> (Row -> bool) {
    (d: string) => (r: Row) => IsOn(d, vectors, r)
  }

  function BlockTest(date: string): string -> (Row -> bool) {
    (v: string) => InBlock(date, v)
  }

  /** Counting class by class counts whatever lies in some class. */
  lemma CountByClass(p: string -> (Row -> bool), ks: seq<string>, rows: seq<Row>, h: string -> real, q: Row -> bool)
    requires NoDup(ks) && Disjoint(p)
    requires forall k :: h(k) == |Filter(p(k), rows)| as real
    requires forall r :: q(r) <==> InSome(p, ks)(r)
    ensures SumOf(h, ks) == |Filter(q, rows)| as real
  {
    forall k ensures h(k) == ClassSum(One(), p, rows)(k) {
      CountOnes(Filter(p(k), rows));
    }
    SumCongruent(h, ClassSum(One(), p, rows), ks);
    SumByClass(One(), p, ks, rows);
    FilterCongruent(q, InSome(p, ks), rows);
    CountOnes(Filter(q, rows));
  }

  lemma BlockCounted(rows: seq<Row>, date: string, threshold: Option<string>, topN: nat, v: string)
    ensures Compose(BlockCount(), BlockIn(rows, date, threshold, topN))(v)
         == |Filter(BlockTest(date)(v), rows)| as real
  {
    TotalsFigures(Subset(rows, date, v));
  }

  lemma BlockTests(date: string, vectors: seq<string>)
    ensures Disjoint(BlockTest(date))
    ensures forall r :: OnDate(vectors)(date)(r) <==> InSome(BlockTest(date), vectors)(r)
  {
    forall r ensures OnDate(vectors)(date)(r) <==> InSome(BlockTest(date), vectors)(r) {
      if OnDate(vectors)(date)(r) {
        assert BlockTest(date)(r.riskVector.value)(r);
      }
    }
  }

  lemma DateTests(dates: seq<string>, vectors: seq<string>)
    ensures Disjoint(OnDate(vectors))
    ensures forall r :: Named(dates, vectors)(r) <==> InSome(OnDate(vectors), dates)(r)
  {
    forall r ensures Named(dates, vectors)(r) <==> InSome(OnDate(vectors), dates)(r) {
      if Named(dates, vectors)(r) {
        assert OnDate(vectors)(r.date.value)(r);
      }
    }
  }

  lemma DayCounts(rows: seq<Row>, date: string, vectors: seq<string>, threshold: Option<string>, topN: nat)
    requires NoDup(vectors)
    ensures Compose(DayCount(), DayIn(rows, vectors, threshold, topN))(date)
         == |Filter(OnDate(vectors)(date), rows)| as real
  {
    var block := BlockIn(rows, date, threshold, topN);
    SumMap(BlockCount(), block, vectors);
    forall v ensures Compose(BlockCount(), block)(v) == |Filter(BlockTest(date)(v), rows)| as real {
      BlockCounted(rows, date, threshold, topN, v);
    }
    BlockTests(date, vectors);
    CountByClass(BlockTest(date), vectors, rows, Compose(BlockCount(), block), OnDate(vectors)(date));
  }

  /** Over a whole report with distinct dates and hazards, the totals count each row whose date
      and hazard are named exactly once, and no other row. */
  lemma ReportCounts(rows: seq<Row>, dates: seq<string>, vectors: seq<string>, threshold: Option<string>, topN: nat)
    requires NoDup(dates) && NoDup(vectors)
    ensures SumOf(DayCount(), Days(rows, dates, vectors, threshold, topN))
         == |Filter(Named(dates, vectors), rows)| as real
  {
    var day := DayIn(rows, vectors, threshold, topN);
    SumMap(DayCount(), day, dates);
    forall d ensures Compose(DayCount(), day)(d) == |Filter(OnDate(vectors)(d), rows)| as real {
      DayCounts(rows, d, vectors, threshold, topN);
    }
    DateTests(dates, vectors);
    CountByClass(OnDate(vectors), dates, rows, Compose(DayCount(), day), Named(dates, vectors));
  }

  // ----- Rounding -----

  lemma {:induction false} SumWithin<T>(f: T -> real, g: T -> real, xs: seq<T>)
    requires forall x :: x in xs ==> -0.005 <= f(x) - g(x) <= 0.005
    ensures -0.005 * |xs| as real <= SumOf(f, xs) - SumOf(g, xs) <= 0.005 * |xs| as real
  {
    if |xs| == 0 {
    } else {
      assert xs == xs[..|xs| - 1] + [xs[|xs| - 1]];
      SumWithin(f, g, xs[..|xs| - 1]);
    }
  }

  function UnitTotalKm(): UnitRow -> real { (u: UnitRow) => u.kmTotal }
  function UnitAlertKm(): UnitRow -> real { (u: UnitRow) => u.kmAlert }
  function UnitWarningKm(): UnitRow -> real { (u: UnitRow) => u.kmWarning }

  function Rounded(f: Row -> real, rows: seq<Row>): string -> real {
    (k: string) => Round2(SumOf(f, GroupRows(rows, ByUnit, k)))
  }

  function Published(h: UnitRow -> real, rows: seq<Row>): string -> real {
    Compose(Compose(h, ToUnit()), EntryIn(rows, ByUnit))
  }

  lemma RoundedGroups(f: Row -> real, rows: seq<Row>)
    ensures var n := |Keys(rows, ByUnit)| as real;
      -0.005 * n <= SumOf(Rounded(f, rows), Keys(rows, ByUnit)) - SumOf(f, rows) <= 0.005 * n
  {
    forall k ensures -0.005 <= Rounded(f, rows)(k) - GroupSum(f, rows, ByUnit)(k) <= 0.005 {
      Round2Error(SumOf(f, GroupRows(rows, ByUnit, k)));
    }
    SumWithin(Rounded(f, rows), GroupSum(f, rows, ByUnit), Keys(rows, ByUnit));
    GroupsPartition(f, rows, ByUnit);
  }

  /** A published figure that rounds a sum over the group: n of them stay within n half-hundredths
      of the sum over all the rows. */
  lemma RoundedEntries(h: UnitRow -> real, f: Row -> real, rows: seq<Row>)
    requires forall k :: Published(h, rows)(k) == Rounded(f, rows)(k)
    ensures var units := Map(ToUnit(), Summary(rows, ByUnit));
      -0.005 * |units| as real <= SumOf(h, units) - SumOf(f, rows) <= 0.005 * |units| as real
  {
    UnitsSum(h, rows);
    SumCongruent(Published(h, rows), Rounded(f, rows), Keys(rows, ByUnit));
    RoundedGroups(f, rows);
  }

  lemma UnitFiguresRounded(rows: seq<Row>, k: string)
    ensures Published(UnitTotalKm(), rows)(k) == Rounded(Total, rows)(k)
    ensures Published(UnitAlertKm(), rows)(k) == Rounded(Alert, rows)(k)
    ensures Published(UnitWarningKm(), rows)(k) == Rounded(Warning, rows)(k)
  {
  }

  lemma UnitsSum(h: UnitRow -> real, subset: seq<Row>)
    ensures var units := Map(ToUnit(), Summary(subset, ByUnit));
      && |units| == |Keys(subset, ByUnit)|
      && SumOf(h, units) == SumOf(Published(h, subset), Keys(subset, ByUnit))
  {
    var u := Unsorted(subset, ByUnit);
    SumMap(h, ToUnit(), SortBy(EntryLe, u));
    SortByPermutes(EntryLe, u);
    SumPermutation(Compose(h, ToUnit()), SortBy(EntryLe, u), u);
    SumMap(Compose(h, ToUnit()), EntryIn(subset, ByUnit), Keys(subset, ByUnit));
  }

  /** What a reader gets by adding up the published unit kilometres is within half a hundredth
      per figure added, plus one, of the published block total. */
  lemma PublishedSumsClose(subset: seq<Row>, vector: string, threshold: Option<string>, topN: nat)
    ensures var b := BlockFor(subset, vector, threshold, topN);
      var bound := 0.005 * (|b.units| + 1) as real;
      && -bound <= SumOf(UnitTotalKm(), b.units) - b.totals.kmTotal <= bound
      && -bound <= SumOf(UnitAlertKm(), b.units) - b.totals.kmAlert <= bound
      && -bound <= SumOf(UnitWarningKm(), b.units) - b.totals.kmWarning <= bound
  {
    TotalsFigures(subset);
    forall k {
      UnitFiguresRounded(subset, k);
    }
    RoundedEntries(UnitTotalKm(), Total, subset);
    RoundedEntries(UnitAlertKm(), Alert, subset);
    RoundedEntries(UnitWarningKm(), Warning, subset);
    Round2Error(SumOf(Total, subset));
    Round2Error(SumOf(Alert, subset));
    Round2Error(SumOf(Warning, subset));
  }

  lemma RatioSplits(t: real, a: real, w: real)
    requires t != 0.0
    ensures Ratio(t, a, w) == 100.0 * a / t + 0.5 * (100.0 * w / t)
  {
    assert 100.0 * (a + 0.5 * w) == 100.0 * a + 0.5 * (100.0 * w);
    var x, y := 100.0 * a, 100.0 * w;
    assert (x + 0.5 * y) / t == x / t + 0.5 * (y / t);
  }

  /** The published index, recomputed from the sums, and the published shares agree up to what
      three roundings to one decimal can do. */
  lemma IndexNearShares(rows: seq<Row>, g: Grain, e: Entry)
    requires e in Summary(rows, g)
    ensures e.riskIndex.Some? == e.pctAlert.Some? == e.pctWarning.Some?
    ensures e.riskIndex.Some? ==> -0.125 <= e.riskIndex.value - (e.pctAlert.value + 0.5 * e.pctWarning.value) <= 0.125
  {
    EntryAt(rows, g, e);
    var group := GroupRows(rows, g, e.key);
    SharesClose(SumOf(Total, group), SumOf(Alert, group), SumOf(Warning, group));
  }

  lemma SharesClose(t: real, a: real, w: real)
    ensures Index(t, a, w).Some? == Pct(a, t).Some? == Pct(w, t).Some? == (t != 0.0)
    ensures t != 0.0 ==> -0.125 <= Index(t, a, w).value - (Pct(a, t).value + 0.5 * Pct(w, t).value) <= 0.125
  {
    if t != 0.0 {
      RatioSplits(t, a, w);
      Round1Error(Ratio(t, a, w));
      Round1Error(100.0 * a / t);
      Round1Error(100.0 * w / t);
    }
  }

  // ----- The totals' index is a mean of the units' -----

  predicate ValidRow(r: Row) {
    Alert(r) >= 0.0 && Warning(r) >= 0.0 && Alert(r) + Warning(r) <= Total(r)
  }

  /** Kilometres are not negative, and no row has more at risk than it has. */
  predicate ValidRows(rows: seq<Row>) {
    forall r :: r in rows ==> ValidRow(r)
  }

  lemma {:induction false} ValidSums(rows: seq<Row>)
    requires ValidRows(rows)
    ensures SumOf(Alert, rows) >= 0.0 && SumOf(Warning, rows) >= 0.0
    ensures SumOf(Alert, rows) + SumOf(Warning, rows) <= SumOf(Total, rows)
  {
    if |rows| == 0 {
    } else {
      var n := |rows| - 1;
      assert rows == rows[..n] + [rows[n]];
      assert ValidRow(rows[n]);
      ValidSums(rows[..n]);
    }
  }

  lemma ValidGroup(rows: seq<Row>, g: Grain, k: string)
    requires ValidRows(rows)
    ensures ValidRows(GroupRows(rows, g, k))
  {
    FilterMembers(InGroup(g, k), rows);
  }

  lemma {:induction false} SumLinear<K>(a: real, s: K -> real, b: real, t: K -> real, d: K -> real, ks: seq<K>)
    requires forall k :: d(k) == a * s(k) - b * t(k)
    ensures SumOf(d, ks) == a * SumOf(s, ks) - b * SumOf(t, ks)
  {
    if |ks| == 0 {
    } else {
      var n := |ks| - 1;
      SumLinear(a, s, b, t, d, ks[..n]);
      assert a * (SumOf(s, ks[..n]) + s(ks[n])) == a * SumOf(s, ks[..n]) + a * s(ks[n]);
      assert b * (SumOf(t, ks[..n]) + t(ks[n])) == b * SumOf(t, ks[..n]) + b * t(ks[n]);
    }
  }

  lemma CrossDivide(s: real, t: real, x: real, y: real)
    requires t > 0.0 && y > 0.0 && s * y <= x * t
    ensures s / t <= x / y
  {
    var p, q := s / t, x / y;
    assert p * t == s && q * y == x;
  }

  function Gap<K>(a: real, s: K -> real, b: real, t: K -> real): K -> real {
    (k: K) => a * s(k) - b * t(k)
  }

  /** Some part of positive weight has a ratio no larger than the ratio of the sums. */
  lemma {:induction false} MeanAbove<K(!new)>(s: K -> real, t: K -> real, ks: seq<K>) returns (lo: K)
    requires forall k :: k in ks ==> t(k) >= 0.0 && (t(k) == 0.0 ==> s(k) == 0.0)
    requires SumOf(t, ks) > 0.0
    ensures lo in ks && t(lo) > 0.0 && s(lo) / t(lo) <= SumOf(s, ks) / SumOf(t, ks)
  {
    var x, y := SumOf(s, ks), SumOf(t, ks);
    var d := Gap(y, s, x, t);
    GapsCancel(s, t, ks);
    forall k | k in ks && t(k) == 0.0 ensures d(k) == 0.0 {
      assert d(k) == y * 0.0 - x * 0.0;
    }
    lo := NotAllAbove(t, d, ks);
    CrossDivide(s(lo), t(lo), x, y);
  }

  lemma NotAllAbove<K(!new)>(t: K -> real, d: K -> real, ks: seq<K>) returns (lo: K)
    requires forall k :: k in ks ==> t(k) >= 0.0 && (t(k) == 0.0 ==> d(k) == 0.0)
    requires SumOf(t, ks) > 0.0 && SumOf(d, ks) == 0.0
    ensures lo in ks && t(lo) > 0.0 && d(lo) <= 0.0
  {
    if forall k :: k in ks && t(k) > 0.0 ==> d(k) > 0.0 {
      AllAbove(t, d, ks);
      assert false;
    }
    lo :| lo in ks && t(lo) > 0.0 && d(lo) <= 0.0;
  }

  lemma GapsCancel<K>(s: K -> real, t: K -> real, ks: seq<K>)
    ensures SumOf(Gap(SumOf(t, ks), s, SumOf(s, ks), t), ks) == 0.0
  {
    var x, y := SumOf(s, ks), SumOf(t, ks);
    SumLinear(y, s, x, t, Gap(y, s, x, t), ks);
    assert y * x == x * y;
  }

  lemma AllAbove<K(!new)>(t: K -> real, d: K -> real, ks: seq<K>)
    requires SumOf(t, ks) > 0.0
    requires forall k :: k in ks ==> t(k) >= 0.0 && (t(k) > 0.0 ==> d(k) > 0.0) && (t(k) == 0.0 ==> d(k) == 0.0)
    ensures SumOf(d, ks) > 0.0
  {
    if k :| k in ks && t(k) > 0.0 {
      SumAtLeast(d, ks, k);
    } else {
      SumZero(t, ks);
    }
  }

  function Negated<K>(s: K -> real): K -> real { (k: K) => -s(k) }

  lemma {:induction false} SumNegated<K>(s: K -> real, ks: seq<K>)
    ensures SumOf(Negated(s), ks) == -SumOf(s, ks)
  {
    if |ks| == 0 {
    } else {
      SumNegated(s, ks[..|ks| - 1]);
    }
  }

  lemma NegatedRatio(s: real, t: real)
    requires t > 0.0
    ensures (-s) / t == -(s / t)
  {
  }

  lemma MeanBelow<K(!new)>(s: K -> real, t: K -> real, ks: seq<K>) returns (hi: K)
    requires forall k :: k in ks ==> t(k) >= 0.0 && (t(k) == 0.0 ==> s(k) == 0.0)
    requires SumOf(t, ks) > 0.0
    ensures hi in ks && t(hi) > 0.0 && SumOf(s, ks) / SumOf(t, ks) <= s(hi) / t(hi)
  {
    SumNegated(s, ks);
    hi := MeanAbove(Negated(s), t, ks);
    NegatedRatio(s(hi), t(hi));
    NegatedRatio(SumOf(s, ks), SumOf(t, ks));
  }

  /** Kilometres weighted as the index weighs them. */
  function Weighted(): Row -> real { (r: Row) => 100.0 * (Alert(r) + 0.5 * Warning(r)) }

  lemma {:induction false} WeightedSum(rows: seq<Row>)
    ensures SumOf(Weighted(), rows) == 100.0 * (SumOf(Alert, rows) + 0.5 * SumOf(Warning, rows))
  {
    if |rows| == 0 {
    } else {
      WeightedSum(rows[..|rows| - 1]);
    }
  }

  lemma GroupWeights(rows: seq<Row>, g: Grain, k: string)
    requires ValidRows(rows)
    ensures var s, t := GroupSum(Weighted(), rows, g)(k), GroupSum(Total, rows, g)(k);
      t >= 0.0 && (t == 0.0 ==> s == 0.0)
  {
    ValidGroup(rows, g, k);
    ValidSums(GroupRows(rows, g, k));
    WeightedSum(GroupRows(rows, g, k));
  }

  lemma IndexIs(t: real, a: real, w: real, s: real)
    requires t != 0.0 && s == 100.0 * (a + 0.5 * w)
    ensures Index(t, a, w) == Some(Round1(s / t))
  {
  }

  lemma EntryIndex(rows: seq<Row>, g: Grain, k: string)
    ensures var group := GroupRows(rows, g, k);
      EntryOf(rows, g, k).riskIndex == Index(SumOf(Total, group), SumOf(Alert, group), SumOf(Warning, group))
  {
  }

  /** The entry of the unit `k`, as listed. */
  lemma UnitIndex(rows: seq<Row>, k: string) returns (e: Entry)
    requires k in Keys(rows, ByUnit) && GroupSum(Total, rows, ByUnit)(k) > 0.0
    ensures e in Summary(rows, ByUnit)
    ensures e.riskIndex == Some(Round1(GroupSum(Weighted(), rows, ByUnit)(k) / GroupSum(Total, rows, ByUnit)(k)))
  {
    var group := GroupRows(rows, ByUnit, k);
    EntryFor(rows, ByUnit, k);
    EntryIndex(rows, ByUnit, k);
    WeightedSum(group);
    IndexIs(SumOf(Total, group), SumOf(Alert, group), SumOf(Warning, group), SumOf(Weighted(), group));
    e := EntryOf(rows, ByUnit, k);
  }

  lemma TotalsIndex(subset: seq<Row>)
    requires ValidRows(subset) && TotalsOf(subset).riskIndex.Some?
    ensures SumOf(Total, subset) > 0.0
    ensures TotalsOf(subset).riskIndex == Some(Round1(SumOf(Weighted(), subset) / SumOf(Total, subset)))
  {
    TotalsFigures(subset);
    ValidSums(subset);
    WeightedSum(subset);
    IndexIs(SumOf(Total, subset), SumOf(Alert, subset), SumOf(Warning, subset), SumOf(Weighted(), subset));
  }

  lemma RoundBetween(l: real, m: real, h: real)
    requires l <= m <= h
    ensures Round1(l) <= Round1(m) <= Round1(h)
  {
    Round1Monotone(l, m);
    Round1Monotone(m, h);
  }

  /** The totals' index lies between two of the units' indices, rounding included. */
  lemma TotalsIndexIsMean(subset: seq<Row>) returns (lo: Entry, hi: Entry)
    requires ValidRows(subset) && TotalsOf(subset).riskIndex.Some?
    ensures lo in Summary(subset, ByUnit) && hi in Summary(subset, ByUnit)
    ensures lo.riskIndex.Some? && hi.riskIndex.Some?
    ensures lo.riskIndex.value <= TotalsOf(subset).riskIndex.value <= hi.riskIndex.value
  {
    var x, m, y;
    lo, hi, x, m, y := MeanRatios(subset);
    RoundBetween(x, m, y);
  }

  lemma MeanRatios(subset: seq<Row>) returns (lo: Entry, hi: Entry, x: real, m: real, y: real)
    requires ValidRows(subset) && TotalsOf(subset).riskIndex.Some?
    ensures lo in Summary(subset, ByUnit) && hi in Summary(subset, ByUnit)
    ensures lo.riskIndex == Some(Round1(x)) && TotalsOf(subset).riskIndex == Some(Round1(m))
    ensures hi.riskIndex == Some(Round1(y)) && x <= m <= y
  {
    TotalsIndex(subset);
    var l, h := MeanUnits(subset);
    lo := UnitIndex(subset, l);
    hi := UnitIndex(subset, h);
    var s, t := GroupSum(Weighted(), subset, ByUnit), GroupSum(Total, subset, ByUnit);
    x, m, y := s(l) / t(l), SumOf(Weighted(), subset) / SumOf(Total, subset), s(h) / t(h);
  }

  lemma MeanUnits(subset: seq<Row>) returns (l: string, h: string)
    requires ValidRows(subset) && SumOf(Total, subset) > 0.0
    ensures var s, t := GroupSum(Weighted(), subset, ByUnit), GroupSum(Total, subset, ByUnit);
      && l in Keys(subset, ByUnit) && h in Keys(subset, ByUnit) && t(l) > 0.0 && t(h) > 0.0
      && s(l) / t(l) <= SumOf(Weighted(), subset) / SumOf(Total, subset) <= s(h) / t(h)
  {
    var ks := Keys(subset, ByUnit);
    var s, t := GroupSum(Weighted(), subset, ByUnit), GroupSum(Total, subset, ByUnit);
    GroupsPartition(Weighted(), subset, ByUnit);
    GroupsPartition(Total, subset, ByUnit);
    forall k | k in ks ensures t(k) >= 0.0 && (t(k) == 0.0 ==> s(k) == 0.0) {
      GroupWeights(subset, ByUnit, k);
    }
    l := MeanAbove(s, t, ks);
    h := MeanBelow(s, t, ks);
  }

  lemma RatioBounds(t: real, a: real, w: real)
    requires t > 0.0 && a >= 0.0 && w >= 0.0 && a + w <= t
    ensures 0.0 <= Ratio(t, a, w) <= 100.0
  {
    var x := a + 0.5 * w;
    assert 0.0 <= x <= t;
    CrossDivide(0.0, 1.0, 100.0 * x, t);
    CrossDivide(100.0 * x, t, 100.0, 1.0);
  }

  lemma IndexBounds(t: real, a: real, w: real)
    requires a >= 0.0 && w >= 0.0 && a + w <= t
    ensures var i := Index(t, a, w); i.Some? ==> 0.0 <= i.value <= 100.0
  {
    if t != 0.0 {
      RatioBounds(t, a, w);
      RoundZero();
      Round1Monotone(0.0, Ratio(t, a, w));
      Round1Monotone(Ratio(t, a, w), 100.0);
    }
  }

  lemma EntryIndexBounds(rows: seq<Row>, g: Grain, e: Entry)
    requires ValidRows(rows) && e in Summary(rows, g)
    ensures e.riskIndex.Some? ==> 0.0 <= e.riskIndex.value <= 100.0
    ensures e.key in Keys(rows, g)
    ensures e.riskIndex.None? <==> SumOf(Total, GroupRows(rows, g, e.key)) == 0.0
  {
    EntryAt(rows, g, e);
    var group := GroupRows(rows, g, e.key);
    ValidGroup(rows, g, e.key);
    ValidSums(group);
    IndexBounds(SumOf(Total, group), SumOf(Alert, group), SumOf(Warning, group));
  }

  /** The block has no index exactly when no unit has one. */
  lemma NoIndexExactly(subset: seq<Row>)
    requires ValidRows(subset)
    ensures TotalsOf(subset).riskIndex.None? <==> forall e :: e in Summary(subset, ByUnit) ==> e.riskIndex.None?
  {
    if TotalsOf(subset).riskIndex.Some? {
      var lo, hi := TotalsIndexIsMean(subset);
    } else {
      TotalsFigures(subset);
      forall e | e in Summary(subset, ByUnit) ensures e.riskIndex.None? {
        EntryIndexBounds(subset, ByUnit, e);
        NothingInGroup(subset, e.key);
      }
    }
  }

  lemma NothingInGroup(subset: seq<Row>, k: string)
    requires ValidRows(subset) && SumOf(Total, subset) == 0.0 && k in Keys(subset, ByUnit)
    ensures SumOf(Total, GroupRows(subset, ByUnit, k)) == 0.0
  {
    var t := GroupSum(Total, subset, ByUnit);
    GroupsPartition(Total, subset, ByUnit);
    forall j ensures t(j) >= 0.0 {
      GroupWeights(subset, ByUnit, j);
    }
    SumAtLeast(t, Keys(subset, ByUnit), k);
  }

  /** The published block: its index is null exactly when every unit's is, and otherwise lies
      between the least and the greatest unit index and within 0..100. */
  lemma BlockIndexIsMean(subset: seq<Row>, vector: string, threshold: Option<string>, topN: nat)
    requires ValidRows(subset)
    ensures var b := BlockFor(subset, vector, threshold, topN);
      && (b.totals.riskIndex.None? <==> forall u :: u in b.units ==> u.riskIndex.None?)
      && (b.totals.riskIndex.Some? ==>
          && 0.0 <= b.totals.riskIndex.value <= 100.0
          && (exists u :: u in b.units && u.riskIndex.Some? && u.riskIndex.value <= b.totals.riskIndex.value)
          && (exists u :: u in b.units && u.riskIndex.Some? && b.totals.riskIndex.value <= u.riskIndex.value))
  {
    var b := BlockFor(subset, vector, threshold, topN);
    NoIndexExactly(subset);
    MapMembers(ToUnit(), Summary(subset, ByUnit));
    if b.totals.riskIndex.Some? {
      TotalsFigures(subset);
      ValidSums(subset);
      IndexBounds(SumOf(Total, subset), SumOf(Alert, subset), SumOf(Warning, subset));
      var lo, hi := TotalsIndexIsMean(subset);
      assert ToUnit()(lo) in b.units && ToUnit()(hi) in b.units;
    } else {
      forall u | u in b.units ensures u.riskIndex.None? {
      }
    }
  }
}
