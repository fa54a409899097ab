/** The report does not depend on the order the rows come in: sums commute and every sort key
    ends in a distinct group key. Only `worst_level` can: its `max` keeps the first of several
    spellings of rank 0. The exact condition under which the whole report is order-free closes
    the module. */
module ExposureOrder {
  import opened Options
  import opened Sequences
  import opened Exposure

  // ----- What a summary is made of -----

  function EntryKey(e: Entry): string { e.key }
  function LineInKey(l: LineIn): string { l.key }

  lemma EntryLeOrder()
    ensures KeyOrder(EntryLe, EntryKey)
  {
    forall a, b ensures EntryLe(a, b) || EntryLe(b, a) {
      StrLeTotal(a.key, b.key);
    }
    forall a, b, c | EntryLe(a, b) && EntryLe(b, c) ensures EntryLe(a, c) {
      if StrLe(a.key, b.key) && StrLe(b.key, c.key) {
        StrLeTransitive(a.key, b.key, c.key);
      }
    }
    forall a, b | EntryLe(a, b) && EntryLe(b, a) ensures EntryKey(a) == EntryKey(b) {
      StrLeAntisymmetric(a.key, b.key);
    }
  }

  lemma LineLeOrder()
    ensures KeyOrder(LineLe, LineInKey)
  {
    forall a, b ensures LineLe(a, b) || LineLe(b, a) {
      StrLeTotal(a.key, b.key);
    }
    forall a, b, c | LineLe(a, b) && LineLe(b, c) ensures LineLe(a, c) {
      if StrLe(a.key, b.key) && StrLe(b.key, c.key) {
        StrLeTransitive(a.key, b.key, c.key);
      }
    }
    forall a, b | LineLe(a, b) && LineLe(b, a) ensures LineInKey(a) == LineInKey(b) {
      StrLeAntisymmetric(a.key, b.key);
    }
  }

  /** A summary is sorted and has one entry per group key. */
  lemma SummaryShape(rows: seq<Row>, g: Grain)
    ensures Sorted(EntryLe, Summary(rows, g))
    ensures DistinctKeys(EntryKey, Summary(rows, g))
    ensures |Summary(rows, g)| == |Keys(rows, g)|
  {
    EntryLeOrder();
    KeyedShape(EntryLe, EntryKey, EntryIn(rows, g), Keys(rows, g));
  }

  /** Each entry is the figures of its group. */
  lemma EntryAt(rows: seq<Row>, g: Grain, e: Entry)
    requires e in Summary(rows, g)
    ensures e.key in Keys(rows, g) && e == EntryOf(rows, g, e.key)
  {
    EntryLeOrder();
    KeyedShape(EntryLe, EntryKey, EntryIn(rows, g), Keys(rows, g));
    assert EntryKey(e) in Keys(rows, g) && e == EntryIn(rows, g)(EntryKey(e));
  }

  /** Each group has its entry. */
  lemma EntryFor(rows: seq<Row>, g: Grain, k: string)
    requires k in Keys(rows, g)
    ensures EntryOf(rows, g, k) in Summary(rows, g)
  {
    EntryLeOrder();
    KeyedShape(EntryLe, EntryKey, EntryIn(rows, g), Keys(rows, g));
    var e := EntryIn(rows, g)(k);
    assert EntryKey(e) == k;
  }

  // ----- Permuted rows, same figures -----

  lemma SameMembers<T(!new)>(a: seq<T>, b: seq<T>)
    requires multiset(a) == multiset(b)
    ensures forall x :: x in a <==> x in b
    ensures |a| == |b|
  {
    assert |multiset(a)| == |a| && |multiset(b)| == |b|;
    forall x ensures x in a <==> x in b {
      assert x in multiset(a) <==> x in multiset(b);
    }
  }

  lemma SameKeys(a: seq<Row>, b: seq<Row>, g: Grain)
    requires multiset(a) == multiset(b)
    ensures forall k :: k in Keys(a, g) <==> k in Keys(b, g)
  {
    KeysMembers(a, g);
    KeysMembers(b, g);
    SameMembers(a, b);
  }

  lemma SameLine(a: seq<Row>, b: seq<Row>, k: string)
    requires multiset(a) == multiset(b)
    ensures LineFrom(a)(k) == LineFrom(b)(k)
  {
    FilterPermutation(InGroup(ByLine, k), a, b);
    var ga, gb := GroupRows(a, ByLine, k), GroupRows(b, ByLine, k);
    SumPermutation(Total, ga, gb);
    SumPermutation(Alert, ga, gb);
    SumPermutation(Warning, ga, gb);
  }

  function Identity(): LineIn -> LineIn { (l: LineIn) => l }

  lemma SameLinesWithin(a: seq<Row>, b: seq<Row>)
    requires multiset(a) == multiset(b)
    ensures LinesWithin(a) == LinesWithin(b)
  {
    LineLeOrder();
    SameKeys(a, b, ByLine);
    forall k ensures LineFrom(a)(k) == LineFrom(b)(k) {
      SameLine(a, b, k);
    }
    KeyedSame(LineLe, LineInKey, Identity(), LineFrom(a), LineFrom(b), Keys(a, ByLine), Keys(b, ByLine));
    var s, t := LinesWithin(a), LinesWithin(b);
    forall i | 0 <= i < |s| ensures s[i] == t[i] {
      assert Identity()(s[i]) == Identity()(t[i]);
    }
  }

  lemma SameUnits(a: seq<Row>, b: seq<Row>)
    requires multiset(a) == multiset(b)
    ensures UnitsOf(a) == UnitsOf(b)
  {
    var na, nb := Map(UnitName(), a), Map(UnitName(), b);
    MapMembers(UnitName(), a);
    MapMembers(UnitName(), b);
    SameMembers(a, b);
    FilterMembers(NonEmpty(), na);
    FilterMembers(NonEmpty(), nb);
    SortedSetSame(Filter(NonEmpty(), na), Filter(NonEmpty(), nb));
  }

  /** Everything of an entry but its worst level. */
  function Erase(): Entry -> Entry { (e: Entry) => e.(worstLevel := "") }

  ghost predicate AllAlike(x: seq<Entry>, y: seq<Entry>) {
    |x| == |y| && forall i :: 0 <= i < |x| ==> Erase()(x[i]) == Erase()(y[i])
  }

  lemma EntryAlike(a: seq<Row>, b: seq<Row>, g: Grain, k: string)
    requires multiset(a) == multiset(b)
    ensures Erase()(EntryIn(a, g)(k)) == Erase()(EntryIn(b, g)(k))
  {
    FilterPermutation(InGroup(g, k), a, b);
    var ga, gb := GroupRows(a, g, k), GroupRows(b, g, k);
    SameMembers(ga, gb);
    SumPermutation(Total, ga, gb);
    SumPermutation(Alert, ga, gb);
    SumPermutation(Warning, ga, gb);
    SameUnits(ga, gb);
    SameLinesWithin(ga, gb);
  }

  /** Permuting the rows leaves every summary as it is, worst levels aside. */
  lemma SummaryAlike(a: seq<Row>, b: seq<Row>, g: Grain)
    requires multiset(a) == multiset(b)
    ensures AllAlike(Summary(a, g), Summary(b, g))
  {
    EntryLeOrder();
    SameKeys(a, b, g);
    forall k ensures Erase()(EntryIn(a, g)(k)) == Erase()(EntryIn(b, g)(k)) {
      EntryAlike(a, b, g, k);
    }
    KeyedSame(EntryLe, EntryKey, Erase(), EntryIn(a, g), EntryIn(b, g), Keys(a, g), Keys(b, g));
  }

  lemma TopEntriesAlike(a: seq<Row>, b: seq<Row>, threshold: Option<string>, topN: nat)
    requires multiset(a) == multiset(b)
    ensures AllAlike(TopEntries(a, threshold, topN), TopEntries(b, threshold, topN))
  {
    SummaryAlike(a, b, ByLine);
    QualifyingAlike(Summary(a, ByLine), Summary(b, ByLine), threshold);
  }

  lemma QualifyingAlike(x: seq<Entry>, y: seq<Entry>, threshold: Option<string>)
    requires AllAlike(x, y)
    ensures AllAlike(Filter(Qualifies(threshold), x), Filter(Qualifies(threshold), y))
  {
    QualifiesErased(threshold);
    FilterAligned(Qualifies(threshold), Erase(), x, y);
  }

  lemma QualifiesErased(threshold: Option<string>)
    ensures forall e, f :: Erase()(e) == Erase()(f) ==> Qualifies(threshold)(e) == Qualifies(threshold)(f)
  {
    forall e, f | Erase()(e) == Erase()(f) ensures Qualifies(threshold)(e) == Qualifies(threshold)(f) {
      assert e.kmAlert == Erase()(e).kmAlert && e.kmWarning == Erase()(e).kmWarning;
    }
  }

  // ----- The report, worst levels aside -----

  predicate SameUnit(x: UnitRow, y: UnitRow) {
    x.(worstLevel := y.worstLevel) == y
  }

  predicate SameLineRow(x: LineRow, y: LineRow) {
    x.(worstLevel := y.worstLevel) == y
  }

  predicate SameBlock(x: Block, y: Block) {
    && x.riskVector == y.riskVector
    && |x.units| == |y.units|
    && (forall i :: 0 <= i < |x.units| ==> SameUnit(x.units[i], y.units[i]))
    && |x.topLines| == |y.topLines|
    && (forall i :: 0 <= i < |x.topLines| ==> SameLineRow(x.topLines[i], y.topLines[i]))
    && x.totals.(worstLevel := y.totals.worstLevel) == y.totals
  }

  predicate SameDay(x: Day, y: Day) {
    && x.date == y.date
    && |x.vectors| == |y.vectors|
    && forall j :: 0 <= j < |x.vectors| ==> SameBlock(x.vectors[j], y.vectors[j])
  }

  lemma AlikeFields(e: Entry, f: Entry)
    requires Erase()(e) == Erase()(f)
    ensures e == f.(worstLevel := e.worstLevel)
    ensures SameUnit(ToUnit()(e), ToUnit()(f)) && SameLineRow(ToLine()(e), ToLine()(f))
    ensures ToTotals(e).(worstLevel := f.worstLevel) == ToTotals(f)
  {
    assert e == Erase()(e).(worstLevel := e.worstLevel);
    assert f == Erase()(f).(worstLevel := f.worstLevel);
  }

  lemma UnitsAlike(a: seq<Row>, b: seq<Row>)
    requires multiset(a) == multiset(b)
    ensures var x, y := Map(ToUnit(), Summary(a, ByUnit)), Map(ToUnit(), Summary(b, ByUnit));
      |x| == |y| && forall i :: 0 <= i < |x| ==> SameUnit(x[i], y[i])
  {
    SummaryAlike(a, b, ByUnit);
    var s, t := Summary(a, ByUnit), Summary(b, ByUnit);
    forall i | 0 <= i < |s| ensures SameUnit(Map(ToUnit(), s)[i], Map(ToUnit(), t)[i]) {
      AlikeFields(s[i], t[i]);
    }
  }

  lemma TopLinesAlike(a: seq<Row>, b: seq<Row>, threshold: Option<string>, topN: nat)
    requires multiset(a) == multiset(b)
    ensures var x, y := Map(ToLine(), TopEntries(a, threshold, topN)), Map(ToLine(), TopEntries(b, threshold, topN));
      |x| == |y| && forall i :: 0 <= i < |x| ==> SameLineRow(x[i], y[i])
  {
    TopEntriesAlike(a, b, threshold, topN);
    var s, t := TopEntries(a, threshold, topN), TopEntries(b, threshold, topN);
    forall i | 0 <= i < |s| ensures SameLineRow(Map(ToLine(), s)[i], Map(ToLine(), t)[i]) {
      AlikeFields(s[i], t[i]);
    }
  }

  lemma TotalsAlike(a: seq<Row>, b: seq<Row>)
    requires multiset(a) == multiset(b)
    ensures TotalsOf(a).(worstLevel := TotalsOf(b).worstLevel) == TotalsOf(b)
  {
    SummaryAlike(a, b, Whole);
    if |Summary(a, Whole)| > 0 {
      AlikeFields(Summary(a, Whole)[0], Summary(b, Whole)[0]);
    }
  }

  lemma BlockAlike(a: seq<Row>, b: seq<Row>, vector: string, threshold: Option<string>, topN: nat)
    requires multiset(a) == multiset(b)
    ensures SameBlock(BlockFor(a, vector, threshold, topN), BlockFor(b, vector, threshold, topN))
  {
    UnitsAlike(a, b);
    TopLinesAlike(a, b, threshold, topN);
    TotalsAlike(a, b);
  }

  lemma DayAlike(a: seq<Row>, b: seq<Row>, date: string, vectors: seq<string>, threshold: Option<string>, topN: nat)
    requires multiset(a) == multiset(b)
    ensures SameDay(DayIn(a, vectors, threshold, topN)(date), DayIn(b, vectors, threshold, topN)(date))
  {
    var x, y := Map(BlockIn(a, date, threshold, topN), vectors), Map(BlockIn(b, date, threshold, topN), vectors);
    forall j | 0 <= j < |vectors| ensures SameBlock(x[j], y[j]) {
      FilterPermutation(InBlock(date, vectors[j]), a, b);
      BlockAlike(Subset(a, date, vectors[j]), Subset(b, date, vectors[j]), vectors[j], threshold, topN);
    }
  }

  /** Whatever order the rows arrive in, the report names the same units, lines and figures in
      the same order. */
  lemma ReportIgnoresRowOrder(a: seq<Row>, b: seq<Row>, dates: seq<string>, vectors: seq<string>,
                              threshold: Option<string>, topN: nat)
    requires multiset(a) == multiset(b)
    ensures var x, y := Days(a, dates, vectors, threshold, topN), Days(b, dates, vectors, threshold, topN);
      |x| == |y| && forall i :: 0 <= i < |x| ==> SameDay(x[i], y[i])
  {
    forall i | 0 <= i < |dates|
      ensures SameDay(Days(a, dates, vectors, threshold, topN)[i], Days(b, dates, vectors, threshold, topN)[i])
    {
      DayAlike(a, b, dates[i], vectors, threshold, topN);
    }
  }

  // ----- Worst levels -----

  /** The rows fix the worst level whatever their order: some row outranks NORMAL, or all the
      rows spell their level alike. */
  predicate Decided(group: seq<Row>) {
    Settled(LevelRank, Levels(group))
  }

  lemma RankDecides()
    ensures forall x, y :: LevelRank(x) == LevelRank(y) > 0 ==> x == y
  {
  }

  lemma SameLevels(a: seq<Row>, b: seq<Row>)
    requires multiset(a) == multiset(b)
    ensures forall l :: l in Levels(a) <==> l in Levels(b)
    ensures |a| == |b|
  {
    SameMembers(a, b);
    MapMembers(LevelOf, a);
    MapMembers(LevelOf, b);
  }

  lemma DecidedWorstLevel(a: seq<Row>, b: seq<Row>)
    requires multiset(a) == multiset(b) && Decided(a)
    ensures WorstLevel(a) == WorstLevel(b)
  {
    SameLevels(a, b);
    RankDecides();
    if |a| > 0 {
      SettledMax(LevelRank, Levels(a), Levels(b));
    }
  }

  /** A row of an undecided group whose level is not the one printed. */
  lemma Dissenter(group: seq<Row>) returns (x: Row)
    requires !Decided(group)
    ensures x in group && LevelOf(x) != WorstLevel(group)
  {
    var i := UnsettledDissent(LevelRank, Levels(group));
    x := group[i];
    assert Levels(group)[i] == LevelOf(x);
  }

  /** An undecided group prints the level of its first row. */
  lemma FrontPrinted(group: seq<Row>, other: seq<Row>)
    requires !Decided(group) && |other| > 0 && multiset(other) == multiset(group)
    ensures WorstLevel(other) == LevelOf(other[0])
  {
    SameLevels(other, group);
    FirstMaxProperties(LevelRank, Levels(other));
    assert Levels(other)[0] in Levels(other);
    assert FirstMax(LevelRank, Levels(other)) in Levels(group);
    assert LevelRank(FirstMax(LevelRank, Levels(other))) == 0;
    assert Levels(other)[0] in Levels(group);
  }

  /** Everything the block prints a worst level for has its level decided. */
  predicate BlockDecided(subset: seq<Row>, threshold: Option<string>, topN: nat) {
    && Decided(subset)
    && (forall k :: k in Keys(subset, ByUnit) ==> Decided(GroupRows(subset, ByUnit, k)))
    && (forall e :: e in TopEntries(subset, threshold, topN) ==> Decided(GroupRows(subset, ByLine, e.key)))
  }

  predicate AllDecided(rows: seq<Row>, dates: seq<string>, vectors: seq<string>, threshold: Option<string>, topN: nat) {
    forall d, v :: d in dates && v in vectors ==> BlockDecided(Subset(rows, d, v), threshold, topN)
  }

  ghost predicate OrderFree(rows: seq<Row>, dates: seq<string>, vectors: seq<string>,
                            threshold: Option<string>, topN: nat) {
    forall b: seq<Row> :: multiset(b) == multiset(rows)
      ==> Days(b, dates, vectors, threshold, topN) == Days(rows, dates, vectors, threshold, topN)
  }

  lemma PrintedLevel(rows: seq<Row>, g: Grain, e: Entry)
    requires e in Summary(rows, g)
    ensures e.key in Keys(rows, g) && e.worstLevel == WorstLevel(GroupRows(rows, g, e.key))
  {
    EntryAt(rows, g, e);
  }

  lemma DecidedEntry(a: seq<Row>, b: seq<Row>, g: Grain, e: Entry, f: Entry)
    requires multiset(a) == multiset(b)
    requires e in Summary(a, g) && f in Summary(b, g) && Erase()(e) == Erase()(f)
    requires Decided(GroupRows(a, g, e.key))
    ensures e == f
  {
    AlikeFields(e, f);
    PrintedLevel(a, g, e);
    PrintedLevel(b, g, f);
    FilterPermutation(InGroup(g, e.key), a, b);
    DecidedWorstLevel(GroupRows(a, g, e.key), GroupRows(b, g, e.key));
  }

  lemma TopEntriesMembers(rows: seq<Row>, threshold: Option<string>, topN: nat)
    ensures forall e :: e in TopEntries(rows, threshold, topN) ==> e in Summary(rows, ByLine)
  {
    FilterMembers(Qualifies(threshold), Summary(rows, ByLine));
  }

  /** The totals grouping has one group, all the rows, unless there are none. */
  lemma WholeGroup(rows: seq<Row>)
    ensures GroupRows(rows, Whole, "*") == rows
    ensures Keys(rows, Whole) == if |rows| == 0 then [] else ["*"]
  {
    FilterAll(InGroup(Whole, "*"), rows);
    DistinctConstant(Map(KeyIn(Whole), rows), "*");
  }

  lemma DecidedUnits(a: seq<Row>, b: seq<Row>)
    requires multiset(a) == multiset(b)
    requires forall k :: k in Keys(a, ByUnit) ==> Decided(GroupRows(a, ByUnit, k))
    ensures Summary(a, ByUnit) == Summary(b, ByUnit)
  {
    SummaryAlike(a, b, ByUnit);
    var u, v := Summary(a, ByUnit), Summary(b, ByUnit);
    forall i | 0 <= i < |u| ensures u[i] == v[i] {
      DecidedUnit(a, b, u[i], v[i]);
    }
    SameSeq(u, v);
  }

  lemma DecidedUnit(a: seq<Row>, b: seq<Row>, e: Entry, f: Entry)
    requires multiset(a) == multiset(b)
    requires forall k :: k in Keys(a, ByUnit) ==> Decided(GroupRows(a, ByUnit, k))
    requires e in Summary(a, ByUnit) && f in Summary(b, ByUnit) && Erase()(e) == Erase()(f)
    ensures e == f
  {
    PrintedLevel(a, ByUnit, e);
    DecidedEntry(a, b, ByUnit, e, f);
  }

  lemma DecidedLines(a: seq<Row>, b: seq<Row>, threshold: Option<string>, topN: nat)
    requires multiset(a) == multiset(b)
    requires forall e :: e in TopEntries(a, threshold, topN) ==> Decided(GroupRows(a, ByLine, e.key))
    ensures TopEntries(a, threshold, topN) == TopEntries(b, threshold, topN)
  {
    TopEntriesAlike(a, b, threshold, topN);
    TopEntriesMembers(a, threshold, topN);
    TopEntriesMembers(b, threshold, topN);
    var x, y := TopEntries(a, threshold, topN), TopEntries(b, threshold, topN);
    forall i | 0 <= i < |x| ensures x[i] == y[i] {
      assert x[i] in x && y[i] in y;
      DecidedEntry(a, b, ByLine, x[i], y[i]);
    }
  }

  lemma DecidedTotals(a: seq<Row>, b: seq<Row>)
    requires multiset(a) == multiset(b) && Decided(a)
    ensures TotalsOf(a) == TotalsOf(b)
  {
    SummaryAlike(a, b, Whole);
    WholeGroup(a);
    var p, q := Summary(a, Whole), Summary(b, Whole);
    if |p| > 0 {
      assert p[0] in p && q[0] in q;
      PrintedLevel(a, Whole, p[0]);
      DecidedEntry(a, b, Whole, p[0], q[0]);
    }
  }

  lemma DecidedBlock(rows: seq<Row>, b: seq<Row>, d: string, v: string, threshold: Option<string>, topN: nat)
    requires multiset(b) == multiset(rows) && BlockDecided(Subset(rows, d, v), threshold, topN)
    ensures BlockIn(b, d, threshold, topN)(v) == BlockIn(rows, d, threshold, topN)(v)
  {
    FilterPermutation(InBlock(d, v), b, rows);
    DecidedUnits(Subset(rows, d, v), Subset(b, d, v));
    DecidedLines(Subset(rows, d, v), Subset(b, d, v), threshold, topN);
    DecidedTotals(Subset(rows, d, v), Subset(b, d, v));
  }

  lemma DecidedDays(rows: seq<Row>, b: seq<Row>, dates: seq<string>, vectors: seq<string>,
                    threshold: Option<string>, topN: nat)
    requires multiset(b) == multiset(rows) && AllDecided(rows, dates, vectors, threshold, topN)
    ensures Days(b, dates, vectors, threshold, topN) == Days(rows, dates, vectors, threshold, topN)
  {
    var x, y := Days(b, dates, vectors, threshold, topN), Days(rows, dates, vectors, threshold, topN);
    forall i | 0 <= i < |dates| ensures x[i] == y[i] {
      var d := dates[i];
      var p, q := Map(BlockIn(b, d, threshold, topN), vectors), Map(BlockIn(rows, d, threshold, topN), vectors);
      forall j | 0 <= j < |vectors| ensures p[j] == q[j] {
        assert d in dates && vectors[j] in vectors;
        DecidedBlock(rows, b, d, vectors[j], threshold, topN);
      }
      assert p == q;
    }
  }

  // ----- An undecided level does depend on the order -----

  /** `rows` with one row moved to the front. */
  function ToFront(rows: seq<Row>, i: nat): seq<Row>
    requires i < |rows|
  {
    [rows[i]] + (rows[..i] + rows[i + 1..])
  }

  lemma ToFrontPermutes(rows: seq<Row>, i: nat)
    requires i < |rows|
    ensures multiset(ToFront(rows, i)) == multiset(rows)
  {
    assert rows == rows[..i] + [rows[i]] + rows[i + 1..];
  }

  lemma FilterFront(p: Row -> bool, x: Row, rest: seq<Row>)
    requires p(x)
    ensures Filter(p, [x] + rest) == [x] + Filter(p, rest)
  {
    FilterAppend(p, [x], rest);
    assert [x][..0] == [];
    assert Filter(p, [x]) == [x];
  }

  /** An undecided group changes its printed level when the right row moves to the front. */
  lemma UndecidedFlips(rows: seq<Row>, date: string, vector: string, g: Grain, k: string) returns (b: seq<Row>)
    requires !Decided(GroupRows(Subset(rows, date, vector), g, k))
    ensures multiset(b) == multiset(rows)
    ensures multiset(Subset(b, date, vector)) == multiset(Subset(rows, date, vector))
    ensures WorstLevel(GroupRows(Subset(b, date, vector), g, k))
        != WorstLevel(GroupRows(Subset(rows, date, vector), g, k))
  {
    var sub := Subset(rows, date, vector);
    var x := Dissenter(GroupRows(sub, g, k));
    FilterMembers(InGroup(g, k), sub);
    FilterMembers(InBlock(date, vector), rows);
    var i :| 0 <= i < |rows| && rows[i] == x;
    b := ToFront(rows, i);
    ToFrontPermutes(rows, i);
    FilterFront(InBlock(date, vector), x, rows[..i] + rows[i + 1..]);
    FilterFront(InGroup(g, k), x, Filter(InBlock(date, vector), rows[..i] + rows[i + 1..]));
    FilterPermutation(InBlock(date, vector), b, rows);
    FilterPermutation(InGroup(g, k), Subset(b, date, vector), sub);
    assert GroupRows(Subset(b, date, vector), g, k)[0] == x;
    FrontPrinted(GroupRows(sub, g, k), GroupRows(Subset(b, date, vector), g, k));
  }

  /** Entries at the same place whose groups print different levels are different. */
  lemma EntriesDiffer(a: seq<Row>, b: seq<Row>, g: Grain, e: Entry, f: Entry)
    requires e in Summary(a, g) && f in Summary(b, g) && Erase()(e) == Erase()(f)
    requires WorstLevel(GroupRows(a, g, e.key)) != WorstLevel(GroupRows(b, g, e.key))
    ensures ToUnit()(e) != ToUnit()(f) && ToLine()(e) != ToLine()(f) && ToTotals(e) != ToTotals(f)
  {
    AlikeFields(e, f);
    PrintedLevel(a, g, e);
    PrintedLevel(b, g, f);
  }

  lemma UndecidedUnit(a: seq<Row>, b: seq<Row>, k: string)
    requires multiset(a) == multiset(b) && k in Keys(a, ByUnit)
    requires WorstLevel(GroupRows(a, ByUnit, k)) != WorstLevel(GroupRows(b, ByUnit, k))
    ensures Map(ToUnit(), Summary(a, ByUnit)) != Map(ToUnit(), Summary(b, ByUnit))
  {
    SummaryAlike(a, b, ByUnit);
    EntryFor(a, ByUnit, k);
    var u, v := Summary(a, ByUnit), Summary(b, ByUnit);
    var i :| 0 <= i < |u| && u[i] == EntryOf(a, ByUnit, k);
    assert Erase()(u[i]) == Erase()(v[i]) && u[i] in u && v[i] in v;
    EntriesDiffer(a, b, ByUnit, u[i], v[i]);
    assert Map(ToUnit(), u)[i] != Map(ToUnit(), v)[i];
  }

  lemma UndecidedLine(a: seq<Row>, b: seq<Row>, threshold: Option<string>, topN: nat, e: Entry)
    requires multiset(a) == multiset(b) && e in TopEntries(a, threshold, topN)
    requires WorstLevel(GroupRows(a, ByLine, e.key)) != WorstLevel(GroupRows(b, ByLine, e.key))
    ensures Map(ToLine(), TopEntries(a, threshold, topN)) != Map(ToLine(), TopEntries(b, threshold, topN))
  {
    TopEntriesAlike(a, b, threshold, topN);
    TopEntriesMembers(a, threshold, topN);
    TopEntriesMembers(b, threshold, topN);
    var u, v := TopEntries(a, threshold, topN), TopEntries(b, threshold, topN);
    var i :| 0 <= i < |u| && u[i] == e;
    assert Erase()(u[i]) == Erase()(v[i]) && v[i] in v;
    EntriesDiffer(a, b, ByLine, u[i], v[i]);
    assert Map(ToLine(), u)[i] != Map(ToLine(), v)[i];
  }

  lemma TotalsLevel(rows: seq<Row>)
    ensures TotalsOf(rows).worstLevel == WorstLevel(rows)
  {
    WholeGroup(rows);
    SummaryShape(rows, Whole);
    var s := Summary(rows, Whole);
    if |s| > 0 {
      assert s[0] in s;
      PrintedLevel(rows, Whole, s[0]);
    }
  }

  lemma UndecidedBlock(rows: seq<Row>, date: string, vector: string, threshold: Option<string>, topN: nat)
    returns (b: seq<Row>)
    requires !BlockDecided(Subset(rows, date, vector), threshold, topN)
    ensures multiset(b) == multiset(rows)
    ensures BlockIn(b, date, threshold, topN)(vector) != BlockIn(rows, date, threshold, topN)(vector)
  {
    var sub := Subset(rows, date, vector);
    if k :| k in Keys(sub, ByUnit) && !Decided(GroupRows(sub, ByUnit, k)) {
      b := UndecidedFlips(rows, date, vector, ByUnit, k);
      UndecidedUnit(sub, Subset(b, date, vector), k);
    } else if e :| e in TopEntries(sub, threshold, topN) && !Decided(GroupRows(sub, ByLine, e.key)) {
      b := UndecidedFlips(rows, date, vector, ByLine, e.key);
      UndecidedLine(sub, Subset(b, date, vector), threshold, topN, e);
    } else {
      b := UndecidedWhole(rows, date, vector);
    }
  }

  lemma UndecidedWhole(rows: seq<Row>, date: string, vector: string) returns (b: seq<Row>)
    requires !Decided(Subset(rows, date, vector))
    ensures multiset(b) == multiset(rows)
    ensures TotalsOf(Subset(b, date, vector)).worstLevel != TotalsOf(Subset(rows, date, vector)).worstLevel
  {
    WholeGroup(Subset(rows, date, vector));
    b := UndecidedFlips(rows, date, vector, Whole, "*");
    WholeGroup(Subset(b, date, vector));
    TotalsLevel(Subset(rows, date, vector));
    TotalsLevel(Subset(b, date, vector));
  }

  /** The whole report, worst levels included, is the same for every order of the rows exactly
      when every printed worst level is decided by its rows. */
  lemma OrderFreeExactly(rows: seq<Row>, dates: seq<string>, vectors: seq<string>, threshold: Option<string>, topN: nat)
    ensures OrderFree(rows, dates, vectors, threshold, topN)
       <==> AllDecided(rows, dates, vectors, threshold, topN)
  {
    if AllDecided(rows, dates, vectors, threshold, topN) {
      forall b: seq<Row> | multiset(b) == multiset(rows)
        ensures Days(b, dates, vectors, threshold, topN) == Days(rows, dates, vectors, threshold, topN)
      {
        DecidedDays(rows, b, dates, vectors, threshold, topN);
      }
    } else {
      var d, v :| d in dates && v in vectors && !BlockDecided(Subset(rows, d, v), threshold, topN);
      var b := UndecidedBlock(rows, d, v, threshold, topN);
      BlocksDiffer(rows, b, dates, vectors, threshold, topN, d, v);
    }
  }

  lemma BlocksDiffer(a: seq<Row>, b: seq<Row>, dates: seq<string>, vectors: seq<string>,
                     threshold: Option<string>, topN: nat, d: string, v: string)
    requires d in dates && v in vectors
    requires BlockIn(b, d, threshold, topN)(v) != BlockIn(a, d, threshold, topN)(v)
    ensures Days(b, dates, vectors, threshold, topN) != Days(a, dates, vectors, threshold, topN)
  {
    var i :| 0 <= i < |dates| && dates[i] == d;
    var j :| 0 <= j < |vectors| && vectors[j] == v;
    var x, y := Days(b, dates, vectors, threshold, topN)[i], Days(a, dates, vectors, threshold, topN)[i];
    assert x.vectors == Map(BlockIn(b, d, threshold, topN), vectors);
    assert y.vectors == Map(BlockIn(a, d, threshold, topN), vectors);
    assert x.vectors[j] != y.vectors[j];
  }

  /** Rows whose level is missing or one of the three known ones. */
  predicate KnownLevels(rows: seq<Row>) {
    forall r :: r in rows ==> LevelOf(r) == "NORMAL" || LevelRank(LevelOf(r)) > 0
  }

  lemma KnownGroup(rows: seq<Row>)
    requires KnownLevels(rows)
    ensures Decided(rows)
  {
    MapMembers(LevelOf, rows);
  }

  lemma KnownFilter(p: Row -> bool, rows: seq<Row>)
    requires KnownLevels(rows)
    ensures KnownLevels(Filter(p, rows))
  {
    FilterMembers(p, rows);
  }

  /** Known levels are enough, whatever the dates, the hazards and the threshold. */
  lemma KnownLevelsOrderFree(rows: seq<Row>, dates: seq<string>, vectors: seq<string>, threshold: Option<string>,
                             topN: nat)
    requires KnownLevels(rows)
    ensures OrderFree(rows, dates, vectors, threshold, topN)
  {
    OrderFreeExactly(rows, dates, vectors, threshold, topN);
    forall d, v ensures BlockDecided(Subset(rows, d, v), threshold, topN) {
      var sub := Subset(rows, d, v);
      KnownFilter(InBlock(d, v), rows);
      KnownGroup(sub);
      forall g: Grain, k ensures Decided(GroupRows(sub, g, k)) {
        KnownFilter(InGroup(g, k), sub);
        KnownGroup(GroupRows(sub, g, k));
      }
    }
  }

  /** The worst level is the worst: ALERT when some row is at ALERT, else WARNING when some row is
      at WARNING, else whatever the first row says. */
  lemma WorstLevelIs(group: seq<Row>)
    requires |group| > 0
    ensures WorstLevel(group) == if "ALERT" in Levels(group) then "ALERT"
                                 else if "WARNING" in Levels(group) then "WARNING"
                                 else LevelOf(group[0])
  {
    var levels := Levels(group);
    FirstMaxProperties(LevelRank, levels);
    var w := FirstMax(LevelRank, levels);
    if "ALERT" in levels {
      var i :| 0 <= i < |levels| && levels[i] == "ALERT";
    } else if "WARNING" in levels {
      var i :| 0 <= i < |levels| && levels[i] == "WARNING";
    }
  }

  predicate AllUnknown(rows: seq<Row>, date: string, vector: string) {
    forall i :: 0 <= i < |rows| ==> InBlock(date, vector)(rows[i]) && LevelRank(LevelOf(rows[i])) == 0
  }

  /** When no row has a level that ranks, the first row's spelling is the one printed. */
  lemma FirstSpelling(rows: seq<Row>, date: string, vector: string)
    requires |rows| > 0 && AllUnknown(rows, date, vector)
    ensures TotalsOf(Subset(rows, date, vector)).worstLevel == LevelOf(rows[0])
  {
    FilterAll(InBlock(date, vector), rows);
    TotalsLevel(rows);
    FirstMaxProperties(LevelRank, Levels(rows));
    NoRank(rows);
  }

  lemma NoRank(rows: seq<Row>)
    requires |rows| > 0 && forall i :: 0 <= i < |rows| ==> LevelRank(LevelOf(rows[i])) == 0
    ensures forall l :: l in Levels(rows) ==> LevelRank(l) == 0
  {
    MapMembers(LevelOf, rows);
  }

  /** Rows whose levels all rank lowest print another report when one spelled differently is first. */
  lemma SpellingsDisagree(a: seq<Row>, b: seq<Row>, date: string, vector: string, threshold: Option<string>, topN: nat)
    requires |a| > 0 && |b| > 0 && AllUnknown(a, date, vector) && AllUnknown(b, date, vector)
    requires LevelOf(a[0]) != LevelOf(b[0])
    ensures Days(a, [date], [vector], threshold, topN) != Days(b, [date], [vector], threshold, topN)
  {
    FirstSpelling(a, date, vector);
    FirstSpelling(b, date, vector);
    BlocksDiffer(b, a, [date], [vector], threshold, topN, date, vector);
  }

  predicate Unknown(r: Row, date: string, vector: string) {
    InBlock(date, vector)(r) && LevelRank(LevelOf(r)) == 0
  }

  lemma PairUnknown(r: Row, s: Row, date: string, vector: string)
    requires Unknown(r, date, vector) && Unknown(s, date, vector)
    ensures AllUnknown([r, s], date, vector) && multiset([r, s]) == multiset([s, r])
  {
  }

  /** Two rows, two spellings: the report depends on which comes first. */
  lemma TwoSpellings(r: Row, s: Row, date: string, vector: string, threshold: Option<string>, topN: nat)
    requires Unknown(r, date, vector) && Unknown(s, date, vector) && LevelOf(r) != LevelOf(s)
    ensures multiset([r, s]) == multiset([s, r])
    ensures Days([r, s], [date], [vector], threshold, topN) != Days([s, r], [date], [vector], threshold, topN)
  {
    PairUnknown(r, s, date, vector);
    PairUnknown(s, r, date, vector);
    SpellingsDisagree([r, s], [s, r], date, vector, threshold, topN);
  }

  lemma UnknownRow(date: string, vector: string, level: string) returns (r: Row)
    requires level != "" && LevelRank(level) == 0
    ensures Unknown(r, date, vector) && LevelOf(r) == level
  {
    r := Row(Some(date), Some(vector), None, None, None, None, None, Some(level));
  }

  /** One row that says `low` and one that says `calm`. */
  lemma TwoSpellingsExample(threshold: Option<string>, topN: nat) returns (r: Row, s: Row)
    ensures LevelOf(r) == "low" && LevelOf(s) == "calm"
    ensures Days([r, s], ["2026-01-01"], ["wind"], threshold, topN)
        != Days([s, r], ["2026-01-01"], ["wind"], threshold, topN)
  {
    r := UnknownRow("2026-01-01", "wind", "low");
    s := UnknownRow("2026-01-01", "wind", "calm");
    assert "low"[0] != "calm"[0];
    TwoSpellings(r, s, "2026-01-01", "wind", threshold, topN);
  }
}
