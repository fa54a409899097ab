/** What a block of the report prints, read off the rows' own fields: which units, which lines,
    their figures and their order. */
module ReportBody {
  import opened Options
  import opened Sequences
  import opened Rounding
  import opened Exposure
  import opened ExposureOrder
  import opened ExposureSums
  import opened ExposureTop

  // ----- Fields of a row -----

  /** A text field holds this text; an absent one holds the empty text. */
  predicate Says(field: Option<string>, text: string) {
    field == Some(text) || (field.None? && text == "")
  }

  function UnitIs(unit: string): Row -> bool { (r: Row) => Says(r.unit, unit) }
  function LineIs(line: string): Row -> bool { (r: Row) => Says(r.line, line) }

  function OrZero(km: Option<real>): real {
    if km == None then 0.0 else km.value
  }

  function KmTotal(): Row -> real { (r: Row) => OrZero(r.kmTotal) }
  function KmAlert(): Row -> real { (r: Row) => OrZero(r.kmAlert) }
  function KmWarning(): Row -> real { (r: Row) => OrZero(r.kmWarning) }

  // ----- Figures of some rows -----

  function SharePrinted(part: real, whole: real): Option<real> {
    if whole == 0.0 then None else Some(Round1(100.0 * part / whole))
  }

  /** The kilometres, summed and rounded to hundredths. */
  predicate Kilometres(rs: seq<Row>, kmTotal: real, kmAlert: real, kmWarning: real) {
    && kmTotal == Round2(SumOf(KmTotal(), rs))
    && kmAlert == Round2(SumOf(KmAlert(), rs))
    && kmWarning == Round2(SumOf(KmWarning(), rs))
  }

  /** The share at ALERT and the index, from the unrounded sums, rounded to tenths. */
  predicate AlertAndIndex(rs: seq<Row>, pctAlert: Option<real>, riskIndex: Option<real>) {
    var t, a, w := SumOf(KmTotal(), rs), SumOf(KmAlert(), rs), SumOf(KmWarning(), rs);
    && pctAlert == SharePrinted(a, t)
    && riskIndex == SharePrinted(a + 0.5 * w, t)
  }

  predicate WarningShare(rs: seq<Row>, pctWarning: Option<real>) {
    pctWarning == SharePrinted(SumOf(KmWarning(), rs), SumOf(KmTotal(), rs))
  }

  predicate SomeAt(rs: seq<Row>, level: string) {
    exists r :: r in rs && r.worstLevel == Some(level)
  }

  /** ALERT when a row says so, else WARNING when one does, else what the first row says. */
  predicate Worst(rs: seq<Row>, level: string) {
    if SomeAt(rs, "ALERT") then level == "ALERT"
    else if SomeAt(rs, "WARNING") then level == "WARNING"
    else rs != [] && level == if Says(rs[0].worstLevel, "") then "NORMAL" else rs[0].worstLevel.value
  }

  lemma WorstSays(rs: seq<Row>)
    requires rs != []
    ensures Worst(rs, WorstLevel(rs))
  {
    WorstLevelIs(rs);
    MapMembers(LevelOf, rs);
    forall level | level == "ALERT" || level == "WARNING" ensures SomeAt(rs, level) <==> level in Levels(rs) {
      if r :| r in rs && r.worstLevel == Some(level) {
        assert LevelOf(r) == level;
      }
    }
  }

  lemma SameSums(rs: seq<Row>)
    ensures SumOf(Total, rs) == SumOf(KmTotal(), rs)
    ensures SumOf(Alert, rs) == SumOf(KmAlert(), rs)
    ensures SumOf(Warning, rs) == SumOf(KmWarning(), rs)
  {
    SumCongruent(Total, KmTotal(), rs);
    SumCongruent(Alert, KmAlert(), rs);
    SumCongruent(Warning, KmWarning(), rs);
  }

  lemma SharesPrinted(t: real, a: real, w: real)
    ensures Pct(a, t) == SharePrinted(a, t) && Pct(w, t) == SharePrinted(w, t)
    ensures Index(t, a, w) == SharePrinted(a + 0.5 * w, t)
  {
  }

  lemma EntryFigures(k: string, rs: seq<Row>, lines: seq<LineIn>)
    requires rs != []
    ensures var e := EntryFrom(k, rs, lines);
      && e.nTratte == |rs| && Kilometres(rs, e.kmTotal, e.kmAlert, e.kmWarning)
      && AlertAndIndex(rs, e.pctAlert, e.riskIndex) && WarningShare(rs, e.pctWarning)
      && Worst(rs, e.worstLevel)
  {
    SameSums(rs);
    WorstSays(rs);
    SharesPrinted(SumOf(Total, rs), SumOf(Alert, rs), SumOf(Warning, rs));
  }

  // ----- The groups, by field -----

  lemma UnitRows(subset: seq<Row>, unit: string)
    ensures GroupRows(subset, ByUnit, unit) == Filter(UnitIs(unit), subset)
  {
    FilterCongruent(InGroup(ByUnit, unit), UnitIs(unit), subset);
  }

  lemma LineRows(subset: seq<Row>, line: string)
    ensures GroupRows(subset, ByLine, line) == Filter(LineIs(line), subset)
  {
    FilterCongruent(InGroup(ByLine, line), LineIs(line), subset);
  }

  lemma KeyHasRows(subset: seq<Row>, g: Grain, k: string)
    requires k in Keys(subset, g)
    ensures GroupRows(subset, g, k) != []
  {
    KeysMembers(subset, g);
    var r :| r in subset && Key(g, r) == k;
    FilterMembers(InGroup(g, k), subset);
    assert r in GroupRows(subset, g, k);
  }

  predicate AtRiskIn(rs: seq<Row>, line: string) {
    var ls := Filter(LineIs(line), rs);
    ls != [] && SumOf(KmAlert(), ls) + SumOf(KmWarning(), ls) > 0.0
  }

  function AtRiskOf(rs: seq<Row>): string -> bool { (line: string) => AtRiskIn(rs, line) }

  function IndexOfLine(rs: seq<Row>, line: string): Option<real> {
    var ls := Filter(LineIs(line), rs);
    SharePrinted(SumOf(KmAlert(), ls) + 0.5 * SumOf(KmWarning(), ls), SumOf(KmTotal(), ls))
  }

  function AlertOfLine(rs: seq<Row>, line: string): real {
    SumOf(KmAlert(), Filter(LineIs(line), rs))
  }

  /** A missing index ranks as minus one. */
  function Ranked(index: Option<real>): real {
    if index == None then -1.0 else index.value
  }

  /** By the index, then by the kilometres at ALERT, then by name. */
  predicate Outranks(rs: seq<Row>, a: string, b: string) {
    var x, y := Ranked(IndexOfLine(rs, a)), Ranked(IndexOfLine(rs, b));
    x > y || (x == y && (AlertOfLine(rs, a) > AlertOfLine(rs, b)
                         || (AlertOfLine(rs, a) == AlertOfLine(rs, b) && StrLe(a, b))))
  }

  /** All lines of the rows, each once, in rank order. */
  ghost predicate RankOrder(rs: seq<Row>, order: seq<string>) {
    && NoDup(order)
    && (forall k :: k in order <==> exists r :: r in rs && Says(r.line, k))
    && (forall i, j :: 0 <= i < j < |order| ==> Outranks(rs, order[i], order[j]))
  }

  /** A unit names, of the first three of its lines in rank order, those with kilometres at risk. */
  ghost predicate WorstNamed(rs: seq<Row>, names: seq<string>) {
    exists order :: RankOrder(rs, order) && names == Filter(AtRiskOf(rs), First(3, order))
  }

  predicate InnerSums(ls: seq<Row>, l: LineIn) {
    && l.kmTotal == SumOf(KmTotal(), ls)
    && l.kmAlert == SumOf(KmAlert(), ls) && l.kmWarning == SumOf(KmWarning(), ls)
    && l.riskIndex == SharePrinted(l.kmAlert + 0.5 * l.kmWarning, l.kmTotal)
  }

  lemma LineOfSums(k: string, ls: seq<Row>)
    ensures InnerSums(ls, LineOf(k, ls))
  {
    SameSums(ls);
    SharesPrinted(SumOf(Total, ls), SumOf(Alert, ls), SumOf(Warning, ls));
  }

  /** A line inside a unit has the unrounded sums of its own rows. */
  lemma LineSumsOf(rs: seq<Row>, l: LineIn)
    requires l in LinesWithin(rs)
    ensures Filter(LineIs(l.key), rs) != [] && InnerSums(Filter(LineIs(l.key), rs), l)
  {
    LineAt(rs, l);
    LineRows(rs, l.key);
    KeyHasRows(rs, ByLine, l.key);
    LineOfSums(l.key, GroupRows(rs, ByLine, l.key));
  }

  /** Every line of the rows is ranked. */
  lemma EveryLineRanked(rs: seq<Row>, r: Row)
    requires r in rs
    ensures exists l :: l in LinesWithin(rs) && Says(r.line, l.key)
  {
    KeysMembers(rs, ByLine);
    var k := Key(ByLine, r);
    LineLeOrder();
    KeyedShape(LineLe, LineInKey, LineFrom(rs), Keys(rs, ByLine));
    assert LineInKey(LineFrom(rs)(k)) == k;
    assert LineFrom(rs)(k) in LinesWithin(rs);
  }

  lemma RankedLines(rs: seq<Row>)
    ensures RankOrder(rs, Map(LineKey(), LinesWithin(rs)))
  {
    var lines := LinesWithin(rs);
    var order := Map(LineKey(), lines);
    LinesShape(rs);
    KeysNoDup(lines);
    MapMembers(LineKey(), lines);
    forall k ensures k in order <==> exists r :: r in rs && Says(r.line, k) {
      LineNamed(rs, k);
    }
    forall i, j | 0 <= i < j < |order| ensures Outranks(rs, order[i], order[j]) {
      assert lines[i] in lines && lines[j] in lines;
      LineOutranks(rs, lines[i], lines[j]);
    }
  }

  lemma HasLine(rs: seq<Row>, k: string)
    ensures Filter(LineIs(k), rs) != [] <==> exists r :: r in rs && Says(r.line, k)
  {
    FilterMembers(LineIs(k), rs);
    HasMember(Filter(LineIs(k), rs));
    if r :| r in rs && Says(r.line, k) {
      assert r in Filter(LineIs(k), rs);
    }
  }

  lemma NamedHasRow(rs: seq<Row>, k: string)
    requires k in Map(LineKey(), LinesWithin(rs))
    ensures Filter(LineIs(k), rs) != []
  {
    MapMembers(LineKey(), LinesWithin(rs));
    var l :| l in LinesWithin(rs) && LineKey()(l) == k;
    LineSumsOf(rs, l);
  }

  lemma RowIsNamed(rs: seq<Row>, r: Row, k: string)
    requires r in rs && Says(r.line, k)
    ensures k in Map(LineKey(), LinesWithin(rs))
  {
    EveryLineRanked(rs, r);
    MapMembers(LineKey(), LinesWithin(rs));
    var l :| l in LinesWithin(rs) && Says(r.line, l.key);
    assert LineKey()(l) == k;
  }

  lemma LineNamed(rs: seq<Row>, k: string)
    ensures k in Map(LineKey(), LinesWithin(rs)) <==> exists r :: r in rs && Says(r.line, k)
  {
    HasLine(rs, k);
    if k in Map(LineKey(), LinesWithin(rs)) {
      NamedHasRow(rs, k);
    }
    if r :| r in rs && Says(r.line, k) {
      RowIsNamed(rs, r, k);
    }
  }

  lemma LineOutranks(rs: seq<Row>, l: LineIn, m: LineIn)
    requires l in LinesWithin(rs) && m in LinesWithin(rs) && LineLe(l, m)
    ensures Outranks(rs, l.key, m.key)
  {
    LineSumsOf(rs, l);
    LineSumsOf(rs, m);
  }

  lemma WorstOf(rs: seq<Row>)
    ensures WorstNamed(rs, WorstLines(LinesWithin(rs)))
  {
    var lines := LinesWithin(rs);
    var order := Map(LineKey(), lines);
    RankedLines(rs);
    var first := First(3, lines);
    assert Map(LineKey(), first) == First(3, order);
    forall i | 0 <= i < |first| ensures AtRiskOf(rs)(LineKey()(first[i])) == LineHasKm()(first[i]) {
      assert first[i] == lines[i] && lines[i] in lines;
      LineSumsOf(rs, lines[i]);
    }
    FilterMap(AtRiskOf(rs), LineHasKm(), LineKey(), first);
  }

  lemma KeysNoDup(lines: seq<LineIn>)
    requires DistinctKeys(LineInKey, lines)
    ensures NoDup(Map(LineKey(), lines))
  {
    var names := Map(LineKey(), lines);
    forall i, j | 0 <= i < j < |names| ensures names[i] != names[j] {
      assert LineInKey(lines[i]) != LineInKey(lines[j]);
    }
  }

  // ----- What a block prints -----

  ghost predicate UnitPrinted(subset: seq<Row>, x: UnitRow) {
    var rs := Filter(UnitIs(x.unit), subset);
    && rs != [] && x.nTratte == |rs| && Kilometres(rs, x.kmTotal, x.kmAlert, x.kmWarning)
    && AlertAndIndex(rs, x.pctAlert, x.riskIndex) && WarningShare(rs, x.pctWarning)
    && Worst(rs, x.worstLevel) && WorstNamed(rs, x.worstLines)
  }

  ghost predicate UnitsNamed(rs: seq<Row>, units: seq<string>) {
    && Sorted(StrLe, units) && NoDup(units)
    && forall u :: u in units <==> u != "" && NamedIn(rs, u)
  }

  ghost predicate LinePrinted(subset: seq<Row>, x: LineRow) {
    var rs := Filter(LineIs(x.line), subset);
    && rs != [] && Kilometres(rs, x.kmTotal, x.kmAlert, x.kmWarning)
    && AlertAndIndex(rs, x.pctAlert, x.riskIndex)
    && Worst(rs, x.worstLevel) && UnitsNamed(rs, x.units)
  }

  ghost predicate TotalsPrinted(subset: seq<Row>, t: Totals) {
    && t.nTratte == |subset| && Kilometres(subset, t.kmTotal, t.kmAlert, t.kmWarning)
    && AlertAndIndex(subset, t.pctAlert, t.riskIndex) && WarningShare(subset, t.pctWarning)
    && if subset == [] then t.worstLevel == "NORMAL" else Worst(subset, t.worstLevel)
  }

  /** The kilometres a floor counts. */
  function Counting(threshold: Option<string>, kmAlert: real, kmWarning: real): real {
    if threshold == Some("WARNING") then kmAlert + kmWarning else kmAlert
  }

  function UnitNameOf(): UnitRow -> string { (x: UnitRow) => x.unit }
  function LineNameOf(): LineRow -> string { (x: LineRow) => x.line }

  /** One entry per unit of the rows. */
  ghost predicate UnitsPrinted(subset: seq<Row>, units: seq<UnitRow>) {
    && NoDup(Map(UnitNameOf(), units))
    && (forall x :: x in units ==> UnitPrinted(subset, x))
    && (forall r :: r in subset ==> exists x :: x in units && Says(r.unit, x.unit))
  }

  /** Some lines that count at the floor, none twice. */
  ghost predicate LinesPrinted(subset: seq<Row>, threshold: Option<string>, topN: nat, lines: seq<LineRow>) {
    && NoDup(Map(LineNameOf(), lines)) && |lines| <= topN
    && (forall x :: x in lines ==> LinePrinted(subset, x) && Counting(threshold, x.kmAlert, x.kmWarning) > 0.0)
  }

  ghost predicate BlockPrinted(subset: seq<Row>, threshold: Option<string>, topN: nat, b: Block) {
    && UnitsPrinted(subset, b.units)
    && LinesPrinted(subset, threshold, topN, b.topLines)
    && TotalsPrinted(subset, b.totals)
  }

  lemma UnitIsPrinted(subset: seq<Row>, e: Entry)
    requires e in Summary(subset, ByUnit)
    ensures UnitPrinted(subset, ToUnit()(e))
  {
    EntryAt(subset, ByUnit, e);
    UnitRows(subset, e.key);
    KeyHasRows(subset, ByUnit, e.key);
    var rs := Filter(UnitIs(e.key), subset);
    EntryFigures(e.key, rs, LinesWithin(rs));
    WorstOf(rs);
  }

  lemma LineFiguresPrinted(subset: seq<Row>, e: Entry)
    requires e in Summary(subset, ByLine)
    ensures var rs := Filter(LineIs(e.key), subset);
      && rs != [] && Kilometres(rs, e.kmTotal, e.kmAlert, e.kmWarning)
      && AlertAndIndex(rs, e.pctAlert, e.riskIndex) && Worst(rs, e.worstLevel)
  {
    EntryAt(subset, ByLine, e);
    LineRows(subset, e.key);
    KeyHasRows(subset, ByLine, e.key);
    EntryFigures(e.key, Filter(LineIs(e.key), subset), []);
  }

  lemma LineUnitsPrinted(subset: seq<Row>, e: Entry)
    requires e in Summary(subset, ByLine)
    ensures UnitsNamed(Filter(LineIs(e.key), subset), e.units)
  {
    LineRows(subset, e.key);
    LineUnits(subset, e);
    forall u | u != "" ensures NamesUnit(Filter(LineIs(e.key), subset), u)
      <==> NamedIn(Filter(LineIs(e.key), subset), u) {
      UnitNamed(Filter(LineIs(e.key), subset), u);
    }
  }

  predicate NamedIn(rs: seq<Row>, u: string) {
    exists r :: r in rs && r.unit == Some(u)
  }

  lemma UnitNamed(rs: seq<Row>, u: string)
    requires u != ""
    ensures NamesUnit(rs, u) <==> NamedIn(rs, u)
  {
    if r :| r in rs && r.unit == Some(u) {
      assert Text(r.unit) == u;
    }
  }

  lemma LineIsPrinted(subset: seq<Row>, e: Entry)
    requires e in Summary(subset, ByLine)
    ensures LinePrinted(subset, ToLine()(e))
  {
    LineFiguresPrinted(subset, e);
    LineUnitsPrinted(subset, e);
  }

  lemma TotalsArePrinted(subset: seq<Row>)
    ensures TotalsPrinted(subset, TotalsOf(subset))
  {
    TotalsEntry(subset);
    if subset == [] {
      RoundZero();
    } else {
      EntryFigures("*", subset, LinesWithin(subset));
    }
  }

  lemma UnitNames(subset: seq<Row>)
    ensures NoDup(Map(UnitNameOf(), Map(ToUnit(), Summary(subset, ByUnit))))
  {
    var s := Summary(subset, ByUnit);
    SummaryShape(subset, ByUnit);
    forall i, j | 0 <= i < j < |s| ensures s[i].key != s[j].key {
      assert EntryKey(s[i]) != EntryKey(s[j]);
    }
  }

  lemma UnitListed(subset: seq<Row>, r: Row)
    requires r in subset
    ensures exists x :: x in Map(ToUnit(), Summary(subset, ByUnit)) && Says(r.unit, x.unit)
  {
    var k := Key(ByUnit, r);
    KeysMembers(subset, ByUnit);
    EntryFor(subset, ByUnit, k);
    UnitKey(subset, k);
    MapMembers(ToUnit(), Summary(subset, ByUnit));
    assert ToUnit()(EntryOf(subset, ByUnit, k)) in Map(ToUnit(), Summary(subset, ByUnit));
  }

  lemma UnitKey(subset: seq<Row>, k: string)
    ensures ToUnit()(EntryOf(subset, ByUnit, k)).unit == k
  {
  }

  lemma TopLineNames(subset: seq<Row>, threshold: Option<string>, topN: nat)
    ensures NoDup(Map(LineNameOf(), Map(ToLine(), TopEntries(subset, threshold, topN))))
  {
    SummaryShape(subset, ByLine);
    FilterDistinctKeys(EntryKey, Qualifies(threshold), Summary(subset, ByLine));
    var q := Filter(Qualifies(threshold), Summary(subset, ByLine));
    var top := First(topN, q);
    forall i, j | 0 <= i < j < |top| ensures top[i].key != top[j].key {
      assert top[i] == q[i] && top[j] == q[j];
      assert EntryKey(q[i]) != EntryKey(q[j]);
    }
  }

  lemma TopLinesArePrinted(subset: seq<Row>, threshold: Option<string>, topN: nat, x: LineRow)
    requires x in Map(ToLine(), TopEntries(subset, threshold, topN))
    ensures LinePrinted(subset, x) && Counting(threshold, x.kmAlert, x.kmWarning) > 0.0
  {
    var top := TopEntries(subset, threshold, topN);
    MapMembers(ToLine(), top);
    var e :| e in top && ToLine()(e) == x;
    FilterMembers(Qualifies(threshold), Summary(subset, ByLine));
    assert e in Filter(Qualifies(threshold), Summary(subset, ByLine));
    LineIsPrinted(subset, e);
  }

  lemma UnitsArePrinted(subset: seq<Row>)
    ensures UnitsPrinted(subset, Map(ToUnit(), Summary(subset, ByUnit)))
  {
    var units := Map(ToUnit(), Summary(subset, ByUnit));
    UnitNames(subset);
    forall r | r in subset ensures exists x :: x in units && Says(r.unit, x.unit) {
      UnitListed(subset, r);
    }
    MapMembers(ToUnit(), Summary(subset, ByUnit));
    forall x | x in units ensures UnitPrinted(subset, x) {
      var e :| e in Summary(subset, ByUnit) && ToUnit()(e) == x;
      UnitIsPrinted(subset, e);
    }
  }

  lemma LinesArePrinted(subset: seq<Row>, threshold: Option<string>, topN: nat)
    ensures LinesPrinted(subset, threshold, topN, Map(ToLine(), TopEntries(subset, threshold, topN)))
  {
    TopLineNames(subset, threshold, topN);
    forall x | x in Map(ToLine(), TopEntries(subset, threshold, topN))
      ensures LinePrinted(subset, x) && Counting(threshold, x.kmAlert, x.kmWarning) > 0.0
    {
      TopLinesArePrinted(subset, threshold, topN, x);
    }
  }

  /** A block prints exactly the units of its rows, each with the figures of its own rows, lines of
      its rows that count at the floor, each with the figures of its own rows, and the figures of
      all its rows. */
  lemma BlockPrints(subset: seq<Row>, vector: string, threshold: Option<string>, topN: nat)
    ensures BlockFor(subset, vector, threshold, topN).riskVector == vector
    ensures BlockPrinted(subset, threshold, topN, BlockFor(subset, vector, threshold, topN))
  {
    UnitsArePrinted(subset);
    LinesArePrinted(subset, threshold, topN);
    TotalsArePrinted(subset);
  }

  // ----- The order, and the lines left out -----

  /** Units by falling index, a missing one last, ties by name. */
  ghost predicate UnitsRanked(units: seq<UnitRow>) {
    forall i, j :: 0 <= i < j < |units| ==>
      && NoGreater(units[j].riskIndex, units[i].riskIndex)
      && (units[i].riskIndex == units[j].riskIndex ==> StrLe(units[i].unit, units[j].unit))
  }

  ghost predicate LinesRankedAs(lines: seq<LineRow>) {
    forall i, j :: 0 <= i < j < |lines| ==>
      && NoGreater(lines[j].riskIndex, lines[i].riskIndex)
      && (lines[i].riskIndex == lines[j].riskIndex ==> StrLe(lines[i].line, lines[j].line))
  }

  /** A line whose published kilometres count at the floor. */
  ghost predicate LineCounts(subset: seq<Row>, line: string, threshold: Option<string>) {
    var rs := Filter(LineIs(line), subset);
    rs != [] && Counting(threshold, Round2(SumOf(KmAlert(), rs)), Round2(SumOf(KmWarning(), rs))) > 0.0
  }

  ghost predicate Lists(lines: seq<LineRow>, line: string) {
    exists x :: x in lines && x.line == line
  }

  /** A line that counts is left out only when the list is full of lines with no smaller index. */
  ghost predicate NoneMissing(subset: seq<Row>, threshold: Option<string>, topN: nat, lines: seq<LineRow>) {
    forall line :: LineCounts(subset, line, threshold) && !Lists(lines, line) ==>
      |lines| == topN && forall x :: x in lines ==> NoGreater(IndexOfLine(subset, line), x.riskIndex)
  }

  lemma UnitsAreRanked(subset: seq<Row>)
    requires ValidRows(subset)
    ensures UnitsRanked(Map(ToUnit(), Summary(subset, ByUnit)))
  {
    SummaryRanked(subset, ByUnit);
  }

  lemma LinesAreRanked(subset: seq<Row>, threshold: Option<string>, topN: nat)
    requires ValidRows(subset)
    ensures LinesRankedAs(Map(ToLine(), TopEntries(subset, threshold, topN)))
  {
    var s := Summary(subset, ByLine);
    var q, top := Filter(Qualifies(threshold), s), TopEntries(subset, threshold, topN);
    SummaryShape(subset, ByLine);
    FilterSorted(EntryLe, Qualifies(threshold), s);
    FilterMembers(Qualifies(threshold), s);
    forall i, j | 0 <= i < j < |top|
      ensures NoGreater(top[j].riskIndex, top[i].riskIndex)
      ensures top[i].riskIndex == top[j].riskIndex ==> StrLe(top[i].key, top[j].key)
    {
      assert top[i] == q[i] && top[j] == q[j] && EntryLe(q[i], q[j]);
      assert q[i] in q && q[j] in q;
      EntriesRanked(subset, ByLine, top[i], top[j]);
    }
  }

  lemma LineHasEntry(subset: seq<Row>, line: string) returns (e: Entry)
    requires Filter(LineIs(line), subset) != []
    ensures e in Summary(subset, ByLine) && e.key == line
  {
    var rs := Filter(LineIs(line), subset);
    FilterMembers(LineIs(line), subset);
    KeysMembers(subset, ByLine);
    assert rs[0] in rs;
    assert Key(ByLine, rs[0]) == line;
    EntryFor(subset, ByLine, line);
    EntryOfKey(subset, line);
    e := EntryOf(subset, ByLine, line);
  }

  lemma EntryOfKey(subset: seq<Row>, line: string)
    ensures EntryOf(subset, ByLine, line).key == line
  {
  }

  lemma PrintedCounts(subset: seq<Row>, e: Entry, threshold: Option<string>)
    requires LinePrinted(subset, ToLine()(e))
    ensures LineCounts(subset, e.key, threshold) <==> Qualifies(threshold)(e)
    ensures e.riskIndex == IndexOfLine(subset, e.key)
  {
  }

  /** The entry of a line that counts. */
  lemma CountingEntry(subset: seq<Row>, line: string, threshold: Option<string>) returns (e: Entry)
    requires LineCounts(subset, line, threshold)
    ensures e in Summary(subset, ByLine) && e.key == line && Qualifies(threshold)(e)
    ensures e.riskIndex == IndexOfLine(subset, line)
  {
    e := LineHasEntry(subset, line);
    LineIsPrinted(subset, e);
    PrintedCounts(subset, e, threshold);
  }

  lemma LeftOut(subset: seq<Row>, threshold: Option<string>, topN: nat, line: string)
    requires ValidRows(subset) && LineCounts(subset, line, threshold)
    ensures var lines := Map(ToLine(), TopEntries(subset, threshold, topN));
      !Lists(lines, line) ==>
        |lines| == topN && forall x :: x in lines ==> NoGreater(IndexOfLine(subset, line), x.riskIndex)
  {
    var top := TopEntries(subset, threshold, topN);
    var lines := Map(ToLine(), top);
    var e := CountingEntry(subset, line, threshold);
    TopLinesCut(subset, threshold, topN);
    FilterMembers(Qualifies(threshold), Summary(subset, ByLine));
    MapMembers(ToLine(), top);
    if e in top {
      assert ToLine()(e) in lines;
    } else if !Lists(lines, line) {
      forall x | x in lines ensures NoGreater(IndexOfLine(subset, line), x.riskIndex) {
        var l :| l in top && ToLine()(l) == x;
      }
      NotCut(topN, Filter(Qualifies(threshold), Summary(subset, ByLine)), e);
    }
  }

  lemma NotCut<T>(n: nat, q: seq<T>, e: T)
    requires e in q && e !in First(n, q)
    ensures |First(n, q)| == n
  {
  }

  /** On plausible rows the units and the lines are in rank order, and no line that counts is
      missing while a lesser one is listed or a place is free. */
  lemma BlockRanks(subset: seq<Row>, vector: string, threshold: Option<string>, topN: nat)
    requires ValidRows(subset)
    ensures var b := BlockFor(subset, vector, threshold, topN);
      UnitsRanked(b.units) && LinesRankedAs(b.topLines) && NoneMissing(subset, threshold, topN, b.topLines)
  {
    UnitsAreRanked(subset);
    LinesAreRanked(subset, threshold, topN);
    forall line | LineCounts(subset, line, threshold)
      ensures var lines := Map(ToLine(), TopEntries(subset, threshold, topN));
        !Lists(lines, line) ==>
          |lines| == topN && forall x :: x in lines ==> NoGreater(IndexOfLine(subset, line), x.riskIndex)
    {
      LeftOut(subset, threshold, topN, line);
    }
  }

  // ----- The days of a report -----

  function OfBlock(date: string, vector: string): Row -> bool {
    (r: Row) => r.date == Some(date) && r.riskVector == Some(vector)
  }

  /** Each date has a block per hazard, and each block prints the rows of its own date and hazard. */
  lemma DaysPrint(rows: seq<Row>, dates: seq<string>, vectors: seq<string>, threshold: Option<string>, topN: nat,
                  i: nat, j: nat)
    requires i < |dates| && j < |vectors|
    ensures var days := Days(rows, dates, vectors, threshold, topN);
      && |days| == |dates| && days[i].date == dates[i] && |days[i].vectors| == |vectors|
      && days[i].vectors[j].riskVector == vectors[j]
      && BlockPrinted(Filter(OfBlock(dates[i], vectors[j]), rows), threshold, topN, days[i].vectors[j])
  {
    var day := DayIn(rows, vectors, threshold, topN)(dates[i]);
    assert Days(rows, dates, vectors, threshold, topN)[i] == day;
    assert day.vectors == Map(BlockIn(rows, dates[i], threshold, topN), vectors);
    FilterCongruent(InBlock(dates[i], vectors[j]), OfBlock(dates[i], vectors[j]), rows);
    BlockPrints(Filter(OfBlock(dates[i], vectors[j]), rows), vectors[j], threshold, topN);
  }

  // ----- Triggering -----

  /** The row is about the hazard and has kilometres at or above the floor: at ALERT, and at WARNING
      too when that is the floor. */
  predicate RowHits(r: Row, vector: string, threshold: Option<string>) {
    r.riskVector == Some(vector) && Counting(threshold, OrZero(r.kmAlert), OrZero(r.kmWarning)) > 0.0
  }

  /** A hazard triggers exactly when it is watched and some row hits it. */
  lemma TriggersExactly(rows: seq<Row>, threshold: Option<string>, types: seq<string>)
    ensures forall v :: v in Triggered(rows, threshold, types)
                   <==> v in types && exists r :: r in rows && RowHits(r, v, threshold)
  {
    FilterMembers(IsHit(rows, threshold), types);
    forall r: Row ensures KmAtOrAbove(r, threshold) == Counting(threshold, OrZero(r.kmAlert), OrZero(r.kmWarning)) {
    }
  }
}
