/** The exposure table and its summaries (`services/risk_summary.py`): rows grouped by unit,
    by line or as a whole, kilometres summed, the index recomputed from the sums, everything
    published rounded and sorted. Each loop of the source is a method here, proved equal to a
    function over the rows; the other modules reason about those functions. */
module Exposure {
  import opened Options
  import opened Sequences
  import opened Rounding

  /** One tratta row. An absent field, and a kilometre field that is no number, is None. */
  datatype Row = Row(
    date: Option<string>,
    riskVector: Option<string>,
    unit: Option<string>,
    line: Option<string>,
    kmTotal: Option<real>,
    kmAlert: Option<real>,
    kmWarning: Option<real>,
    worstLevel: Option<string>)

  /** The three groupings: by operational unit, by line, and the one group of the totals. */
  datatype Grain = ByUnit | ByLine | Whole

  function Num(v: Option<real>): real {
    match v
    case Some(x) => x
    case None => 0.0
  }

  function Text(v: Option<string>): string {
    match v
    case Some(x) => x
    case None => ""
  }

  function Total(r: Row): real { Num(r.kmTotal) }
  function Alert(r: Row): real { Num(r.kmAlert) }
  function Warning(r: Row): real { Num(r.kmWarning) }

  /** A level that is absent or empty reads as NORMAL; any other spelling is kept. */
  function LevelOf(r: Row): string {
    if Text(r.worstLevel) == "" then "NORMAL" else Text(r.worstLevel)
  }

  function LevelRank(level: string): nat {
    if level == "ALERT" then 2 else if level == "WARNING" then 1 else 0
  }

  // ----- Thresholds -----

  /** A threshold is a floor; one that is not recognised is the strict one. */
  function Floor(threshold: Option<string>): string {
    if threshold == Some("WARNING") then "WARNING" else "ALERT"
  }

  function KmCounted(alert: real, warning: real, threshold: Option<string>): real {
    if Floor(threshold) == "WARNING" then alert + warning else alert
  }

  function KmAtOrAbove(r: Row, threshold: Option<string>): real {
    KmCounted(Alert(r), Warning(r), threshold)
  }

  predicate HasHit(rows: seq<Row>, threshold: Option<string>, vector: string) {
    exists r :: r in rows && r.riskVector == Some(vector) && KmAtOrAbove(r, threshold) > 0.0
  }

  function IsHit(rows: seq<Row>, threshold: Option<string>): string -> bool {
    (v: string) => HasHit(rows, threshold, v)
  }

  function Triggered(rows: seq<Row>, threshold: Option<string>, riskTypes: seq<string>): seq<string> {
    Filter(IsHit(rows, threshold), riskTypes)
  }

  method TriggeredVectors(rows: seq<Row>, threshold: Option<string>, riskTypes: seq<string>) returns (out: seq<string>)
    ensures out == Triggered(rows, threshold, riskTypes)
  {
    out := [];
    for i := 0 to |riskTypes|
      invariant out == Triggered(rows, threshold, riskTypes[..i])
    {
      assert riskTypes[..i + 1][..i] == riskTypes[..i];
      if HasHit(rows, threshold, riskTypes[i]) {
        out := out + [riskTypes[i]];
      }
    }
    assert riskTypes[..|riskTypes|] == riskTypes;
  }

  // ----- Groups -----

  function Key(g: Grain, r: Row): string {
    match g
    case ByUnit => Text(r.unit)
    case ByLine => Text(r.line)
    case Whole => "*"
  }

  function KeyIn(g: Grain): Row -> string { (r: Row) => Key(g, r) }

  function InGroup(g: Grain, k: string): Row -> bool { (r: Row) => Key(g, r) == k }

  /** The group keys, in order of first appearance. */
  function Keys(rows: seq<Row>, g: Grain): (ks: seq<string>)
    ensures NoDup(ks)
  {
    Distinct(Map(KeyIn(g), rows))
  }

  function GroupRows(rows: seq<Row>, g: Grain, k: string): seq<Row> {
    Filter(InGroup(g, k), rows)
  }

  lemma KeysMembers(rows: seq<Row>, g: Grain)
    ensures forall k :: k in Keys(rows, g) <==> exists r :: r in rows && Key(g, r) == k
  {
    MapMembers(KeyIn(g), rows);
  }

  lemma GroupStep(rows: seq<Row>, i: nat, g: Grain, k: string)
    requires i < |rows|
    ensures GroupRows(rows[..i + 1], g, k)
         == if Key(g, rows[i]) == k then GroupRows(rows[..i], g, k) + [rows[i]] else GroupRows(rows[..i], g, k)
  {
    assert rows[..i + 1][..i] == rows[..i];
  }

  lemma KeysStep(rows: seq<Row>, i: nat, g: Grain)
    requires i < |rows|
    ensures Keys(rows[..i + 1], g)
         == var ks := Keys(rows[..i], g); if Key(g, rows[i]) in ks then ks else ks + [Key(g, rows[i])]
  {
    MapStep(KeyIn(g), rows, i);
    var ks := Map(KeyIn(g), rows[..i + 1]);
    assert ks[..|ks| - 1] == Map(KeyIn(g), rows[..i]);
  }

  lemma GroupEmpty(rows: seq<Row>, g: Grain, k: string)
    requires k !in Keys(rows, g)
    ensures GroupRows(rows, g, k) == []
  {
    KeysMembers(rows, g);
    FilterMembers(InGroup(g, k), rows);
    HasMember(GroupRows(rows, g, k));
  }

  /** What the dictionary of groups is after some rows: every key seen, with its rows in order. */
  ghost predicate Grouped(order: seq<string>, groups: map<string, seq<Row>>, rows: seq<Row>, g: Grain) {
    && order == Keys(rows, g)
    && (forall k :: k in groups <==> k in order)
    && (forall k :: k in groups ==> groups[k] == GroupRows(rows, g, k))
  }

  function AddRow(groups: map<string, seq<Row>>, k: string, r: Row): map<string, seq<Row>> {
    groups[k := (if k in groups then groups[k] else []) + [r]]
  }

  lemma GroupedStep(order: seq<string>, groups: map<string, seq<Row>>, rows: seq<Row>, i: nat, g: Grain)
    requires i < |rows| && Grouped(order, groups, rows[..i], g)
    ensures var k := Key(g, rows[i]);
      Grouped(if k in groups then order else order + [k], AddRow(groups, k, rows[i]), rows[..i + 1], g)
  {
    KeysStep(rows, i, g);
    var after := AddRow(groups, Key(g, rows[i]), rows[i]);
    forall j | j in after ensures after[j] == GroupRows(rows[..i + 1], g, j) {
      AddedRow(groups, rows, i, g, j);
    }
  }

  lemma AddedRow(groups: map<string, seq<Row>>, rows: seq<Row>, i: nat, g: Grain, j: string)
    requires i < |rows| && j in AddRow(groups, Key(g, rows[i]), rows[i])
    requires if j in groups then groups[j] == GroupRows(rows[..i], g, j) else j !in Keys(rows[..i], g)
    ensures AddRow(groups, Key(g, rows[i]), rows[i])[j] == GroupRows(rows[..i + 1], g, j)
  {
    GroupStep(rows, i, g, j);
    if j !in groups {
      GroupEmpty(rows[..i], g, j);
    }
  }

  method GroupBy(rows: seq<Row>, g: Grain) returns (order: seq<string>, groups: map<string, seq<Row>>)
    ensures Grouped(order, groups, rows, g)
  {
    order, groups := [], map[];
    for i := 0 to |rows|
      invariant Grouped(order, groups, rows[..i], g)
    {
      GroupedStep(order, groups, rows, i, g);
      var k := Key(g, rows[i]);
      if k !in groups {
        order := order + [k];
      }
      groups := AddRow(groups, k, rows[i]);
    }
    assert rows[..|rows|] == rows;
  }

  // ----- One group's figures -----

  function Levels(group: seq<Row>): seq<string> {
    Map(LevelOf, group)
  }

  /** The worst level across a group. Groups hold at least one row. */
  function WorstLevel(group: seq<Row>): string {
    if |group| == 0 then "NORMAL" else FirstMax(LevelRank, Levels(group))
  }

  /** The risk index before rounding; `total` is not zero where it is used. */
  function Ratio(total: real, alert: real, warning: real): real
    requires total != 0.0
  {
    100.0 * (alert + 0.5 * warning) / total
  }

  function Index(total: real, alert: real, warning: real): Option<real> {
    if total != 0.0 then Some(Round1(Ratio(total, alert, warning))) else None
  }

  function Pct(part: real, total: real): Option<real> {
    if total != 0.0 then Some(Round1(100.0 * part / total)) else None
  }

  /** Ascending on this value is descending on the index; a missing index counts as -1. */
  function SortIndex(index: Option<real>): real {
    match index
    case Some(x) => -x
    case None => 1.0
  }

  // ----- Lines inside a unit -----

  /** A line inside a unit: kilometres are not rounded here. */
  datatype LineIn = LineIn(key: string, kmTotal: real, kmAlert: real, kmWarning: real, riskIndex: Option<real>)

  function LineOf(k: string, group: seq<Row>): LineIn {
    var t, a, w := SumOf(Total, group), SumOf(Alert, group), SumOf(Warning, group);
    LineIn(k, t, a, w, Index(t, a, w))
  }

  function LineFrom(rows: seq<Row>): string -> LineIn {
    (k: string) => LineOf(k, GroupRows(rows, ByLine, k))
  }

  predicate LineLe(a: LineIn, b: LineIn) {
    var x, y := SortIndex(a.riskIndex), SortIndex(b.riskIndex);
    x < y || (x == y && (-a.kmAlert < -b.kmAlert || (a.kmAlert == b.kmAlert && StrLe(a.key, b.key))))
  }

  function LinesWithin(rows: seq<Row>): seq<LineIn> {
    SortBy(LineLe, Map(LineFrom(rows), Keys(rows, ByLine)))
  }

  method SummariseLinesWithin(rows: seq<Row>) returns (out: seq<LineIn>)
    ensures out == LinesWithin(rows)
  {
    var order, groups := GroupBy(rows, ByLine);
    out := [];
    for i := 0 to |order|
      invariant out == Map(LineFrom(rows), order[..i])
    {
      MapStep(LineFrom(rows), order, i);
      var k := order[i];
      var kmTotal := SumOf(Total, groups[k]);
      var kmAlert := SumOf(Alert, groups[k]);
      var kmWarning := SumOf(Warning, groups[k]);
      var index := Index(kmTotal, kmAlert, kmWarning);
      out := out + [LineIn(k, kmTotal, kmAlert, kmWarning, index)];
    }
    assert order[..|order|] == order;
    out := SortBy(LineLe, out);
  }

  // ----- Summaries -----

  datatype Entry = Entry(
    key: string,
    nTratte: nat,
    kmTotal: real,
    kmAlert: real,
    kmWarning: real,
    pctAlert: Option<real>,
    pctWarning: Option<real>,
    riskIndex: Option<real>,
    worstLevel: string,
    units: seq<string>,
    worstLines: seq<string>)

  function First<T>(n: nat, s: seq<T>): seq<T> {
    if |s| <= n then s else s[..n]
  }

  function UnitName(): Row -> string { (r: Row) => Text(r.unit) }

  function UnitsOf(group: seq<Row>): seq<string> {
    SortedSet(Filter(NonEmpty(), Map(UnitName(), group)))
  }

  function LineHasKm(): LineIn -> bool {
    (l: LineIn) => KmCounted(l.kmAlert, l.kmWarning, Some("WARNING")) > 0.0
  }

  function LineKey(): LineIn -> string { (l: LineIn) => l.key }

  /** At most three: the cut comes first, the filter on kilometres after it. */
  function WorstLines(lines: seq<LineIn>): seq<string> {
    Map(LineKey(), Filter(LineHasKm(), First(3, lines)))
  }

  function EntryFrom(k: string, group: seq<Row>, lines: seq<LineIn>): Entry {
    var t, a, w := SumOf(Total, group), SumOf(Alert, group), SumOf(Warning, group);
    Entry(k, |group|, Round2(t), Round2(a), Round2(w), Pct(a, t), Pct(w, t), Index(t, a, w),
          WorstLevel(group), UnitsOf(group), WorstLines(lines))
  }

  function EntryOf(rows: seq<Row>, g: Grain, k: string): Entry {
    EntryOfGroup(k, GroupRows(rows, g, k), g)
  }

  function EntryIn(rows: seq<Row>, g: Grain): string -> Entry {
    (k: string) => EntryOf(rows, g, k)
  }

  predicate EntryLe(a: Entry, b: Entry) {
    var x, y := SortIndex(a.riskIndex), SortIndex(b.riskIndex);
    x < y || (x == y && StrLe(a.key, b.key))
  }

  function Unsorted(rows: seq<Row>, g: Grain): seq<Entry> {
    Map(EntryIn(rows, g), Keys(rows, g))
  }

  function Summary(rows: seq<Row>, g: Grain): seq<Entry> {
    SortBy(EntryLe, Unsorted(rows, g))
  }

  function EntryOfGroup(k: string, group: seq<Row>, g: Grain): Entry {
    EntryFrom(k, group, if g == ByLine then [] else LinesWithin(group))
  }

  method SummariseGroup(k: string, group: seq<Row>, g: Grain) returns (entry: Entry)
    ensures entry == EntryOfGroup(k, group, g)
  {
    var lines := [];
    if g != ByLine {
      lines := SummariseLinesWithin(group);
    }
    entry := EntryFrom(k, group, lines);
  }

  lemma EntryInIs(rows: seq<Row>, g: Grain, k: string)
    ensures EntryIn(rows, g)(k) == EntryOfGroup(k, GroupRows(rows, g, k), g)
  {
  }

  method SummariseGroups(order: seq<string>, groups: map<string, seq<Row>>, g: Grain, ghost f: string -> Entry)
    returns (out: seq<Entry>)
    requires forall k :: k in order ==> k in groups && f(k) == EntryOfGroup(k, groups[k], g)
    ensures out == Map(f, order)
  {
    out := [];
    for i := 0 to |order|
      invariant out == Map(f, order[..i])
    {
      MapStep(f, order, i);
      var k := order[i];
      assert k in order;
      var entry := SummariseGroup(k, groups[k], g);
      out := out + [entry];
    }
    assert order[..|order|] == order;
  }

  method Summarise(rows: seq<Row>, g: Grain) returns (out: seq<Entry>)
    ensures out == Summary(rows, g)
  {
    var order, groups := GroupBy(rows, g);
    forall k | k in order ensures EntryIn(rows, g)(k) == EntryOfGroup(k, groups[k], g) {
      EntryInIs(rows, g, k);
    }
    out := SummariseGroups(order, groups, g, EntryIn(rows, g));
    out := SortBy(EntryLe, out);
  }

  // ----- The report body -----

  datatype UnitRow = UnitRow(
    unit: string, nTratte: nat, kmTotal: real, kmAlert: real, kmWarning: real,
    pctAlert: Option<real>, pctWarning: Option<real>, riskIndex: Option<real>,
    worstLevel: string, worstLines: seq<string>)

  datatype LineRow = LineRow(
    line: string, units: seq<string>, kmTotal: real, kmAlert: real, kmWarning: real,
    pctAlert: Option<real>, riskIndex: Option<real>, worstLevel: string)

  datatype Totals = Totals(
    nTratte: nat, kmTotal: real, kmAlert: real, kmWarning: real,
    pctAlert: Option<real>, pctWarning: Option<real>, riskIndex: Option<real>, worstLevel: string)

  datatype Block = Block(riskVector: string, units: seq<UnitRow>, topLines: seq<LineRow>, totals: Totals)

  datatype Day = Day(date: string, vectors: seq<Block>)

  function ToUnit(): Entry -> UnitRow {
    (e: Entry) => UnitRow(e.key, e.nTratte, e.kmTotal, e.kmAlert, e.kmWarning, e.pctAlert, e.pctWarning,
                          e.riskIndex, e.worstLevel, e.worstLines)
  }

  function ToLine(): Entry -> LineRow {
    (e: Entry) => LineRow(e.key, e.units, e.kmTotal, e.kmAlert, e.kmWarning, e.pctAlert, e.riskIndex, e.worstLevel)
  }

  function ToTotals(e: Entry): Totals {
    Totals(e.nTratte, e.kmTotal, e.kmAlert, e.kmWarning, e.pctAlert, e.pctWarning, e.riskIndex, e.worstLevel)
  }

  /** Whether a line qualifies is read off its PUBLISHED kilometres. */
  function Qualifies(threshold: Option<string>): Entry -> bool {
    (e: Entry) => KmCounted(e.kmAlert, e.kmWarning, threshold) > 0.0
  }

  function InBlock(date: string, vector: string): Row -> bool {
    (r: Row) => r.date == Some(date) && r.riskVector == Some(vector)
  }

  function Subset(rows: seq<Row>, date: string, vector: string): seq<Row> {
    Filter(InBlock(date, vector), rows)
  }

  /** The entries behind the listed lines. */
  function TopEntries(subset: seq<Row>, threshold: Option<string>, topN: nat): seq<Entry> {
    First(topN, Filter(Qualifies(threshold), Summary(subset, ByLine)))
  }

  function TotalsOf(subset: seq<Row>): Totals {
    var whole := Summary(subset, Whole);
    if |whole| > 0 then ToTotals(whole[0]) else Totals(0, 0.0, 0.0, 0.0, None, None, None, "NORMAL")
  }

  function BlockFor(subset: seq<Row>, vector: string, threshold: Option<string>, topN: nat): Block {
    Block(vector,
          Map(ToUnit(), Summary(subset, ByUnit)),
          Map(ToLine(), TopEntries(subset, threshold, topN)),
          TotalsOf(subset))
  }

  function BlockIn(rows: seq<Row>, date: string, threshold: Option<string>, topN: nat): string -> Block {
    (v: string) => BlockFor(Subset(rows, date, v), v, threshold, topN)
  }

  function DayIn(rows: seq<Row>, vectors: seq<string>, threshold: Option<string>, topN: nat): string -> Day {
    (d: string) => Day(d, Map(BlockIn(rows, d, threshold, topN), vectors))
  }

  function Days(rows: seq<Row>, dates: seq<string>, vectors: seq<string>, threshold: Option<string>,
                topN: nat): seq<Day> {
    Map(DayIn(rows, vectors, threshold, topN), dates)
  }

  method BuildBlock(rows: seq<Row>, date: string, vector: string, threshold: Option<string>, topN: nat)
    returns (block: Block)
    ensures block == BlockIn(rows, date, threshold, topN)(vector)
  {
    var subset := Subset(rows, date, vector);
    var byUnit := Summarise(subset, ByUnit);
    var byLine := Summarise(subset, ByLine);
    var whole := Summarise(subset, Whole);
    var lines := Map(ToLine(), First(topN, Filter(Qualifies(threshold), byLine)));
    var totals := if |whole| > 0 then ToTotals(whole[0]) else Totals(0, 0.0, 0.0, 0.0, None, None, None, "NORMAL");
    block := Block(vector, Map(ToUnit(), byUnit), lines, totals);
  }

  method BuildDays(rows: seq<Row>, dates: seq<string>, vectors: seq<string>, threshold: Option<string>, topN: nat)
    returns (days: seq<Day>)
    ensures days == Days(rows, dates, vectors, threshold, topN)
  {
    days := [];
    for i := 0 to |dates|
      invariant days == Days(rows, dates[..i], vectors, threshold, topN)
    {
      var dayVectors := [];
      for j := 0 to |vectors|
        invariant dayVectors == Map(BlockIn(rows, dates[i], threshold, topN), vectors[..j])
      {
        var block := BuildBlock(rows, dates[i], vectors[j], threshold, topN);
        MapStep(BlockIn(rows, dates[i], threshold, topN), vectors, j);
        dayVectors := dayVectors + [block];
      }
      assert vectors[..|vectors|] == vectors;
      MapStep(DayIn(rows, vectors, threshold, topN), dates, i);
      days := days + [Day(dates[i], dayVectors)];
    }
    assert dates[..|dates|] == dates;
  }
}
