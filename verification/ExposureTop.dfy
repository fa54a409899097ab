/** What is listed and what is left out: the cut at fifteen lines and at three worst lines, and
    the agreement between a rule that triggers and the lines its report lists. */
module ExposureTop {
  import opened Options
  import opened Sequences
  import opened Rounding
  import opened Exposure
  import opened ExposureOrder
  import opened ExposureSums

  // ----- Ranking -----

  /** `x` ranks no higher than `y`; a missing index ranks below every other. */
  predicate NoGreater(x: Option<real>, y: Option<real>) {
    x.None? || (y.Some? && x.value <= y.value)
  }

  lemma SortIndexRanks(x: Option<real>, y: Option<real>)
    requires (x.Some? ==> x.value >= 0.0) && (y.Some? ==> y.value >= 0.0)
    ensures SortIndex(x) <= SortIndex(y) <==> NoGreater(y, x)
  {
  }

  lemma EntriesRanked(rows: seq<Row>, g: Grain, e: Entry, f: Entry)
    requires ValidRows(rows) && e in Summary(rows, g) && f in Summary(rows, g) && EntryLe(e, f)
    ensures NoGreater(f.riskIndex, e.riskIndex)
    ensures e.riskIndex == f.riskIndex ==> StrLe(e.key, f.key)
  {
    EntryIndexBounds(rows, g, e);
    EntryIndexBounds(rows, g, f);
    SortIndexRanks(e.riskIndex, f.riskIndex);
  }

  /** A summary lists one entry per group by falling index, missing indices last, ties by key. */
  lemma SummaryRanked(rows: seq<Row>, g: Grain)
    requires ValidRows(rows)
    ensures var s := Summary(rows, g);
      && |s| == |Keys(rows, g)|
      && (forall i, j :: 0 <= i < j < |s| ==> NoGreater(s[j].riskIndex, s[i].riskIndex))
      && (forall i, j :: 0 <= i < j < |s| && s[i].riskIndex == s[j].riskIndex ==>
           StrLe(s[i].key, s[j].key) && s[i].key != s[j].key)
  {
    SummaryShape(rows, g);
    var s := Summary(rows, g);
    forall i, j | 0 <= i < j < |s|
      ensures NoGreater(s[j].riskIndex, s[i].riskIndex)
      ensures s[i].key != s[j].key && (s[i].riskIndex == s[j].riskIndex ==> StrLe(s[i].key, s[j].key))
    {
      assert s[i] in s && s[j] in s && EntryLe(s[i], s[j]);
      assert EntryKey(s[i]) != EntryKey(s[j]);
      EntriesRanked(rows, g, s[i], s[j]);
    }
  }

  // ----- The cut at `topN` lines -----

  /** The published block lists as many qualifying lines as fit, and none it leaves out has a
      greater index than one it lists. */
  lemma TopLinesCut(subset: seq<Row>, threshold: Option<string>, topN: nat)
    requires ValidRows(subset)
    ensures var q := Filter(Qualifies(threshold), Summary(subset, ByLine));
      var top := TopEntries(subset, threshold, topN);
      && |top| == (if |q| < topN then |q| else topN)
      && (forall e :: e in top ==> e in q)
      && (forall e, l :: e in q && e !in top && l in top ==> NoGreater(e.riskIndex, l.riskIndex))
  {
    var s := Summary(subset, ByLine);
    var q, top := Filter(Qualifies(threshold), s), TopEntries(subset, threshold, topN);
    SummaryShape(subset, ByLine);
    FilterSorted(EntryLe, Qualifies(threshold), s);
    FilterMembers(Qualifies(threshold), s);
    forall e, l | e in q && e !in top && l in top ensures NoGreater(e.riskIndex, l.riskIndex) {
      CutOrder(EntryLe, q, topN, e, l);
      EntriesRanked(subset, ByLine, l, e);
    }
  }

  lemma CutOrder<T>(leq: (T, T) -> bool, q: seq<T>, n: nat, e: T, l: T)
    requires Sorted(leq, q) && e in q && e !in First(n, q) && l in First(n, q)
    ensures leq(l, e)
  {
    var i :| 0 <= i < |q| && q[i] == e;
    var j :| 0 <= j < |First(n, q)| && First(n, q)[j] == l;
    assert forall x :: 0 <= x < |First(n, q)| ==> First(n, q)[x] == q[x];
    assert forall x :: 0 <= x < |First(n, q)| ==> q[x] in First(n, q);
  }

  predicate NamesUnit(group: seq<Row>, u: string) {
    u != "" && exists r :: r in group && Text(r.unit) == u
  }

  /** A listed line names the units its rows name, each once, in string order, and no blank one. */
  lemma LineUnits(subset: seq<Row>, e: Entry)
    requires e in Summary(subset, ByLine)
    ensures Sorted(StrLe, e.units) && NoDup(e.units)
    ensures forall u :: u in e.units <==> NamesUnit(GroupRows(subset, ByLine, e.key), u)
  {
    var group := GroupRows(subset, ByLine, e.key);
    EntryAt(subset, ByLine, e);
    UnitsOfIs(group);
  }

  lemma UnitsOfIs(group: seq<Row>)
    ensures Sorted(StrLe, UnitsOf(group)) && NoDup(UnitsOf(group))
    ensures forall u :: u in UnitsOf(group) <==> NamesUnit(group, u)
  {
    var names := Map(UnitName(), group);
    SortedSetProperties(Filter(NonEmpty(), names));
    FilterMembers(NonEmpty(), names);
    MapMembers(UnitName(), group);
    forall u | u in names ensures exists r :: r in group && Text(r.unit) == u {
      var r :| r in group && UnitName()(r) == u;
    }
    forall r | r in group ensures Text(r.unit) in names {
      assert UnitName()(r) == Text(r.unit);
    }
  }

  // ----- The three worst lines of a unit -----

  /** Cutting before filtering loses nothing exactly when the cut kept only elements that pass,
      or dropped none that would. */
  lemma {:induction false} CutThenFilter<T(!new)>(p: T -> bool, n: nat, xs: seq<T>)
    requires n <= |xs|
    ensures Filter(p, xs[..n]) == First(n, Filter(p, xs))
       <==> (forall x :: x in xs[..n] ==> p(x)) || (forall x :: x in xs[n..] ==> !p(x))
  {
    var a, b := Filter(p, xs[..n]), Filter(p, xs[n..]);
    FilterAppend(p, xs[..n], xs[n..]);
    assert xs == xs[..n] + xs[n..];
    FilterMembers(p, xs[n..]);
    FilterLength(p, xs[..n]);
    HasMember(b);
    assert First(n, a + b) == a <==> |a| == n || |b| == 0;
  }

  lemma {:induction false} FilterLength<T(!new)>(p: T -> bool, xs: seq<T>)
    ensures |Filter(p, xs)| == |xs| <==> forall x :: x in xs ==> p(x)
  {
    if |xs| == 0 {
    } else {
      var n := |xs| - 1;
      assert xs == xs[..n] + [xs[n]];
      FilterLength(p, xs[..n]);
    }
  }

  predicate AtRisk(l: LineIn) { LineHasKm()(l) }

  /** The worst lines of a unit are its three worst lines at risk exactly when no calm line took
      one of the three places from a line at risk. */
  lemma WorstLinesExactly(rows: seq<Row>)
    ensures var lines := LinesWithin(rows);
      WorstLines(lines) == Map(LineKey(), First(3, Filter(LineHasKm(), lines)))
      <==> || |lines| <= 3
           || (forall l :: l in lines[..3] ==> AtRisk(l))
           || (forall l :: l in lines[3..] ==> !AtRisk(l))
  {
    var lines := LinesWithin(rows);
    if |lines| > 3 {
      CutThenFilter(LineHasKm(), 3, lines);
      var a, b := Filter(LineHasKm(), First(3, lines)), First(3, Filter(LineHasKm(), lines));
      if |a| == |b| {
        FilterAppend(LineHasKm(), lines[..3], lines[3..]);
        assert lines == lines[..3] + lines[3..];
        assert a == b;
      } else {
        assert |Map(LineKey(), a)| != |Map(LineKey(), b)|;
      }
    }
  }

  lemma LinesShape(rows: seq<Row>)
    ensures var s := LinesWithin(rows);
      && Sorted(LineLe, s) && DistinctKeys(LineInKey, s) && |s| == |Keys(rows, ByLine)|
  {
    LineLeOrder();
    KeyedShape(LineLe, LineInKey, LineFrom(rows), Keys(rows, ByLine));
  }

  lemma LineAt(rows: seq<Row>, l: LineIn)
    requires l in LinesWithin(rows)
    ensures l.key in Keys(rows, ByLine) && l == LineOf(l.key, GroupRows(rows, ByLine, l.key))
  {
    LineLeOrder();
    KeyedShape(LineLe, LineInKey, LineFrom(rows), Keys(rows, ByLine));
    assert l == LineFrom(rows)(LineInKey(l));
  }

  lemma LinesRanked(rows: seq<Row>, m: LineIn, l: LineIn)
    requires ValidRows(rows) && l in LinesWithin(rows) && m in LinesWithin(rows) && LineLe(m, l)
    ensures NoGreater(l.riskIndex, m.riskIndex)
    ensures l.riskIndex == m.riskIndex ==> l.kmAlert <= m.kmAlert
  {
    LineFigures(rows, l);
    LineFigures(rows, m);
    SortIndexRanks(m.riskIndex, l.riskIndex);
  }

  lemma LineSums(rows: seq<Row>, l: LineIn)
    requires ValidRows(rows) && l in LinesWithin(rows)
    ensures l.riskIndex == Index(l.kmTotal, l.kmAlert, l.kmWarning)
    ensures l.kmAlert >= 0.0 && l.kmWarning >= 0.0 && l.kmAlert + l.kmWarning <= l.kmTotal
  {
    LineAt(rows, l);
    ValidGroup(rows, ByLine, l.key);
    ValidSums(GroupRows(rows, ByLine, l.key));
  }

  /** A line's index is a percentage; a line without kilometres at risk has index zero or none. */
  lemma LineFigures(rows: seq<Row>, l: LineIn)
    requires ValidRows(rows) && l in LinesWithin(rows)
    ensures l.riskIndex.Some? ==> 0.0 <= l.riskIndex.value <= 100.0
    ensures !AtRisk(l) ==> l.riskIndex == None || l.riskIndex == Some(0.0)
  {
    LineSums(rows, l);
    IndexBounds(l.kmTotal, l.kmAlert, l.kmWarning);
    if !AtRisk(l) && l.kmTotal != 0.0 {
      CalmIndex(l.kmTotal);
    }
  }

  lemma CalmIndex(t: real)
    requires t != 0.0
    ensures Index(t, 0.0, 0.0) == Some(0.0)
  {
    RoundZero();
    assert 100.0 * (0.0 + 0.5 * 0.0) == 0.0;
    var z := 0.0 / t;
    assert z * t == 0.0;
    assert z == 0.0;
  }

  /** No line dropped at the cut ranks above one of the three kept, whatever the filter on
      kilometres then does to those three. */
  lemma WorstLinesCut(subset: seq<Row>, e: Entry, l: LineIn, m: LineIn)
    requires ValidRows(subset) && e in Summary(subset, ByUnit)
    requires var lines := LinesWithin(GroupRows(subset, ByUnit, e.key));
      l in lines && l !in First(3, lines) && m in First(3, lines)
    ensures e.worstLines == WorstLines(LinesWithin(GroupRows(subset, ByUnit, e.key)))
    ensures NoGreater(l.riskIndex, m.riskIndex)
    ensures l.riskIndex == m.riskIndex ==> l.kmAlert <= m.kmAlert
  {
    var group := GroupRows(subset, ByUnit, e.key);
    EntryAt(subset, ByUnit, e);
    ValidGroup(subset, ByUnit, e.key);
    LinesShape(group);
    CutOrder(LineLe, LinesWithin(group), 3, l, m);
    LinesRanked(group, m, l);
  }

  /** When every line at risk still shows a positive index after rounding, no calm line takes a
      place from it. */
  lemma VisibleRiskIsListed(rows: seq<Row>)
    requires ValidRows(rows)
    requires forall l :: l in LinesWithin(rows) && AtRisk(l) ==> l.riskIndex.Some? && l.riskIndex.value > 0.0
    ensures var lines := LinesWithin(rows);
      WorstLines(lines) == Map(LineKey(), First(3, Filter(LineHasKm(), lines)))
  {
    var lines := LinesWithin(rows);
    WorstLinesExactly(rows);
    LinesShape(rows);
    if |lines| > 3 && exists i :: 0 <= i < 3 && !AtRisk(lines[i]) {
      var i :| 0 <= i < 3 && !AtRisk(lines[i]);
      forall j | 3 <= j < |lines| ensures !AtRisk(lines[j]) {
        assert LineLe(lines[i], lines[j]);
        assert lines[i] in lines && lines[j] in lines;
        BehindCalm(rows, lines[i], lines[j]);
      }
    }
  }

  lemma BehindCalm(rows: seq<Row>, m: LineIn, l: LineIn)
    requires ValidRows(rows) && l in LinesWithin(rows) && m in LinesWithin(rows) && LineLe(m, l) && !AtRisk(m)
    ensures l.riskIndex.Some? ==> l.riskIndex.value <= 0.0
  {
    LinesRanked(rows, m, l);
    LineFigures(rows, m);
  }

  function Ahead(l: LineIn): LineIn -> bool { (m: LineIn) => m != l && LineLe(m, l) }

  /** How many lines rank above this one. */
  function Above(lines: seq<LineIn>, l: LineIn): nat {
    |Filter(Ahead(l), lines)|
  }

  lemma AboveIsPlace(lines: seq<LineIn>, i: nat)
    requires Sorted(LineLe, lines) && DistinctKeys(LineInKey, lines) && i < |lines|
    ensures Above(lines, lines[i]) == i
  {
    var p := Ahead(lines[i]);
    forall j | 0 <= j < |lines| ensures p(lines[j]) <==> j < i {
      if j < i {
        assert LineInKey(lines[j]) != LineInKey(lines[i]);
      } else if i < j {
        assert LineInKey(lines[i]) != LineInKey(lines[j]);
        if LineLe(lines[j], lines[i]) {
          StrLeAntisymmetric(lines[i].key, lines[j].key);
        }
      }
    }
    assert lines == lines[..i] + lines[i..];
    FilterAppend(p, lines[..i], lines[i..]);
    FilterAll(p, lines[..i]);
    FilterNone(p, lines[i..]);
  }

  /** A calm line of some length is among the first three, and a line at risk that sorts behind it
      by its key alone is not: nothing of it at ALERT, and an index that rounds to zero. */
  predicate TakesPlace(lines: seq<LineIn>, m: LineIn, l: LineIn) {
    && !AtRisk(m) && m.kmTotal > 0.0
    && AtRisk(l) && l.kmAlert == 0.0 && l.riskIndex == Some(0.0)
    && StrLe(m.key, l.key) && Above(lines, m) < 3 <= Above(lines, l)
  }

  lemma CalmAhead(rows: seq<Row>, m: LineIn, l: LineIn)
    requires ValidRows(rows) && l in LinesWithin(rows) && m in LinesWithin(rows) && LineLe(m, l)
    requires !AtRisk(m) && AtRisk(l)
    ensures m.kmTotal > 0.0 && l.kmAlert == 0.0 && l.riskIndex == Some(0.0) && StrLe(m.key, l.key)
  {
    LineSums(rows, l);
    LineSums(rows, m);
    LineFigures(rows, l);
    LineFigures(rows, m);
  }

  lemma PlaceTaken(rows: seq<Row>, i: nat, j: nat)
    requires ValidRows(rows)
    requires var lines := LinesWithin(rows); i < 3 <= j < |lines| && !AtRisk(lines[i]) && AtRisk(lines[j])
    ensures var lines := LinesWithin(rows);
      lines[i] in lines && lines[j] in lines && TakesPlace(lines, lines[i], lines[j])
  {
    var lines := LinesWithin(rows);
    LinesShape(rows);
    AboveIsPlace(lines, i);
    AboveIsPlace(lines, j);
    assert LineLe(lines[i], lines[j]);
    CalmAhead(rows, lines[i], lines[j]);
  }

  lemma PlacesOf(rows: seq<Row>, m: LineIn, l: LineIn) returns (i: nat, j: nat)
    requires m in LinesWithin(rows) && l in LinesWithin(rows) && TakesPlace(LinesWithin(rows), m, l)
    ensures var lines := LinesWithin(rows); i < 3 <= j < |lines| && lines[i] == m && lines[j] == l
  {
    var lines := LinesWithin(rows);
    LinesShape(rows);
    i :| 0 <= i < |lines| && lines[i] == m;
    j :| 0 <= j < |lines| && lines[j] == l;
    AboveIsPlace(lines, i);
    AboveIsPlace(lines, j);
  }

  /** The worst lines of a unit are its three worst lines at risk exactly when no calm line takes a
      place, which only a line at risk with no kilometre at ALERT can lose. */
  lemma WorstLinesBySums(rows: seq<Row>)
    requires ValidRows(rows)
    ensures var lines := LinesWithin(rows);
      WorstLines(lines) == Map(LineKey(), First(3, Filter(LineHasKm(), lines)))
      <==> !exists m, l :: m in lines && l in lines && TakesPlace(lines, m, l)
  {
    var lines := LinesWithin(rows);
    WorstLinesExactly(rows);
    if m, l :| m in lines && l in lines && TakesPlace(lines, m, l) {
      var i, j := PlacesOf(rows, m, l);
      assert lines[i] in lines[..3] && lines[j] in lines[3..];
    } else if |lines| > 3 {
      forall i, j | 0 <= i < 3 <= j < |lines| ensures AtRisk(lines[i]) || !AtRisk(lines[j]) {
        if !AtRisk(lines[i]) && AtRisk(lines[j]) {
          PlaceTaken(rows, i, j);
        }
      }
      if i :| 0 <= i < 3 && !AtRisk(lines[i]) {
        assert forall l :: l in lines[3..] ==> !AtRisk(l);
      } else {
        assert forall l :: l in lines[..3] ==> AtRisk(l);
      }
    }
  }

  // ----- A trigger and the lines listed -----

  predicate NonNegative(rows: seq<Row>) {
    forall r :: r in rows ==> Alert(r) >= 0.0 && Warning(r) >= 0.0
  }

  lemma {:induction false} NonNegativeSums(rows: seq<Row>)
    requires NonNegative(rows)
    ensures SumOf(Alert, rows) >= 0.0 && SumOf(Warning, rows) >= 0.0
  {
    SumNonNegative(Alert, rows);
    SumNonNegative(Warning, rows);
  }

  /** Kilometres that still show once rounded to hundredths. */
  predicate Shows(alert: real, warning: real, threshold: Option<string>) {
    alert > 0.005 || (Floor(threshold) == "WARNING" && warning > 0.005)
  }

  lemma CountedPublished(a: real, w: real, threshold: Option<string>)
    requires a >= 0.0 && w >= 0.0
    ensures KmCounted(Round2(a), Round2(w), threshold) > 0.0 <==> Shows(a, w, threshold)
  {
    RoundZero();
    Round2Monotone(0.0, a);
    Round2Monotone(0.0, w);
    Round2Positive(a);
    Round2Positive(w);
  }

  lemma QualifiesExactly(subset: seq<Row>, threshold: Option<string>, e: Entry)
    requires NonNegative(subset) && e in Summary(subset, ByLine)
    ensures var group := GroupRows(subset, ByLine, e.key);
      Qualifies(threshold)(e) <==> Shows(SumOf(Alert, group), SumOf(Warning, group), threshold)
  {
    var group := GroupRows(subset, ByLine, e.key);
    EntryAt(subset, ByLine, e);
    FilterMembers(InGroup(ByLine, e.key), subset);
    NonNegativeSums(group);
    CountedPublished(SumOf(Alert, group), SumOf(Warning, group), threshold);
  }

  /** A block lists a line exactly when some line's summed kilometres at or above the floor still
      show after rounding. */
  lemma ListsLineExactly(subset: seq<Row>, vector: string, threshold: Option<string>, topN: nat)
    requires NonNegative(subset) && topN > 0
    ensures BlockFor(subset, vector, threshold, topN).topLines != []
       <==> exists k :: k in Keys(subset, ByLine)
              && Shows(SumOf(Alert, GroupRows(subset, ByLine, k)), SumOf(Warning, GroupRows(subset, ByLine, k)),
                threshold)
  {
    var s := Summary(subset, ByLine);
    var q := Filter(Qualifies(threshold), s);
    assert BlockFor(subset, vector, threshold, topN).topLines != [] <==> |q| > 0;
    FilterMembers(Qualifies(threshold), s);
    if |q| > 0 {
      assert q[0] in q;
      EntryAt(subset, ByLine, q[0]);
      QualifiesExactly(subset, threshold, q[0]);
    }
    if k :| k in Keys(subset, ByLine)
          && Shows(SumOf(Alert, GroupRows(subset, ByLine, k)), SumOf(Warning, GroupRows(subset, ByLine, k)), threshold)
    {
      EntryFor(subset, ByLine, k);
      var e := EntryOf(subset, ByLine, k);
      assert e.key == k;
      QualifiesExactly(subset, threshold, e);
      assert e in q;
    }
  }

  /** One row that shows is enough for its block to list a line. */
  lemma RowIsListed(rows: seq<Row>, r: Row, date: string, vector: string, threshold: Option<string>, topN: nat)
    requires NonNegative(rows) && r in rows && topN > 0
    requires r.date == Some(date) && r.riskVector == Some(vector)
    requires Shows(Alert(r), Warning(r), threshold)
    ensures BlockIn(rows, date, threshold, topN)(vector).topLines != []
  {
    var subset := Subset(rows, date, vector);
    FilterMembers(InBlock(date, vector), rows);
    ListsLineExactly(subset, vector, threshold, topN);
    RowInGroup(subset, r, threshold);
  }

  lemma RowInGroup(subset: seq<Row>, r: Row, threshold: Option<string>)
    requires NonNegative(subset) && r in subset && Shows(Alert(r), Warning(r), threshold)
    ensures Key(ByLine, r) in Keys(subset, ByLine)
    ensures var group := GroupRows(subset, ByLine, Key(ByLine, r));
      Shows(SumOf(Alert, group), SumOf(Warning, group), threshold)
  {
    var k := Key(ByLine, r);
    KeysMembers(subset, ByLine);
    FilterMembers(InGroup(ByLine, k), subset);
    SumAtLeast(Alert, GroupRows(subset, ByLine, k), r);
    SumAtLeast(Warning, GroupRows(subset, ByLine, k), r);
  }

  /** A hundredth of a kilometre at or above the floor shows, unless it is two exact ties. */
  lemma HundredthShows(alert: real, warning: real, threshold: Option<string>)
    requires KmCounted(alert, warning, threshold) >= 0.01 && !(alert == warning == 0.005)
    ensures Shows(alert, warning, threshold)
  {
  }

  /** A row with at least a hundredth of a kilometre at or above the floor has its block list a
      line, the two exact ties aside. */
  lemma HundredthIsListed(rows: seq<Row>, r: Row, date: string, vector: string, threshold: Option<string>, topN: nat)
    requires NonNegative(rows) && r in rows && topN > 0
    requires r.date == Some(date) && r.riskVector == Some(vector)
    requires KmAtOrAbove(r, threshold) >= 0.01 && !(Alert(r) == Warning(r) == 0.005)
    ensures BlockIn(rows, date, threshold, topN)(vector).topLines != []
  {
    HundredthShows(Alert(r), Warning(r), threshold);
    RowIsListed(rows, r, date, vector, threshold, topN);
  }

  /** Each length is below half a hundredth, which is what rounds to nothing on either side of the
      tie; a length below the floor does not matter. */
  predicate Faint(alert: real, warning: real, threshold: Option<string>) {
    alert < 0.005 && (Floor(threshold) == "WARNING" ==> warning < 0.005)
  }

  /** What triggers need not show: when every line of a block is faint, its rows trigger the
      hazard and the block lists no line. */
  lemma FaintIsLost(rows: seq<Row>, r: Row, date: string, vector: string, threshold: Option<string>, topN: nat)
    requires NonNegative(rows) && topN > 0
    requires r in rows && r.date == Some(date) && r.riskVector == Some(vector) && KmAtOrAbove(r, threshold) > 0.0
    requires forall k :: k in Keys(Subset(rows, date, vector), ByLine) ==>
      var group := GroupRows(Subset(rows, date, vector), ByLine, k);
      Faint(SumOf(Alert, group), SumOf(Warning, group), threshold)
    ensures HasHit(rows, threshold, vector)
    ensures BlockIn(rows, date, threshold, topN)(vector).topLines == []
  {
    FilterMembers(InBlock(date, vector), rows);
    ListsLineExactly(Subset(rows, date, vector), vector, threshold, topN);
  }

  /** One faint row is enough: it triggers on less than a hundredth of a kilometre. */
  lemma FaintRowIsLost(r: Row, date: string, vector: string, threshold: Option<string>, topN: nat)
    requires r.date == Some(date) && r.riskVector == Some(vector) && topN > 0
    requires Alert(r) >= 0.0 && Warning(r) >= 0.0 && KmAtOrAbove(r, threshold) > 0.0
    requires Faint(Alert(r), Warning(r), threshold)
    ensures KmAtOrAbove(r, threshold) < 0.01
    ensures HasHit([r], threshold, vector)
    ensures BlockIn([r], date, threshold, topN)(vector).topLines == []
  {
    var subset := Subset([r], date, vector);
    FilterAll(InBlock(date, vector), [r]);
    forall k | k in Keys(subset, ByLine)
      ensures SumOf(Alert, GroupRows(subset, ByLine, k)) == Alert(r)
          && SumOf(Warning, GroupRows(subset, ByLine, k)) == Warning(r)
    {
      OneRowGroup(r, k);
    }
    assert NonNegative([r]);
    FaintIsLost([r], r, date, vector, threshold, topN);
  }

  lemma OneRowGroup(r: Row, k: string)
    requires k in Keys([r], ByLine)
    ensures SumOf(Alert, GroupRows([r], ByLine, k)) == Alert(r)
        && SumOf(Warning, GroupRows([r], ByLine, k)) == Warning(r)
  {
    KeysMembers([r], ByLine);
    FilterAll(InGroup(ByLine, k), [r]);
    SumOne(Alert, [r]);
    SumOne(Warning, [r]);
  }

  /** A length that a binary float holds exactly: 1/256 km at ALERT and as much at WARNING. */
  lemma FaintExample() returns (r: Row)
    ensures Alert(r) == 1.0 / 256.0 && Warning(r) == 1.0 / 256.0
    ensures HasHit([r], Some("WARNING"), "wind")
    ensures BlockIn([r], "2026-01-01", Some("WARNING"), 15)("wind").topLines == []
  {
    var km := Some(1.0 / 256.0);
    r := Row(Some("2026-01-01"), Some("wind"), None, None, Some(1.0), km, km, None);
    FaintRowIsLost(r, "2026-01-01", "wind", Some("WARNING"), 15);
  }

  lemma SumOne<T>(f: T -> real, xs: seq<T>)
    requires |xs| == 1
    ensures SumOf(f, xs) == f(xs[0])
  {
    assert xs[..0] == [];
  }

  // ----- And back: what is listed was triggered -----

  function Counted(threshold: Option<string>): Row -> real { (r: Row) => KmAtOrAbove(r, threshold) }

  lemma {:induction false} CountedSum(rows: seq<Row>, threshold: Option<string>)
    ensures SumOf(Counted(threshold), rows) == KmCounted(SumOf(Alert, rows), SumOf(Warning, rows), threshold)
  {
    if |rows| == 0 {
    } else {
      CountedSum(rows[..|rows| - 1], threshold);
    }
  }

  /** A positive sum of two published figures comes from a positive unrounded sum. */
  lemma PublishedPositive(a: real, w: real, threshold: Option<string>)
    requires KmCounted(Round2(a), Round2(w), threshold) > 0.0
    ensures KmCounted(a, w, threshold) > 0.0
  {
    if Floor(threshold) == "WARNING" {
      if a + w <= 0.0 {
        Round2Monotone(a, -w);
        Round2Odd(w);
      }
    } else if a <= 0.0 {
      Round2Monotone(a, 0.0);
      RoundZero();
    }
  }

  lemma {:induction false} PositiveTerm<T>(f: T -> real, xs: seq<T>) returns (i: nat)
    requires SumOf(f, xs) > 0.0
    ensures i < |xs| && f(xs[i]) > 0.0
  {
    var n := |xs| - 1;
    if f(xs[n]) > 0.0 {
      i := n;
    } else {
      i := PositiveTerm(f, xs[..n]);
    }
  }

  /** Every listed line has a row of that line, date and hazard at or above the floor, so a
      rule with that floor watching that hazard has triggered. */
  lemma ListedWasTriggered(rows: seq<Row>, date: string, vector: string, threshold: Option<string>, topN: nat,
                           l: LineRow)
    returns (r: Row)
    requires l in BlockIn(rows, date, threshold, topN)(vector).topLines
    ensures r in rows && r.date == Some(date) && r.riskVector == Some(vector) && Text(r.line) == l.line
    ensures KmAtOrAbove(r, threshold) > 0.0
    ensures HasHit(rows, threshold, vector)
  {
    var subset := Subset(rows, date, vector);
    var s := Summary(subset, ByLine);
    MapMembers(ToLine(), TopEntries(subset, threshold, topN));
    var e :| e in TopEntries(subset, threshold, topN) && ToLine()(e) == l;
    FilterMembers(Qualifies(threshold), s);
    var group := GroupRows(subset, ByLine, e.key);
    QualifyingSum(subset, threshold, e);
    var i := PositiveTerm(Counted(threshold), group);
    r := group[i];
    RowOfLine(rows, date, vector, e.key, r);
  }

  lemma RowOfLine(rows: seq<Row>, date: string, vector: string, k: string, r: Row)
    requires r in GroupRows(Subset(rows, date, vector), ByLine, k)
    ensures r in rows && r.date == Some(date) && r.riskVector == Some(vector) && Text(r.line) == k
  {
    FilterMembers(InGroup(ByLine, k), Subset(rows, date, vector));
    FilterMembers(InBlock(date, vector), rows);
  }

  lemma QualifyingSum(subset: seq<Row>, threshold: Option<string>, e: Entry)
    requires e in Summary(subset, ByLine) && Qualifies(threshold)(e)
    ensures SumOf(Counted(threshold), GroupRows(subset, ByLine, e.key)) > 0.0
  {
    var group := GroupRows(subset, ByLine, e.key);
    EntryAt(subset, ByLine, e);
    PublishedPositive(SumOf(Alert, group), SumOf(Warning, group), threshold);
    CountedSum(group, threshold);
  }

  // ----- A calm line in the way -----

  lemma SmallIndex(w: real)
    requires 0.0 <= w <= 0.1
    ensures Index(1000.0, 0.0, w) == Some(0.0)
  {
    assert Ratio(1000.0, 0.0, w) == 0.05 * w;
    RoundZero();
    Round1Monotone(0.0, 0.05 * w);
    Round1Monotone(0.05 * w, 0.005);
    assert (0.05 as real).Floor == 0;
    assert Nearest(0.05) == 0;
  }

  lemma SmallLine(k: string, r: Row)
    requires Total(r) == 1000.0 && Alert(r) == 0.0 && 0.0 <= Warning(r) <= 0.1
    ensures var l := LineOf(k, [r]);
      l.riskIndex == Some(0.0) && l.kmAlert == 0.0 && (AtRisk(l) <==> Warning(r) > 0.0)
  {
    SumOne(Total, [r]);
    SumOne(Alert, [r]);
    SumOne(Warning, [r]);
    SmallIndex(Warning(r));
  }

  /** Four long lines, only the last of them at risk, by a stretch too short for its index to
      round above zero: the unit then shows no worst line at all. */
  lemma RiskHiddenByCalmLines(rows: seq<Row>)
    requires |rows| == 4 && NoDup(Map(KeyIn(ByLine), rows))
    requires forall i :: 0 <= i < 4 ==> StrLe(Key(ByLine, rows[i]), Key(ByLine, rows[3]))
    requires forall i :: 0 <= i < 4 ==> Total(rows[i]) == 1000.0 && Alert(rows[i]) == 0.0
    requires forall i :: 0 <= i < 4 ==> Warning(rows[i]) == if i == 3 then 0.1 else 0.0
    ensures WorstLines(LinesWithin(rows)) == []
  {
    DistinctNoDup(Map(KeyIn(ByLine), rows));
    LinesShape(rows);
    var lines := LinesWithin(rows);
    HiddenLine(rows, lines, 0);
    HiddenLine(rows, lines, 1);
    HiddenLine(rows, lines, 2);
    NoWorstLine(lines);
  }

  lemma NoWorstLine(lines: seq<LineIn>)
    requires |lines| == 4 && !AtRisk(lines[0]) && !AtRisk(lines[1]) && !AtRisk(lines[2])
    ensures WorstLines(lines) == []
  {
    FilterNone(LineHasKm(), lines[..3]);
  }

  lemma HiddenLine(rows: seq<Row>, lines: seq<LineIn>, i: nat)
    requires |rows| == 4 && NoDup(Map(KeyIn(ByLine), rows))
    requires forall i :: 0 <= i < 4 ==> StrLe(Key(ByLine, rows[i]), Key(ByLine, rows[3]))
    requires forall i :: 0 <= i < 4 ==> Total(rows[i]) == 1000.0 && Alert(rows[i]) == 0.0
    requires forall i :: 0 <= i < 4 ==> Warning(rows[i]) == if i == 3 then 0.1 else 0.0
    requires lines == LinesWithin(rows) && |lines| == 4 && i < 3
    requires Sorted(LineLe, lines) && DistinctKeys(LineInKey, lines)
    ensures !AtRisk(lines[i])
  {
    var p := SmallLineOf(rows, lines[i]);
    var q := SmallLineOf(rows, lines[3]);
    assert LineLe(lines[i], lines[3]) && LineInKey(lines[i]) != LineInKey(lines[3]);
    if p == 3 {
      StrLeAntisymmetric(lines[i].key, lines[3].key);
    }
  }

  lemma SmallLineOf(rows: seq<Row>, l: LineIn) returns (i: nat)
    requires |rows| == 4 && NoDup(Map(KeyIn(ByLine), rows)) && l in LinesWithin(rows)
    requires forall i :: 0 <= i < 4 ==> Total(rows[i]) == 1000.0 && Alert(rows[i]) == 0.0
    requires forall i :: 0 <= i < 4 ==> Warning(rows[i]) == if i == 3 then 0.1 else 0.0
    ensures i < 4 && l.key == Key(ByLine, rows[i])
    ensures l.riskIndex == Some(0.0) && l.kmAlert == 0.0 && (AtRisk(l) <==> i == 3)
  {
    LineAt(rows, l);
    DistinctNoDup(Map(KeyIn(ByLine), rows));
    i :| 0 <= i < 4 && Map(KeyIn(ByLine), rows)[i] == l.key;
    forall j | 0 <= j < 4 ensures InGroup(ByLine, l.key)(rows[j]) <==> j == i {
      assert Map(KeyIn(ByLine), rows)[j] == Key(ByLine, rows[j]);
    }
    FilterOnly(InGroup(ByLine, l.key), rows, i);
    SmallLine(l.key, rows[i]);
  }
}
