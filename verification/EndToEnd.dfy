/** Claims that cross the whole pipeline: from a request that files a rule to the report that tells
    it, and from a row that triggers a rule to the line that shows it. */
module EndToEnd {
  import opened Options
  import opened Sequences
  import opened Exposure
  import opened ExposureOrder
  import opened ExposureSums
  import opened ExposureTop
  import opened Tables
  import opened Policy
  import AlertStore
  import opened AlertTraces
  import opened Dispatch
  import opened DispatchProofs
  import opened Listener
  import opened ListenerProofs
  import opened Addressing

  // ----- A rule to tell is told once -----

  function Only(r: Rule): Rule -> real { (x: Rule) => if x == r then 1.0 else 0.0 }

  lemma {:induction false} OnlySum(r: Rule, rules: seq<Rule>)
    ensures SumOf(Only(r), rules) >= 0.0
    ensures r in rules ==> SumOf(Only(r), rules) >= 1.0
    ensures r !in rules ==> SumOf(Only(r), rules) == 0.0
  {
    if |rules| == 0 {
    } else {
      assert rules == rules[..|rules| - 1] + [rules[|rules| - 1]];
      OnlySum(r, rules[..|rules| - 1]);
    }
  }

  lemma {:induction false} OnlyOnce(r: Rule, rules: seq<Rule>)
    requires KeyedById(rules)
    ensures SumOf(Only(r), rules) == if r in rules then 1.0 else 0.0
  {
    if |rules| == 0 {
    } else {
      var n := |rules| - 1;
      assert rules == rules[..n] + [rules[n]];
      OnlyOnce(r, rules[..n]);
      assert forall i :: 0 <= i < n ==> rules[..n][i] != rules[n];
    }
  }

  lemma {:induction false} TwoTerms<T>(f: T -> real, xs: seq<T>, i: nat, j: nat)
    requires i < j < |xs| && f(xs[i]) >= 1.0 && f(xs[j]) >= 1.0
    requires forall x :: x in xs ==> f(x) >= 0.0
    ensures SumOf(f, xs) >= 2.0
  {
    var n := |xs| - 1;
    assert xs == xs[..n] + [xs[n]];
    if j == n {
      assert xs[i] in xs[..n];
      SumAtLeast(f, xs[..n], xs[i]);
    } else {
      TwoTerms(f, xs[..n], i, j);
    }
  }

  /** The report is about the rule's network, under the rule's user id, and goes to the rule's own
      list when the network's ids are honest. */
  ghost predicate Tells(world: World, dates: seq<string>, report: Report, r: Rule) {
    && report.networkId == r.networkId && report.userId == UserIdOf(world, r)
    && (Honest(world.digest, NetworkHits(world, r.networkId, dates)) ==> Reaches(world, report, r))
  }

  /** In every run each rule that must be told is behind exactly one attempted report, whatever
      rules, rows and failures there are, and that report tells it. */
  lemma ToldExactlyOnce(config: Config, world: World, namespace: string, dates: seq<string>, r: Rule) returns (i: nat)
    requires KeyedById(world.rules) && r in world.rules
    requires IsToTell(world, NetworksFor(config, world.rules, namespace), dates, r)
    ensures var attempts := RunAttempts(config, world, namespace, dates);
      && i < |attempts| && r in attempts[i].group.rules
      && (forall j :: 0 <= j < |attempts| && r in attempts[j].group.rules ==> j == i)
      && Tells(world, dates, attempts[i].report, r)
  {
    i := BehindOne(config, world, namespace, dates, r);
    TellsBehind(config, world, namespace, dates, RunAttempts(config, world, namespace, dates)[i], r);
  }

  lemma TellsBehind(config: Config, world: World, namespace: string, dates: seq<string>, a: Attempt, r: Rule)
    requires a in RunAttempts(config, world, namespace, dates) && r in a.group.rules
    ensures Tells(world, dates, a.report, r)
  {
    AttemptOfRun(config, world, namespace, dates, a, r);
    UnderItsUserId(world, r.networkId, dates, a, r);
    ReportSays(world, r.networkId, dates, a);
    if Honest(world.digest, NetworkHits(world, r.networkId, dates)) {
      HonestReaches(world, r.networkId, dates, a, r);
    }
  }

  lemma BehindOne(config: Config, world: World, namespace: string, dates: seq<string>, r: Rule) returns (i: nat)
    requires KeyedById(world.rules) && r in world.rules
    requires IsToTell(world, NetworksFor(config, world.rules, namespace), dates, r)
    ensures var attempts := RunAttempts(config, world, namespace, dates);
      && i < |attempts| && r in attempts[i].group.rules
      && (forall j :: 0 <= j < |attempts| && r in attempts[j].group.rules ==> j == i)
  {
    var attempts := RunAttempts(config, world, namespace, dates);
    var networks := NetworksFor(config, world.rules, namespace);
    var told := Filter(ToTell(world, networks, dates), world.rules);
    RunCovers(Only(r), config, world, namespace, dates);
    FilterMembers(ToTell(world, networks, dates), world.rules);
    FilterKeyed(ToTell(world, networks, dates), world.rules);
    OnlyOnce(r, told);
    i := OneAttempt(r, attempts);
  }

  lemma OneAttempt(r: Rule, attempts: seq<Attempt>) returns (i: nat)
    requires SumOf(AttemptWeight(Only(r)), attempts) == 1.0
    ensures i < |attempts| && r in attempts[i].group.rules
    ensures forall j :: 0 <= j < |attempts| && r in attempts[j].group.rules ==> j == i
  {
    var f := AttemptWeight(Only(r));
    i := PositiveTerm(f, attempts);
    OnlySum(r, attempts[i].group.rules);
    forall a | a in attempts ensures f(a) >= 0.0 {
      OnlySum(r, a.group.rules);
    }
    forall j | 0 <= j < |attempts| && r in attempts[j].group.rules ensures j == i {
      OnlySum(r, attempts[j].group.rules);
      if i < j {
        TwoTerms(f, attempts, i, j);
      } else if j < i {
        TwoTerms(f, attempts, j, i);
      }
    }
  }

  // ----- Who may have filed what is told -----

  /** Every rule behind an attempt about a network was filed by a request of its operator, whose
      one DSO organisation was that network: no report about a network goes out for a rule of
      anyone else. */
  lemma ToldRulesWereFiled(dev: bool, calls: seq<AlertStore.Call>, config: Config, world: World, namespace: string,
                           dates: seq<string>, a: Attempt, r: Rule)
    returns (c: AlertStore.Call)
    requires world.rules == Run(dev, AlertStore.State([], map[]), calls).state.rules
    requires a in RunAttempts(config, world, namespace, dates) && r in a.group.rules
    ensures c in calls && c.request.CreateRule? && c.request.id == r.id && c.user.sub == r.userId
    ensures DsoNetworks(c.user) == [a.networkId]
  {
    OnlyRulesToTell(config, world, namespace, dates, a, r);
    Provenance(dev, AlertStore.State([], map[]), calls, r);
    c :| c in calls && Files(c, r);
  }

  // ----- Requests of others change no report -----

  lemma {:induction false} FilterWithin<T>(p: T -> bool, q: T -> bool, xs: seq<T>)
    requires forall i :: 0 <= i < |xs| && p(xs[i]) ==> q(xs[i])
    ensures Filter(p, xs) == Filter(p, Filter(q, xs))
  {
    if |xs| == 0 {
    } else {
      var n := |xs| - 1;
      FilterWithin(p, q, xs[..n]);
      FilterPush(p, Filter(q, xs[..n]), xs[n]);
    }
  }

  /** The state of a trace, with everything else a run reads. */
  function WorldAt(w: World, s: AlertStore.State): World {
    w.(rules := s.rules, settings := s.settings)
  }

  lemma OwnRulesAgree(w: World, s: AlertStore.State, t: AlertStore.State, sub: string, id: string)
    requires ViewOf(s, sub) == ViewOf(t, sub)
    requires forall r :: r in s.rules && TellsId(WorldAt(w, s), id)(r) ==> r.userId == sub
    requires forall r :: r in t.rules && TellsId(WorldAt(w, t), id)(r) ==> r.userId == sub
    ensures AgreeOn(WorldAt(w, s), WorldAt(w, t), id)
  {
    var v, x := WorldAt(w, s), WorldAt(w, t);
    var own := Filter(AlertStore.OwnedBy(sub), s.rules);
    FilterMembers(AlertStore.OwnedBy(sub), s.rules);
    OnlyOwn(v, sub, id);
    OnlyOwn(x, sub, id);
    forall r | r in own ensures RuleRecipients(r, s.settings) == RuleRecipients(r, t.settings) {
      SameSettings(s, t, r);
    }
    forall i | 0 <= i < |own| ensures TellsId(v, id)(own[i]) == TellsId(x, id)(own[i]) {
      assert own[i] in own;
    }
    FilterCongruent(TellsId(v, id), TellsId(x, id), own);
    FilterMembers(TellsId(v, id), own);
  }

  lemma OnlyOwn(v: World, sub: string, id: string)
    requires forall r :: r in v.rules && TellsId(v, id)(r) ==> r.userId == sub
    ensures Filter(TellsId(v, id), v.rules) == Filter(TellsId(v, id), Filter(AlertStore.OwnedBy(sub), v.rules))
  {
    forall i | 0 <= i < |v.rules| && TellsId(v, id)(v.rules[i]) ensures AlertStore.OwnedBy(sub)(v.rules[i]) {
      assert v.rules[i] in v.rules;
    }
    FilterWithin(TellsId(v, id), AlertStore.OwnedBy(sub), v.rules);
  }

  lemma SameSettings(s: AlertStore.State, t: AlertStore.State, r: Rule)
    requires AlertStore.SettingsOf(s, r.userId) == AlertStore.SettingsOf(t, r.userId)
    ensures RuleRecipients(r, s.settings) == RuleRecipients(r, t.settings)
  {
  }

  lemma OnlyFiledByCaller(dev: bool, calls: seq<AlertStore.Call>, sub: string, r: Rule)
    requires r in Run(dev, AlertStore.State([], map[]), Filter(By(sub), calls)).state.rules
    ensures r.userId == sub
  {
    Provenance(dev, AlertStore.State([], map[]), Filter(By(sub), calls), r);
    FilterMembers(By(sub), calls);
  }

  /** From requests to reports: after any interleaving of requests with fresh ids, an addressee for
      whom only one user has active rules is sent by a run the very same reports as if only that
      user's requests had been made. */
  lemma ReportsNoninterference(dev: bool, calls: seq<AlertStore.Call>, sub: string, id: string,
                               config: Config, w: World, namespace: string, dates: seq<string>)
    requires FreshIds(AlertStore.State([], map[]), calls)
    requires var all := Run(dev, AlertStore.State([], map[]), calls).state;
      forall r :: r in all.rules && TellsId(WorldAt(w, all), id)(r) ==> r.userId == sub
    ensures var all := Run(dev, AlertStore.State([], map[]), calls).state;
      var own := Run(dev, AlertStore.State([], map[]), Filter(By(sub), calls)).state;
      forall a: Attempt :: a.group.userId == id ==>
        (a in RunAttempts(config, WorldAt(w, all), namespace, dates)
         <==> a in RunAttempts(config, WorldAt(w, own), namespace, dates))
  {
    var all := Run(dev, AlertStore.State([], map[]), calls).state;
    var own := Run(dev, AlertStore.State([], map[]), Filter(By(sub), calls)).state;
    Noninterference(dev, AlertStore.State([], map[]), calls, sub);
    forall r | r in own.rules ensures r.userId == sub {
      OnlyFiledByCaller(dev, calls, sub, r);
    }
    OwnRulesAgree(w, all, own, sub, id);
    ReportsIsolated(config, WorldAt(w, all), WorldAt(w, own), namespace, dates, id);
  }

  // ----- A row that triggers is a line that shows -----

  /** A group counts every kilometre its members count. */
  lemma GroupCountsMore(digest: string -> string, hits: seq<Hit>, id: string, h: Hit, alert: real, warning: real)
    requires h in Members(digest, hits, id) && Shows(alert, warning, Some(h.rule.threshold))
    ensures Shows(alert, warning, Some(GroupOf(digest, hits, id).threshold))
  {
    GroupSaysWhatMembersAsk(digest, hits, id);
  }

  lemma ShowsHits(rows: seq<Row>, x: Row, v: string, threshold: Option<string>)
    requires x in rows && NonNegative(rows) && x.riskVector == Some(v) && Shows(Alert(x), Warning(x), threshold)
    ensures HasHit(rows, threshold, v)
  {
    assert KmAtOrAbove(x, threshold) > 0.0;
  }

  /** The block a report prints for a date and a hazard. */
  predicate Prints(report: Report, i: nat, j: nat, date: string, vector: string) {
    && i < |report.days| && report.days[i].date == date
    && j < |report.days[i].vectors| && report.days[i].vectors[j].riskVector == vector
  }

  /** A rule that triggers on a row of the horizon, by kilometres that still show in hundredths,
      has that date and hazard in its report, with at least one line listed. */
  lemma TriggerIsListed(world: World, n: string, dates: seq<string>, a: Attempt, r: Rule, x: Row, d: string, v: string)
    returns (i: nat, j: nat)
    requires a in Attempts(world, n, dates) && r in a.group.rules
    requires NonNegative(Fetched(world, n, dates)) && x in Fetched(world, n, dates)
    requires x.date == Some(d) && d in dates && x.riskVector == Some(v) && v in RiskTypes(r)
    requires Shows(Alert(x), Warning(x), Some(r.threshold))
    ensures Prints(a.report, i, j, d, v) && a.report.days[i].vectors[j].topLines != []
  {
    GroupAsks(world, n, dates, a, r, x, v);
    AttemptIs(world, n, dates, a);
    i, j := ListedIn(world.appUrl, n, a.group, Fetched(world, n, dates), dates, x, d, v);
  }

  /** A rule to tell, and a row of its network that it watches and that shows: in the whole run
      exactly one report tells the rule, and that report lists a line for the row's date and
      hazard. */
  lemma ToldAndListed(config: Config, world: World, namespace: string, dates: seq<string>, r: Rule, x: Row,
                      d: string, v: string)
    returns (n: nat, i: nat, j: nat)
    requires KeyedById(world.rules) && r in world.rules
    requires IsToTell(world, NetworksFor(config, world.rules, namespace), dates, r)
    requires NonNegative(Fetched(world, r.networkId, dates)) && x in Fetched(world, r.networkId, dates)
    requires x.date == Some(d) && d in dates && x.riskVector == Some(v) && v in RiskTypes(r)
    requires Shows(Alert(x), Warning(x), Some(r.threshold))
    ensures var attempts := RunAttempts(config, world, namespace, dates);
      && n < |attempts| && attempts[n].networkId == r.networkId && r in attempts[n].group.rules
      && (forall k :: 0 <= k < |attempts| && r in attempts[k].group.rules ==> k == n)
      && Tells(world, dates, attempts[n].report, r)
      && Prints(attempts[n].report, i, j, d, v) && attempts[n].report.days[i].vectors[j].topLines != []
  {
    n := ToldExactlyOnce(config, world, namespace, dates, r);
    var a := RunAttempts(config, world, namespace, dates)[n];
    AttemptOfRun(config, world, namespace, dates, a, r);
    i, j := TriggerIsListed(world, r.networkId, dates, a, r, x, d, v);
  }

  lemma AttemptOfRun(config: Config, world: World, namespace: string, dates: seq<string>, a: Attempt, r: Rule)
    requires a in RunAttempts(config, world, namespace, dates) && r in a.group.rules
    ensures a in Attempts(world, r.networkId, dates) && a.networkId == r.networkId
  {
    OnlyRulesToTell(config, world, namespace, dates, a, r);
    var networks := NetworksFor(config, world.rules, namespace);
    OverMembers(world, networks, dates);
    var n :| n in networks && a in Attempts(world, n, dates);
    AttemptNetwork(world, n, dates, a);
  }

  // ----- Reports without a line -----

  /** Some line of the block shows. */
  predicate LineShows(rows: seq<Row>, d: string, v: string, threshold: Option<string>) {
    var subset := Subset(rows, d, v);
    exists k :: k in Keys(subset, ByLine)
      && Shows(SumOf(Alert, GroupRows(subset, ByLine, k)), SumOf(Warning, GroupRows(subset, ByLine, k)), threshold)
  }

  predicate NoLine(days: seq<Day>) {
    forall i, j :: 0 <= i < |days| && 0 <= j < |days[i].vectors| ==> days[i].vectors[j].topLines == []
  }

  /** An attempted report lists no line at all exactly when, for no date of the horizon and no
      hazard of its group, any line's kilometres at or above the group's floor show. */
  lemma NoLineExactly(world: World, n: string, dates: seq<string>, a: Attempt)
    requires a in Attempts(world, n, dates) && NonNegative(Fetched(world, n, dates))
    ensures NoLine(a.report.days)
       <==> forall d, v :: d in dates && v in a.group.vectors
              ==> !LineShows(Fetched(world, n, dates), d, v, Some(a.group.threshold))
  {
    AttemptIs(world, n, dates, a);
    NoLineIn(world.appUrl, n, a.group, Fetched(world, n, dates), dates);
  }

  lemma NoLineIn(appUrl: string, n: string, g: Group, rows: seq<Row>, dates: seq<string>)
    requires dates != [] && NonNegative(rows)
    ensures NoLine(ReportFor(appUrl, n, g, rows, dates).days)
       <==> forall d, v :: d in dates && v in g.vectors ==> !LineShows(rows, d, v, Some(g.threshold))
  {
    SortedSetProperties(g.vectors);
    NoLineDays(rows, dates, SortedSet(g.vectors), Some(g.threshold));
  }

  lemma NoLineDays(rows: seq<Row>, dates: seq<string>, vectors: seq<string>, threshold: Option<string>)
    requires NonNegative(rows)
    ensures NoLine(Days(rows, dates, vectors, threshold, TOP_LINES))
       <==> forall d, v :: d in dates && v in vectors ==> !LineShows(rows, d, v, threshold)
  {
    var days, p := Days(rows, dates, vectors, threshold, TOP_LINES), (d, v) => LineShows(rows, d, v, threshold);
    DaysShape(rows, dates, vectors, threshold, TOP_LINES);
    forall i, j | 0 <= i < |dates| && 0 <= j < |vectors|
      ensures days[i].vectors[j].topLines == [] <==> !p(dates[i], vectors[j]) {
      BlockLists(rows, dates, vectors, threshold, i, j);
    }
    NoLineWhere(days, dates, vectors, p);
  }

  lemma NoLineWhere(days: seq<Day>, dates: seq<string>, vectors: seq<string>, p: (string, string) -> bool)
    requires |days| == |dates| && forall i :: 0 <= i < |days| ==> |days[i].vectors| == |vectors|
    requires forall i, j :: 0 <= i < |dates| && 0 <= j < |vectors| ==>
      (days[i].vectors[j].topLines == [] <==> !p(dates[i], vectors[j]))
    ensures NoLine(days) <==> forall d, v :: d in dates && v in vectors ==> !p(d, v)
  {
    if d, v :| d in dates && v in vectors && p(d, v) {
      var i :| 0 <= i < |dates| && dates[i] == d;
      var j :| 0 <= j < |vectors| && vectors[j] == v;
      assert days[i].vectors[j].topLines != [];
    } else {
      forall i, j | 0 <= i < |days| && 0 <= j < |days[i].vectors| ensures days[i].vectors[j].topLines == [] {
        assert dates[i] in dates && vectors[j] in vectors;
      }
    }
  }

  lemma BlockLists(rows: seq<Row>, dates: seq<string>, vectors: seq<string>, threshold: Option<string>, i: nat, j: nat)
    requires NonNegative(rows) && i < |dates| && j < |vectors|
    ensures var days := Days(rows, dates, vectors, threshold, TOP_LINES);
      && |days| == |dates| && |days[i].vectors| == |vectors|
      && (days[i].vectors[j].topLines == [] <==> !LineShows(rows, dates[i], vectors[j], threshold))
  {
    BlockAt(rows, dates, vectors, threshold, TOP_LINES, i, j);
    FilterMembers(InBlock(dates[i], vectors[j]), rows);
    ListsLineExactly(Subset(rows, dates[i], vectors[j]), vectors[j], threshold, TOP_LINES);
  }

  lemma GroupAsks(world: World, n: string, dates: seq<string>, a: Attempt, r: Rule, x: Row, v: string)
    requires a in Attempts(world, n, dates) && r in a.group.rules
    requires NonNegative(Fetched(world, n, dates)) && x in Fetched(world, n, dates)
    requires x.riskVector == Some(v) && v in RiskTypes(r) && Shows(Alert(x), Warning(x), Some(r.threshold))
    ensures v in a.group.vectors && Shows(Alert(x), Warning(x), Some(a.group.threshold))
  {
    var hits := NetworkHits(world, n, dates);
    var h := HitBehind(world, n, dates, a, r);
    VectorTriggers(Fetched(world, n, dates), r, x, v);
    GroupHas(world.digest, hits, a.group.userId, h, v);
    GroupCountsMore(world.digest, hits, a.group.userId, h, Alert(x), Warning(x));
    AttemptIs(world, n, dates, a);
  }

  lemma VectorTriggers(rows: seq<Row>, r: Rule, x: Row, v: string)
    requires NonNegative(rows) && x in rows && x.riskVector == Some(v) && v in RiskTypes(r)
    requires Shows(Alert(x), Warning(x), Some(r.threshold))
    ensures v in RuleVectors(r, rows)
  {
    ShowsHits(rows, x, v, Some(r.threshold));
    FilterMembers(IsHit(rows, Some(r.threshold)), RiskTypes(r));
  }

  lemma GroupHas(digest: string -> string, hits: seq<Hit>, id: string, h: Hit, v: string)
    requires h in Members(digest, hits, id) && v in h.vectors
    ensures v in GroupOf(digest, hits, id).vectors
  {
    GroupSaysWhatMembersAsk(digest, hits, id);
  }

  lemma BlockAt(rows: seq<Row>, dates: seq<string>, vectors: seq<string>, threshold: Option<string>, topN: nat,
                i: nat, j: nat)
    requires i < |dates| && j < |vectors|
    ensures var days := Days(rows, dates, vectors, threshold, topN);
      && |days| == |dates| && days[i].date == dates[i] && |days[i].vectors| == |vectors|
      && days[i].vectors[j] == BlockIn(rows, dates[i], threshold, topN)(vectors[j])
  {
    var day := DayIn(rows, vectors, threshold, topN)(dates[i]);
    assert Days(rows, dates, vectors, threshold, topN)[i] == day;
    assert day.vectors == Map(BlockIn(rows, dates[i], threshold, topN), vectors);
  }

  lemma BlockNamed(rows: seq<Row>, date: string, threshold: Option<string>, topN: nat, vector: string)
    ensures BlockIn(rows, date, threshold, topN)(vector).riskVector == vector
  {
  }

  lemma ListedIn(appUrl: string, n: string, g: Group, rows: seq<Row>, dates: seq<string>, x: Row, d: string, v: string)
    returns (i: nat, j: nat)
    requires NonNegative(rows) && x in rows && d in dates && v in g.vectors
    requires x.date == Some(d) && x.riskVector == Some(v) && Shows(Alert(x), Warning(x), Some(g.threshold))
    ensures var report := ReportFor(appUrl, n, g, rows, dates);
      Prints(report, i, j, d, v) && report.days[i].vectors[j].topLines != []
  {
    var vectors := SortedSet(g.vectors);
    SortedSetProperties(g.vectors);
    RowIsListed(rows, x, d, v, Some(g.threshold), TOP_LINES);
    i :| 0 <= i < |dates| && dates[i] == d;
    j :| 0 <= j < |vectors| && vectors[j] == v;
    BlockAt(rows, dates, vectors, Some(g.threshold), TOP_LINES, i, j);
    BlockNamed(rows, d, Some(g.threshold), TOP_LINES, v);
  }

  /** Every line a report lists is there because of a row of that line, date and hazard at or above
      the report's threshold; the date is of the horizon and the hazard triggered for some rule of
      the group. */
  lemma ListedWasCounted(world: World, n: string, dates: seq<string>, a: Attempt, i: nat, j: nat, l: LineRow)
    returns (x: Row)
    requires a in Attempts(world, n, dates)
    requires i < |a.report.days| && j < |a.report.days[i].vectors| && l in a.report.days[i].vectors[j].topLines
    ensures x in Fetched(world, n, dates) && x.date == Some(a.report.days[i].date)
    ensures x.riskVector == Some(a.report.days[i].vectors[j].riskVector) && Text(x.line) == l.line
    ensures KmAtOrAbove(x, Some(a.report.threshold)) > 0.0
    ensures a.report.days[i].date in dates
    ensures HasVector(Members(world.digest, NetworkHits(world, n, dates), a.group.userId),
        a.report.days[i].vectors[j].riskVector)
  {
    AttemptIs(world, n, dates, a);
    x := CountedIn(world.appUrl, n, a.group, Fetched(world, n, dates), dates, i, j, l);
    GroupSaysWhatMembersAsk(world.digest, NetworkHits(world, n, dates), a.group.userId);
  }

  lemma DaysShape(rows: seq<Row>, dates: seq<string>, vectors: seq<string>, threshold: Option<string>, topN: nat)
    ensures var days := Days(rows, dates, vectors, threshold, topN);
      |days| == |dates| && forall i :: 0 <= i < |days| ==> |days[i].vectors| == |vectors|
  {
  }

  lemma CountedIn(appUrl: string, n: string, g: Group, rows: seq<Row>, dates: seq<string>, i: nat, j: nat, l: LineRow)
    returns (x: Row)
    requires dates != []
    requires var days := ReportFor(appUrl, n, g, rows, dates).days;
      i < |days| && j < |days[i].vectors| && l in days[i].vectors[j].topLines
    ensures var day := ReportFor(appUrl, n, g, rows, dates).days[i];
      && x in rows && x.date == Some(day.date) && x.riskVector == Some(day.vectors[j].riskVector)
      && Text(x.line) == l.line && KmAtOrAbove(x, Some(g.threshold)) > 0.0
      && day.date in dates && day.vectors[j].riskVector in g.vectors
  {
    var vectors := SortedSet(g.vectors);
    SortedSetProperties(g.vectors);
    DaysShape(rows, dates, vectors, Some(g.threshold), TOP_LINES);
    BlockAt(rows, dates, vectors, Some(g.threshold), TOP_LINES, i, j);
    BlockNamed(rows, dates[i], Some(g.threshold), TOP_LINES, vectors[j]);
    assert vectors[j] in vectors;
    x := ListedWasTriggered(rows, dates[i], vectors[j], Some(g.threshold), TOP_LINES, l);
  }

  // ----- The order of the rows -----

  lemma TriggeredIgnoresOrder(a: seq<Row>, b: seq<Row>, threshold: Option<string>, types: seq<string>)
    requires multiset(a) == multiset(b)
    ensures Triggered(a, threshold, types) == Triggered(b, threshold, types)
  {
    SameMembers(a, b);
    forall k | 0 <= k < |types| ensures IsHit(a, threshold)(types[k]) == IsHit(b, threshold)(types[k]) {
    }
    FilterCongruent(IsHit(a, threshold), IsHit(b, threshold), types);
  }

  lemma HitsIgnoreRowOrder(rules: seq<Rule>, a: seq<Row>, b: seq<Row>, settings: map<string, Settings>)
    requires multiset(a) == multiset(b)
    ensures Hits(rules, a, settings) == Hits(rules, b, settings)
  {
    forall r: Rule ensures RuleVectors(r, a) == RuleVectors(r, b) {
      TriggeredIgnoresOrder(a, b, Some(r.threshold), RiskTypes(r));
    }
    FilterCongruent(Triggers(a), Triggers(b), rules);
    var kept := Filter(Triggers(a), rules);
    SameSeq(Map(HitFor(a, settings), kept), Map(HitFor(b, settings), kept));
  }

  /** Rows with known levels may arrive in any order: the same reports are attempted, word for
      word and in the same order. */
  lemma AttemptsIgnoreRowOrder(w: World, v: World, n: string, dates: seq<string>)
    requires v == w.(fetch := v.fetch)
    requires w.fetch(n, dates).Some? && v.fetch(n, dates).Some?
    requires multiset(w.fetch(n, dates).value) == multiset(v.fetch(n, dates).value)
    requires KnownLevels(w.fetch(n, dates).value)
    ensures Attempts(w, n, dates) == Attempts(v, n, dates)
  {
    var a, b := Fetched(w, n, dates), Fetched(v, n, dates);
    FetchedReordered(w, v, n, dates);
    if a != [] && dates != [] {
      HitsIgnoreRowOrder(ActiveRules(w, n), a, b, w.settings);
      SameReportsRows(w.appUrl, n, Groups(w, n, a), a, b, dates);
    }
  }

  lemma FetchedReordered(w: World, v: World, n: string, dates: seq<string>)
    requires v == w.(fetch := v.fetch)
    requires w.fetch(n, dates).Some? && v.fetch(n, dates).Some?
    requires multiset(w.fetch(n, dates).value) == multiset(v.fetch(n, dates).value)
    ensures multiset(Fetched(w, n, dates)) == multiset(Fetched(v, n, dates))
    ensures Fetched(w, n, dates) == [] <==> Fetched(v, n, dates) == []
    ensures Fetched(w, n, dates) != [] ==> Fetched(w, n, dates) == w.fetch(n, dates).value
  {
    SameMembers(w.fetch(n, dates).value, v.fetch(n, dates).value);
  }

  lemma SameReportsRows(appUrl: string, n: string, groups: seq<Group>, a: seq<Row>, b: seq<Row>, dates: seq<string>)
    requires multiset(a) == multiset(b) && KnownLevels(a) && dates != []
    ensures Map(AttemptFor(appUrl, n, a, dates), groups) == Map(AttemptFor(appUrl, n, b, dates), groups)
  {
    var x, y := Map(AttemptFor(appUrl, n, a, dates), groups), Map(AttemptFor(appUrl, n, b, dates), groups);
    forall i | 0 <= i < |groups| ensures x[i] == y[i] {
      SameReportRows(appUrl, n, groups[i], a, b, dates);
    }
    SameSeq(x, y);
  }

  lemma SameReportRows(appUrl: string, n: string, g: Group, a: seq<Row>, b: seq<Row>, dates: seq<string>)
    requires multiset(a) == multiset(b) && KnownLevels(a) && dates != []
    ensures ReportFor(appUrl, n, g, a, dates) == ReportFor(appUrl, n, g, b, dates)
  {
    var vectors := SortedSet(g.vectors);
    KnownLevelsOrderFree(a, dates, vectors, Some(g.threshold), TOP_LINES);
    assert Days(b, dates, vectors, Some(g.threshold), TOP_LINES)
      == Days(a, dates, vectors, Some(g.threshold), TOP_LINES);
  }
}
