/** What reaches nudging, told from the tables and the rows themselves: which rules are told, to
    whom, with which hazards and floor, and what the report prints. */
module Reports {
  import opened Options
  import opened Sequences
  import opened Exposure
  import opened Recipients
  import opened RecipientsProofs
  import opened ReportBody
  import opened Tables
  import opened Dispatch
  import opened DispatchProofs
  import opened Addressing

  // ----- A rule's list -----

  /** The operator's stored settings hold this text. */
  predicate Stores(settings: map<string, Settings>, userId: string, text: Option<string>) {
    userId in settings && settings[userId].emailRecipients == text
  }

  /** A rule's own addresses are its list, whatever its operator's settings say. */
  lemma OwnListWins(rule: Rule, settings: map<string, Settings>, xs: seq<string>)
    requires Parsed(xs) && xs != [] && rule.recipients == Some(Join(",", xs))
    ensures RuleRecipients(rule, settings) == xs
  {
    ParseJoin(xs);
  }

  /** A rule without addresses of its own has those of its operator's settings. */
  lemma FallsBack(rule: Rule, settings: map<string, Settings>, xs: seq<string>)
    requires Parsed(xs) && Parse(rule.recipients) == []
    requires Stores(settings, rule.userId, Some(Join(",", xs)))
    ensures RuleRecipients(rule, settings) == xs
  {
    ParseJoin(xs);
  }

  /** Without those either it has none. */
  lemma NoList(rule: Rule, settings: map<string, Settings>)
    requires Parse(rule.recipients) == []
    requires rule.userId in settings ==> Parse(settings[rule.userId].emailRecipients) == []
    ensures RuleRecipients(rule, settings) == []
  {
  }

  // ----- A lone rule -----

  predicate Lone(w: World, n: string, dates: seq<string>, r: Rule, rows: seq<Row>) {
    && w.rules == [r] && r.active && r.networkId == n != "" && dates != []
    && w.fetch(n, dates) == Some(rows) && RuleTriggers(r, rows)
  }

  lemma LoneAttempt(w: World, n: string, dates: seq<string>, r: Rule, rows: seq<Row>) returns (a: Attempt)
    requires Lone(w, n, dates, r, rows)
    ensures a in Attempts(w, n, dates) && r in a.group.rules && a.report.userId == UserIdOf(w, r)
    ensures a.report.emailRecipients == RuleRecipients(r, w.settings)
  {
    var h := HitFor(rows, w.settings)(r);
    LoneHit(w, n, dates, r, rows);
    LoneGroup(w.digest, h);
    HitIdOf(w, rows, r);
    a := Telling(w, n, dates, h);
    AttemptIs(w, n, dates, a);
    ReportTo(w, n, dates, a);
  }

  lemma LoneHit(w: World, n: string, dates: seq<string>, r: Rule, rows: seq<Row>)
    requires Lone(w, n, dates, r, rows)
    ensures NetworkHits(w, n, dates) == [HitFor(rows, w.settings)(r)]
  {
    FilterAll(IsActiveFor(n), [r]);
    FilterAll(Triggers(rows), [r]);
  }

  lemma LoneGroup(digest: string -> string, h: Hit)
    ensures var g := GroupOf(digest, [h], HitId(digest, h)); g.rules == [h.rule] && g.recipients == h.recipients
  {
    FilterAll(HasUserId(digest, HitId(digest, h)), [h]);
    GatheredIs(HitId(digest, h), [h]);
    assert Map(RuleOf(), [h]) == [h.rule];
  }

  /** A triggered rule without addresses of its own is told at its operator's, and without any it
      goes out under its operator's id with no address. */
  lemma LoneRuleIsTold(w: World, n: string, dates: seq<string>, r: Rule, rows: seq<Row>) returns (a: Attempt)
    requires Lone(w, n, dates, r, rows) && Parse(r.recipients) == []
    ensures a in Attempts(w, n, dates) && r in a.group.rules
    ensures forall xs :: Parsed(xs) && Stores(w.settings, r.userId, Some(Join(",", xs)))
              ==> a.report.emailRecipients == xs
    ensures r.userId !in w.settings || Stores(w.settings, r.userId, None)
      ==> a.report.emailRecipients == [] && a.report.userId == r.userId
  {
    a := LoneAttempt(w, n, dates, r, rows);
    OperatorsList(w, r);
  }

  lemma OperatorsList(w: World, r: Rule)
    requires Parse(r.recipients) == []
    ensures forall xs :: Parsed(xs) && Stores(w.settings, r.userId, Some(Join(",", xs)))
              ==> RuleRecipients(r, w.settings) == xs
    ensures r.userId !in w.settings || Stores(w.settings, r.userId, None)
      ==> RuleRecipients(r, w.settings) == [] && UserIdOf(w, r) == r.userId
  {
    forall xs | Parsed(xs) && Stores(w.settings, r.userId, Some(Join(",", xs)))
      ensures RuleRecipients(r, w.settings) == xs
    {
      FallsBack(r, w.settings, xs);
    }
  }

  // ----- Which rules are told -----

  predicate Watches(r: Rule, v: string) {
    r.riskTypes.Some? && v in r.riskTypes.value
  }

  /** Some row hits one of the rule's hazards at the rule's own floor. */
  ghost predicate HitBy(r: Rule, rows: seq<Row>) {
    exists v, x :: Watches(r, v) && x in rows && RowHits(x, v, Some(r.threshold))
  }

  lemma TriggersWhenHit(r: Rule, rows: seq<Row>)
    ensures RuleTriggers(r, rows) <==> HitBy(r, rows)
  {
    var vectors := RuleVectors(r, rows);
    TriggersExactly(rows, Some(r.threshold), RiskTypes(r));
    HasMember(vectors);
    if HitBy(r, rows) {
      var v, x :| Watches(r, v) && x in rows && RowHits(x, v, Some(r.threshold));
      assert v in vectors;
    }
    if RuleTriggers(r, rows) {
      assert vectors[0] in vectors;
      var x :| x in rows && RowHits(x, vectors[0], Some(r.threshold));
      assert Watches(r, vectors[0]);
    }
  }

  /** A dispatch tells a rule exactly when the rule is active and of the network, the network has a
      name, there is a date to evaluate, the fetch succeeds and some row hits the rule. */
  lemma ToldExactly(w: World, n: string, dates: seq<string>, r: Rule)
    ensures (exists a :: a in Attempts(w, n, dates) && r in a.group.rules)
       <==> && r in w.rules && r.active && r.networkId == n != "" && dates != []
            && w.fetch(n, dates).Some? && HitBy(r, w.fetch(n, dates).value)
  {
    if a :| a in Attempts(w, n, dates) && r in a.group.rules {
      AttemptedIsHit(w, n, dates, a, r);
    }
    if r in w.rules && r.active && r.networkId == n != "" && dates != []
       && w.fetch(n, dates).Some? && HitBy(r, w.fetch(n, dates).value) {
      var a := HitIsTold(w, n, dates, r);
    }
  }

  lemma AttemptedIsHit(w: World, n: string, dates: seq<string>, a: Attempt, r: Rule)
    requires a in Attempts(w, n, dates) && r in a.group.rules
    ensures r in w.rules && r.active && r.networkId == n != "" && dates != []
    ensures w.fetch(n, dates).Some? && HitBy(r, w.fetch(n, dates).value)
  {
    AttemptedRules(w, n, dates, a, r);
    EligibleIsHit(w, n, dates, r);
  }

  lemma EligibleIsHit(w: World, n: string, dates: seq<string>, r: Rule)
    requires IsEligible(w, n, dates, r)
    ensures dates != [] && w.fetch(n, dates).Some? && HitBy(r, w.fetch(n, dates).value)
  {
    TriggersWhenHit(r, Fetched(w, n, dates));
  }

  lemma HitIsTold(w: World, n: string, dates: seq<string>, r: Rule) returns (a: Attempt)
    requires r in w.rules && r.active && r.networkId == n != "" && dates != []
    requires w.fetch(n, dates).Some? && HitBy(r, w.fetch(n, dates).value)
    ensures a in Attempts(w, n, dates) && r in a.group.rules
  {
    var rows := w.fetch(n, dates).value;
    FilterMembers(IsActiveFor(n), w.rules);
    assert r in ActiveRules(w, n);
    TriggersWhenHit(r, rows);
    FilterMembers(Triggers(rows), ActiveRules(w, n));
    MapMembers(HitFor(rows, w.settings), Filter(Triggers(rows), ActiveRules(w, n)));
    assert HitFor(rows, w.settings)(r) in NetworkHits(w, n, dates);
    a := Telling(w, n, dates, HitFor(rows, w.settings)(r));
  }

  // ----- What a report says -----

  /** Some rule behind the report watches the hazard, and a row hits it at that rule's floor. */
  predicate Asked(rules: seq<Rule>, rows: seq<Row>, v: string) {
    exists r, x :: r in rules && Watches(r, v) && x in rows && RowHits(x, v, Some(r.threshold))
  }

  predicate SomeWarningRule(rules: seq<Rule>) {
    exists r :: r in rules && r.threshold == "WARNING"
  }

  /** Each hit has the hazards that its rule triggers on these rows. */
  ghost predicate HitsOn(hits: seq<Hit>, rows: seq<Row>) {
    forall h :: h in hits ==> h.vectors == RuleVectors(h.rule, rows)
  }

  lemma NetworkHitsOn(rules: seq<Rule>, rows: seq<Row>, settings: map<string, Settings>)
    ensures HitsOn(Hits(rules, rows, settings), rows)
  {
    forall h | h in Hits(rules, rows, settings) ensures h.vectors == RuleVectors(h.rule, rows) {
      HitIs(rules, rows, settings, h);
    }
  }

  lemma MemberRules(digest: string -> string, hits: seq<Hit>, id: string)
    ensures var m, g := Members(digest, hits, id), GroupOf(digest, hits, id);
      && (forall h :: h in m ==> h in hits && h.rule in g.rules)
      && (forall r :: r in g.rules ==> exists h :: h in m && h.rule == r)
  {
    var m := Members(digest, hits, id);
    GatheredIs(id, m);
    MapMembers(RuleOf(), m);
    FilterMembers(HasUserId(digest, id), hits);
    forall h | h in m ensures h.rule in GroupOf(digest, hits, id).rules {
      assert RuleOf()(h) == h.rule;
    }
    forall r | r in GroupOf(digest, hits, id).rules ensures exists h :: h in m && h.rule == r {
      var h :| h in m && RuleOf()(h) == r;
    }
  }

  lemma HitAsks(rules: seq<Rule>, rows: seq<Row>, h: Hit, v: string)
    requires h.rule in rules && h.vectors == RuleVectors(h.rule, rows) && v in h.vectors
    ensures Asked(rules, rows, v)
  {
    TriggersExactly(rows, Some(h.rule.threshold), RiskTypes(h.rule));
    var x :| x in rows && RowHits(x, v, Some(h.rule.threshold));
    assert Watches(h.rule, v);
  }

  lemma AskedIsHit(r: Rule, rows: seq<Row>, x: Row, v: string)
    requires Watches(r, v) && x in rows && RowHits(x, v, Some(r.threshold))
    ensures v in RuleVectors(r, rows)
  {
    TriggersExactly(rows, Some(r.threshold), RiskTypes(r));
  }

  /** A group's hazards are those that some rule of it watches and that a row hits at that rule's
      floor. */
  lemma GroupAsks(digest: string -> string, hits: seq<Hit>, rows: seq<Row>, id: string, v: string)
    requires HitsOn(hits, rows)
    ensures v in GroupOf(digest, hits, id).vectors <==> Asked(GroupOf(digest, hits, id).rules, rows, v)
  {
    var m, g := Members(digest, hits, id), GroupOf(digest, hits, id);
    GatheredIs(id, m);
    MemberRules(digest, hits, id);
    if v in g.vectors {
      var h :| h in m && v in h.vectors;
      HitAsks(g.rules, rows, h, v);
    }
    if r, x :| r in g.rules && Watches(r, v) && x in rows && RowHits(x, v, Some(r.threshold)) {
      var h :| h in m && h.rule == r;
      AskedIsHit(r, rows, x, v);
      assert v in h.vectors;
    }
  }

  lemma GroupFloor(digest: string -> string, hits: seq<Hit>, id: string)
    ensures var g := GroupOf(digest, hits, id);
      g.threshold == if SomeWarningRule(g.rules) then "WARNING" else "ALERT"
  {
    GatheredIs(id, Members(digest, hits, id));
    MemberRules(digest, hits, id);
  }

  /** The fields of a report: the hazards its rules ask for and that a row hits, sorted; the lowest
      of their floors; the horizon, its first date, the network and the configured address. */
  lemma ReportFields(w: World, n: string, dates: seq<string>, a: Attempt)
    requires a in Attempts(w, n, dates)
    ensures var r := a.report;
      && (forall v :: v in r.riskTypes <==> Asked(a.group.rules, Fetched(w, n, dates), v))
      && Sorted(StrLe, r.riskTypes) && NoDup(r.riskTypes)
      && r.threshold == (if SomeWarningRule(a.group.rules) then "WARNING" else "ALERT")
      && dates != [] && r.dates == dates && r.period == dates[0] && r.networkId == n && r.appUrl == w.appUrl
  {
    AttemptIs(w, n, dates, a);
    NetworkHitsOn(ActiveRules(w, n), Fetched(w, n, dates), w.settings);
    GroupReport(w.digest, NetworkHits(w, n, dates), w.appUrl, n, Fetched(w, n, dates), dates, a);
  }

  lemma GroupReport(digest: string -> string, hits: seq<Hit>, appUrl: string, n: string, rows: seq<Row>,
                    dates: seq<string>, a: Attempt)
    requires dates != [] && HitsOn(hits, rows) && a.group == GroupOf(digest, hits, a.group.userId)
    requires a == AttemptFor(appUrl, n, rows, dates)(a.group)
    ensures var r := a.report;
      && (forall v :: v in r.riskTypes <==> Asked(a.group.rules, rows, v))
      && Sorted(StrLe, r.riskTypes) && NoDup(r.riskTypes)
      && r.threshold == (if SomeWarningRule(a.group.rules) then "WARNING" else "ALERT")
      && r.dates == dates && r.period == dates[0] && r.networkId == n && r.appUrl == appUrl
  {
    SortedSetProperties(a.group.vectors);
    GroupFloor(digest, hits, a.group.userId);
    forall v ensures v in a.report.riskTypes <==> Asked(a.group.rules, rows, v) {
      GroupAsks(digest, hits, rows, a.group.userId, v);
    }
  }

  /** The body of a report: for each date and each of its hazards the block of the rows of that date
      and hazard, at the report's own floor, with at most fifteen lines. */
  lemma ReportPrints(w: World, n: string, dates: seq<string>, a: Attempt, i: nat, j: nat)
    requires a in Attempts(w, n, dates) && i < |dates| && j < |a.report.riskTypes|
    ensures var r := a.report;
      && |r.days| == |dates| && r.days[i].date == dates[i] && |r.days[i].vectors| == |r.riskTypes|
      && r.days[i].vectors[j].riskVector == r.riskTypes[j]
      && BlockPrinted(Filter(OfBlock(dates[i], r.riskTypes[j]), Fetched(w, n, dates)), Some(r.threshold), 15,
                      r.days[i].vectors[j])
  {
    AttemptIs(w, n, dates, a);
    DaysPrint(Fetched(w, n, dates), dates, a.report.riskTypes, Some(a.report.threshold), 15, i, j);
  }

  // ----- Successes -----

  /** The sends of a dispatch that succeed. */
  function Successes(fails: nat -> bool, from: nat, n: nat): set<nat> {
    set k: nat | from <= k < from + n && !fails(k)
  }

  /** The count returned is the number of sends that did not fail. */
  lemma {:induction false} CountIsSuccesses(fails: nat -> bool, from: nat, n: nat)
    ensures Delivered(fails, from, n) == |Successes(fails, from, n)|
  {
    if n == 0 {
      assert Successes(fails, from, n) == {};
    } else {
      CountIsSuccesses(fails, from, n - 1);
      var k := from + n - 1;
      var before := Successes(fails, from, n - 1);
      assert Successes(fails, from, n) == if fails(k) then before else before + {k};
    }
  }
}
