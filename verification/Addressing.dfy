/** Whom a report reaches: whether its list is the one its rules ask for, and whether what others
    file can change what one addressee gets. */
module Addressing {
  import opened Options
  import opened Sequences
  import opened Exposure
  import opened Recipients
  import opened RecipientsProofs
  import opened KeyCollisions
  import opened Tables
  import opened Dispatch
  import opened DispatchProofs
  import opened Listener
  import opened ListenerProofs

  // ----- From a rule of an attempt to its hit -----

  lemma HitIs(rules: seq<Rule>, rows: seq<Row>, settings: map<string, Settings>, h: Hit)
    requires h in Hits(rules, rows, settings)
    ensures h == HitFor(rows, settings)(h.rule)
  {
    MapMembers(HitFor(rows, settings), Filter(Triggers(rows), rules));
  }

  lemma GroupHit(digest: string -> string, hits: seq<Hit>, id: string, r: Rule) returns (h: Hit)
    requires r in GroupOf(digest, hits, id).rules
    ensures h in Members(digest, hits, id) && h in hits && h.rule == r && HitId(digest, h) == id
  {
    var m := Members(digest, hits, id);
    GatheredIs(id, m);
    MapMembers(RuleOf(), m);
    h :| h in m && RuleOf()(h) == r;
    FilterMembers(HasUserId(digest, id), hits);
  }

  /** The hit behind a rule of an attempt. */
  lemma HitBehind(w: World, n: string, dates: seq<string>, a: Attempt, r: Rule) returns (h: Hit)
    requires a in Attempts(w, n, dates) && r in a.group.rules
    ensures h == HitFor(Fetched(w, n, dates), w.settings)(r) && h in NetworkHits(w, n, dates)
    ensures h in Members(w.digest, NetworkHits(w, n, dates), a.group.userId) && HitId(w.digest, h) == a.group.userId
  {
    AttemptIs(w, n, dates, a);
    h := GroupHit(w.digest, NetworkHits(w, n, dates), a.group.userId, r);
    HitIs(ActiveRules(w, n), Fetched(w, n, dates), w.settings, h);
  }

  // ----- The report behind a rule and the rule's own addressees -----

  /** The user id that a rule asks to be told under. */
  function UserIdOf(w: World, r: Rule): string {
    HitId(w.digest, Hit(r, [], RuleRecipients(r, w.settings)))
  }

  /** The report goes to the rule's own list, up to order and case. */
  ghost predicate Reaches(w: World, report: Report, r: Rule) {
    SameAddresses(report.emailRecipients, RuleRecipients(r, w.settings))
  }

  lemma ReportTo(w: World, n: string, dates: seq<string>, a: Attempt)
    requires a in Attempts(w, n, dates)
    ensures a.report.userId == a.group.userId && a.report.emailRecipients == a.group.recipients
  {
    AttemptIs(w, n, dates, a);
  }

  lemma UnderItsUserId(w: World, n: string, dates: seq<string>, a: Attempt, r: Rule)
    requires a in Attempts(w, n, dates) && r in a.group.rules
    ensures a.report.userId == UserIdOf(w, r)
  {
    ReportTo(w, n, dates, a);
    var h := HitBehind(w, n, dates, a, r);
    HitIdOf(w, Fetched(w, n, dates), r);
  }

  lemma HitIdOf(w: World, rows: seq<Row>, r: Rule)
    ensures HitId(w.digest, HitFor(rows, w.settings)(r)) == UserIdOf(w, r)
  {
  }

  lemma FirstMember(digest: string -> string, hits: seq<Hit>, id: string) returns (h: Hit)
    requires id in GroupIds(digest, hits)
    ensures h in hits && HitId(digest, h) == id
    ensures var g := GroupOf(digest, hits, id); g.rules != [] && g.rules[0] == h.rule && g.recipients == h.recipients
  {
    var m := Members(digest, hits, id);
    NoMembers(digest, hits, id);
    GatheredIs(id, m);
    FilterMembers(HasUserId(digest, id), hits);
    h := m[0];
    assert h in m;
  }

  /** A report carries the list of the first of its rules that the database returned. */
  lemma FirstRuleDecides(w: World, n: string, dates: seq<string>, a: Attempt)
    requires a in Attempts(w, n, dates)
    ensures a.group.rules != []
    ensures a.report.emailRecipients == RuleRecipients(a.group.rules[0], w.settings)
  {
    AttemptIs(w, n, dates, a);
    ReportTo(w, n, dates, a);
    var h := FirstMember(w.digest, NetworkHits(w, n, dates), a.group.userId);
    HitIs(ActiveRules(w, n), Fetched(w, n, dates), w.settings, h);
  }

  /** Every report of a network's dispatch reaches the addressees of all its rules. */
  ghost predicate AllReached(w: World, n: string, dates: seq<string>) {
    forall a, r :: a in Attempts(w, n, dates) && r in a.group.rules ==> Reaches(w, a.report, r)
  }

  lemma HonestReaches(w: World, n: string, dates: seq<string>, a: Attempt, r: Rule)
    requires Honest(w.digest, NetworkHits(w, n, dates))
    requires a in Attempts(w, n, dates) && r in a.group.rules
    ensures Reaches(w, a.report, r)
  {
    AttemptIs(w, n, dates, a);
    ReportTo(w, n, dates, a);
    var k := HitBehind(w, n, dates, a, r);
    var h := FirstMember(w.digest, NetworkHits(w, n, dates), a.group.userId);
  }

  lemma RuleInItsGroup(digest: string -> string, hits: seq<Hit>, h: Hit)
    requires h in hits
    ensures HitId(digest, h) in GroupIds(digest, hits)
    ensures var g := GroupOf(digest, hits, HitId(digest, h)); g.userId == HitId(digest, h) && h.rule in g.rules
  {
    var id := HitId(digest, h);
    FilterMembers(HasUserId(digest, id), hits);
    NoMembers(digest, hits, id);
    GatheredIs(id, Members(digest, hits, id));
    MapMembers(RuleOf(), Members(digest, hits, id));
    assert RuleOf()(h) == h.rule;
  }

  /** The attempt that tells a hit's rule. */
  lemma Telling(w: World, n: string, dates: seq<string>, h: Hit) returns (a: Attempt)
    requires dates != [] && h in NetworkHits(w, n, dates)
    ensures a in Attempts(w, n, dates) && a.group.userId == HitId(w.digest, h) && h.rule in a.group.rules
  {
    var hits, id := NetworkHits(w, n, dates), HitId(w.digest, h);
    RuleInItsGroup(w.digest, hits, h);
    AttemptOf(w, n, dates, id);
    a := AttemptFor(w.appUrl, n, Fetched(w, n, dates), dates)(GroupOf(w.digest, hits, id));
  }

  lemma ReachedHits(w: World, n: string, dates: seq<string>, h: Hit, k: Hit)
    requires dates != [] && AllReached(w, n, dates)
    requires h in NetworkHits(w, n, dates) && k in NetworkHits(w, n, dates) && HitId(w.digest, h) == HitId(w.digest, k)
    ensures SameAddresses(h.recipients, k.recipients)
  {
    var a := Telling(w, n, dates, h);
    var b := Telling(w, n, dates, k);
    SameAttempt(w, n, dates, a, b);
    HitIs(ActiveRules(w, n), Fetched(w, n, dates), w.settings, h);
    HitIs(ActiveRules(w, n), Fetched(w, n, dates), w.settings, k);
    assert Reaches(w, a.report, h.rule) && Reaches(w, a.report, k.rule);
  }

  lemma SameAttempt(w: World, n: string, dates: seq<string>, a: Attempt, b: Attempt)
    requires a in Attempts(w, n, dates) && b in Attempts(w, n, dates) && a.group.userId == b.group.userId
    ensures a == b
  {
    AttemptIs(w, n, dates, a);
    AttemptIs(w, n, dates, b);
  }

  /** Every rule's own addressees are told exactly when ids are honest: when no two triggered rules
      with different addressees share an id. */
  lemma ReachedExactly(w: World, n: string, dates: seq<string>)
    requires dates != []
    ensures AllReached(w, n, dates) <==> Honest(w.digest, NetworkHits(w, n, dates))
  {
    if Honest(w.digest, NetworkHits(w, n, dates)) {
      forall a, r | a in Attempts(w, n, dates) && r in a.group.rules ensures Reaches(w, a.report, r) {
        HonestReaches(w, n, dates, a, r);
      }
    }
    if AllReached(w, n, dates) {
      var hits := NetworkHits(w, n, dates);
      forall h, k | h in hits && k in hits && HitId(w.digest, h) == HitId(w.digest, k)
        ensures (h.recipients == [] <==> k.recipients == []) && SameAddresses(h.recipients, k.recipients)
      {
        ReachedHits(w, n, dates, h, k);
        SameAddressCount(h.recipients, k.recipients);
      }
    }
  }

  lemma SameAddressCount(a: seq<string>, b: seq<string>)
    requires SameAddresses(a, b)
    ensures |a| == |b|
  {
    SameLength(Lowers(a), Lowers(b));
  }

  // ----- Two rules that collide -----

  lemma PairHits(w: World, n: string, dates: seq<string>, q: Rule, r: Rule, rows: seq<Row>)
    requires w.rules == [q, r] && q.active && r.active && q.networkId == r.networkId == n != "" && dates != []
    requires w.fetch(n, dates) == Some(rows) && RuleTriggers(q, rows) && RuleTriggers(r, rows)
    ensures Fetched(w, n, dates) == rows
    ensures NetworkHits(w, n, dates) == [HitFor(rows, w.settings)(q), HitFor(rows, w.settings)(r)]
  {
    FilterAll(IsActiveFor(n), [q, r]);
    FilterAll(Triggers(rows), [q, r]);
    assert [q, r][..1] == [q];
    assert Map(HitFor(rows, w.settings), [q]) == [HitFor(rows, w.settings)(q)];
  }

  /** Two triggered rules of one network that share an id: the list of the one that the database
      returns first is the only one told. */
  lemma OrderDecides(w: World, n: string, dates: seq<string>, q: Rule, r: Rule, rows: seq<Row>) returns (a: Attempt)
    requires w.rules == [q, r] && q.active && r.active && q.networkId == r.networkId == n != "" && dates != []
    requires w.fetch(n, dates) == Some(rows) && RuleTriggers(q, rows) && RuleTriggers(r, rows)
    requires UserIdOf(w, q) == UserIdOf(w, r)
    ensures a in Attempts(w, n, dates) && a.group.rules == [q, r]
    ensures a.report.emailRecipients == RuleRecipients(q, w.settings)
  {
    var h, k := HitFor(rows, w.settings)(q), HitFor(rows, w.settings)(r);
    PairHits(w, n, dates, q, r, rows);
    HitIdOf(w, rows, q);
    HitIdOf(w, rows, r);
    PairGroup(w.digest, h, k);
    a := Telling(w, n, dates, h);
    AttemptIs(w, n, dates, a);
    ReportTo(w, n, dates, a);
  }

  lemma PairGroup(digest: string -> string, h: Hit, k: Hit)
    requires HitId(digest, h) == HitId(digest, k)
    ensures var g := GroupOf(digest, [h, k], HitId(digest, h));
      g.rules == [h.rule, k.rule] && g.recipients == h.recipients
  {
    FilterAll(HasUserId(digest, HitId(digest, h)), [h, k]);
    GatheredIs(HitId(digest, h), [h, k]);
    assert Map(RuleOf(), [h, k]) == [h.rule, k.rule];
  }

  /** Rules whose lists share a key although their addressees differ: whichever comes second is in
      the group, and its addressees are not told. */
  lemma CollidingRules(w: World, n: string, dates: seq<string>, q: Rule, r: Rule, rows: seq<Row>)
    returns (a: Attempt, b: Attempt)
    requires w.rules == [q, r] && q.active && r.active && q.networkId == r.networkId == n != "" && dates != []
    requires w.fetch(n, dates) == Some(rows) && RuleTriggers(q, rows) && RuleTriggers(r, rows)
    requires var c, d := RuleRecipients(q, w.settings), RuleRecipients(r, w.settings);
      c != [] && d != [] && Canonical(c) == Canonical(d) && !SameAddresses(c, d)
    ensures a in Attempts(w, n, dates) && q in a.group.rules && r in a.group.rules
    ensures Reaches(w, a.report, q) && !Reaches(w, a.report, r)
    ensures var v := w.(rules := [r, q]);
      && b in Attempts(v, n, dates) && q in b.group.rules && r in b.group.rules
      && Reaches(v, b.report, r) && !Reaches(v, b.report, q)
  {
    a := OrderDecides(w, n, dates, q, r, rows);
    b := OrderDecides(w.(rules := [r, q]), n, dates, r, q, rows);
  }

  lemma OwnList(id: string, network: string, list: seq<string>, settings: map<string, Settings>) returns (r: Rule)
    requires Parsed(list) && list != []
    ensures r.id == id && r.active && r.networkId == network
    ensures RiskTypes(r) == ["wind"] && r.threshold == "ALERT" && RuleRecipients(r, settings) == list
  {
    ParseJoin(list);
    r := Rule(id, "operator", network, Some(["wind"]), "ALERT", Some(Join(",", list)), true, 0, 0);
  }

  lemma WindyRow() returns (x: Row)
    ensures x.riskVector == Some("wind") && Alert(x) == 1.0
  {
    x := Row(Some("2026-01-01"), Some("wind"), None, Some("line"), Some(1.0), Some(1.0), None, None);
  }

  lemma WindTriggers(r: Rule, x: Row)
    requires RiskTypes(r) == ["wind"] && r.threshold == "ALERT" && x.riskVector == Some("wind") && Alert(x) == 1.0
    ensures RuleTriggers(r, [x])
  {
    FilterMembers(IsHit([x], Some(r.threshold)), RiskTypes(r));
    assert x in [x] && KmAtOrAbove(x, Some("ALERT")) > 0.0;
    assert "wind" in RiskTypes(r) && IsHit([x], Some(r.threshold))("wind");
  }

  /** A network with two such rules, each with a list of its own that parses. */
  lemma CollidingRulesExample(digest: string -> string, dates: seq<string>)
    returns (w: World, q: Rule, r: Rule, a: Attempt, b: Attempt)
    requires dates != []
    ensures w.rules == [q, r] && q.id != r.id
    ensures a in Attempts(w, "net", dates) && r in a.group.rules && !Reaches(w, a.report, r)
    ensures b in Attempts(w.(rules := [r, q]), "net", dates) && q in b.group.rules && !Reaches(w, b.report, q)
  {
    var c, d := PipesCollideExample();
    q := OwnList("1", "net", c, map[]);
    r := OwnList("2", "net", d, map[]);
    var x := WindyRow();
    WindTriggers(q, x);
    WindTriggers(r, x);
    w := World([q, r], map[], (n, ds) => Some([x]), digest, "");
    a, b := CollidingRules(w, "net", dates, q, r, [x]);
  }

  // ----- What others file does not change one addressee's reports -----

  /** The active rules that ask to be told under an id. */
  function TellsId(w: World, id: string): Rule -> bool {
    (r: Rule) => r.active && UserIdOf(w, r) == id
  }

  /** Two rule tables and settings that agree on what one id is told: the same rules in the same
      order, with the same lists. */
  ghost predicate AgreeOn(w: World, v: World, id: string) {
    && v == w.(rules := v.rules, settings := v.settings)
    && Filter(TellsId(w, id), w.rules) == Filter(TellsId(v, id), v.rules)
    && forall r :: r in Filter(TellsId(w, id), w.rules) ==>
         RuleRecipients(r, w.settings) == RuleRecipients(r, v.settings)
  }

  /** The members of an id's group, from the id's own rules alone. */
  lemma OwnMembers(w: World, n: string, rows: seq<Row>, id: string)
    ensures Members(w.digest, Hits(ActiveRules(w, n), rows, w.settings), id)
         == Map(HitFor(rows, w.settings),
           Filter(Triggers(rows), Filter(IsActiveFor(n), Filter(TellsId(w, id), w.rules))))
  {
    var active := ActiveRules(w, n);
    var triggered := Filter(Triggers(rows), active);
    FilterMembers(IsActiveFor(n), w.rules);
    FilterMembers(Triggers(rows), active);
    forall i | 0 <= i < |triggered|
      ensures HasUserId(w.digest, id)(HitFor(rows, w.settings)(triggered[i])) == TellsId(w, id)(triggered[i])
    {
      assert triggered[i] in triggered;
    }
    FilterMap(HasUserId(w.digest, id), TellsId(w, id), HitFor(rows, w.settings), triggered);
    FiltersCommute(TellsId(w, id), Triggers(rows), active);
    FiltersCommute(TellsId(w, id), IsActiveFor(n), w.rules);
  }

  lemma AgreeMembers(w: World, v: World, n: string, rows: seq<Row>, id: string)
    requires AgreeOn(w, v, id)
    ensures Members(w.digest, Hits(ActiveRules(w, n), rows, w.settings), id)
         == Members(v.digest, Hits(ActiveRules(v, n), rows, v.settings), id)
  {
    OwnMembers(w, n, rows, id);
    OwnMembers(v, n, rows, id);
    var own := Filter(TellsId(w, id), w.rules);
    var kept := Filter(Triggers(rows), Filter(IsActiveFor(n), own));
    FilterMembers(IsActiveFor(n), own);
    FilterMembers(Triggers(rows), Filter(IsActiveFor(n), own));
    SameHitsFor(rows, w.settings, v.settings, kept);
  }

  lemma SameHitsFor(rows: seq<Row>, s: map<string, Settings>, t: map<string, Settings>, rules: seq<Rule>)
    requires forall r :: r in rules ==> RuleRecipients(r, s) == RuleRecipients(r, t)
    ensures Map(HitFor(rows, s), rules) == Map(HitFor(rows, t), rules)
  {
    forall i | 0 <= i < |rules| ensures HitFor(rows, s)(rules[i]) == HitFor(rows, t)(rules[i]) {
      assert rules[i] in rules;
    }
    SameSeq(Map(HitFor(rows, s), rules), Map(HitFor(rows, t), rules));
  }

  lemma AgreeSymmetric(w: World, v: World, id: string)
    requires AgreeOn(w, v, id)
    ensures AgreeOn(v, w, id)
  {
  }

  /** A dispatch that tells an id fetches, and so does one that agrees with it. */
  lemma AgreeFetched(w: World, v: World, n: string, dates: seq<string>, id: string)
    requires AgreeOn(w, v, id) && Members(w.digest, NetworkHits(w, n, dates), id) != []
    ensures Fetched(v, n, dates) == Fetched(w, n, dates)
  {
    var rows := Fetched(w, n, dates);
    NoRowsNoHits(ActiveRules(w, n), w.settings);
    AgreeMembers(w, v, n, rows, id);
    MembersNeedRules(w.digest, ActiveRules(w, n), rows, w.settings, id);
    MembersNeedRules(v.digest, ActiveRules(v, n), rows, v.settings, id);
  }

  lemma MembersNeedRules(digest: string -> string, rules: seq<Rule>, rows: seq<Row>, settings: map<string, Settings>,
                         id: string)
    ensures Members(digest, Hits(rules, rows, settings), id) != [] ==> rules != []
  {
  }

  /** For one network and one id, the attempt depends on the id's own rules alone. */
  lemma AgreeAttempts(w: World, v: World, n: string, dates: seq<string>, id: string, a: Attempt)
    requires AgreeOn(w, v, id) && a in Attempts(w, n, dates) && a.group.userId == id
    ensures a in Attempts(v, n, dates)
  {
    AttemptIs(w, n, dates, a);
    NoMembers(w.digest, NetworkHits(w, n, dates), id);
    AgreeFetched(w, v, n, dates, id);
    AgreeMembers(w, v, n, Fetched(w, n, dates), id);
    NoMembers(v.digest, NetworkHits(v, n, dates), id);
    AttemptOf(v, n, dates, id);
  }

  lemma AgreeRule(w: World, v: World, n: string, dates: seq<string>, id: string, a: Attempt) returns (r: Rule)
    requires AgreeOn(w, v, id) && a in Attempts(w, n, dates) && a.group.userId == id
    ensures r in v.rules && r.active && r.networkId == n != ""
  {
    FirstRuleDecides(w, n, dates, a);
    r := a.group.rules[0];
    assert r in a.group.rules;
    AttemptedRules(w, n, dates, a, r);
    ReportTo(w, n, dates, a);
    UnderItsUserId(w, n, dates, a, r);
    FilterMembers(TellsId(w, id), w.rules);
    FilterMembers(TellsId(v, id), v.rules);
    assert r in Filter(TellsId(w, id), w.rules);
  }

  lemma AgreeRun(config: Config, w: World, v: World, namespace: string, dates: seq<string>, id: string, a: Attempt)
    requires AgreeOn(w, v, id) && a in RunAttempts(config, w, namespace, dates) && a.group.userId == id
    ensures a in RunAttempts(config, v, namespace, dates)
  {
    OverMembers(w, NetworksFor(config, w.rules, namespace), dates);
    OverMembers(v, NetworksFor(config, v.rules, namespace), dates);
    var n :| n in NetworksFor(config, w.rules, namespace) && a in Attempts(w, n, dates);
    AgreeAttempts(w, v, n, dates, id, a);
    var r := AgreeRule(w, v, n, dates, id, a);
    NetworksShape(v.rules);
  }

  /** Whatever other rules are filed, an id that is asked for by the same rules is sent the very same
      reports by a run. */
  lemma ReportsIsolated(config: Config, w: World, v: World, namespace: string, dates: seq<string>, id: string)
    requires AgreeOn(w, v, id)
    ensures forall a: Attempt :: a.group.userId == id ==>
      (a in RunAttempts(config, w, namespace, dates) <==> a in RunAttempts(config, v, namespace, dates))
  {
    AgreeSymmetric(w, v, id);
    forall a: Attempt | a.group.userId == id
      ensures a in RunAttempts(config, w, namespace, dates) <==> a in RunAttempts(config, v, namespace, dates)
    {
      if a in RunAttempts(config, w, namespace, dates) {
        AgreeRun(config, w, v, namespace, dates, id, a);
      }
      if a in RunAttempts(config, v, namespace, dates) {
        AgreeRun(config, v, w, namespace, dates, id, a);
      }
    }
  }
}
