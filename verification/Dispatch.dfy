/** The alert dispatcher (`services/alert_dispatcher.py`): which rules trigger, how they merge per
    recipient list, and which reports are attempted. The database, the Digital Twin and the
    digest enter as a `World`; nudging is an object that logs every attempt and fails where its
    oracle says so. */
module Dispatch {
  import opened Options
  import opened Sequences
  import opened Exposure
  import opened Recipients
  import opened Tables

  const TOP_LINES: nat := 15

  datatype World = World(
    rules: seq<Rule>,
    settings: map<string, Settings>,
    fetch: (string, seq<string>) -> Option<seq<Row>>,  // None where the fetch raises
    digest: string -> string,
    appUrl: string)

  // ----- Recipients of a rule -----

  function EmailSettings(settings: map<string, Settings>, userId: string): Option<string> {
    if userId in settings then settings[userId].emailRecipients else None
  }

  /** The rule's own list, else its operator's. */
  function RuleRecipients(rule: Rule, settings: map<string, Settings>): seq<string> {
    var own := Parse(rule.recipients);
    if own != [] then own else Parse(EmailSettings(settings, rule.userId))
  }

  method RuleEmailRecipients(rule: Rule, settings: map<string, Settings>) returns (recipients: seq<string>)
    ensures recipients == RuleRecipients(rule, settings)
  {
    recipients := ParseRecipients(rule.recipients);
    if recipients != [] {
      return;
    }
    recipients := ParseRecipients(EmailSettings(settings, rule.userId));
  }

  // ----- Rules that trigger -----

  datatype Hit = Hit(rule: Rule, vectors: seq<string>, recipients: seq<string>)

  function RiskTypes(rule: Rule): seq<string> {
    match rule.riskTypes
    case Some(types) => types
    case None => []
  }

  function RuleVectors(rule: Rule, rows: seq<Row>): seq<string> {
    Triggered(rows, Some(rule.threshold), RiskTypes(rule))
  }

  predicate RuleTriggers(rule: Rule, rows: seq<Row>) {
    RuleVectors(rule, rows) != []
  }

  function Triggers(rows: seq<Row>): Rule -> bool { (r: Rule) => RuleTriggers(r, rows) }

  function HitFor(rows: seq<Row>, settings: map<string, Settings>): Rule -> Hit {
    (r: Rule) => Hit(r, RuleVectors(r, rows), RuleRecipients(r, settings))
  }

  function Hits(rules: seq<Rule>, rows: seq<Row>, settings: map<string, Settings>): seq<Hit> {
    Map(HitFor(rows, settings), Filter(Triggers(rows), rules))
  }

  // ----- Merging per recipient list -----

  /** `vectors` lists what was put into the group's set of hazards; only its elements are read. */
  datatype Group = Group(
    userId: string,
    recipients: seq<string>,
    vectors: seq<string>,
    threshold: string,
    rules: seq<Rule>)

  /** Whom a hit is addressed to: the synthetic id of its list, or its operator when it has none. */
  function HitId(digest: string -> string, h: Hit): string {
    if h.recipients != [] then SyntheticId(digest, h.recipients) else h.rule.userId
  }

  function IdOf(digest: string -> string): Hit -> string { (h: Hit) => HitId(digest, h) }

  function HasUserId(digest: string -> string, id: string): Hit -> bool { (h: Hit) => HitId(digest, h) == id }

  function RuleOf(): Hit -> Rule { (h: Hit) => h.rule }

  /** A group after one more hit. */
  function Joined(g: Group, h: Hit): Group {
    g.(vectors := g.vectors + h.vectors,
       threshold := if h.rule.threshold == "WARNING" then "WARNING" else g.threshold,
       rules := g.rules + [h.rule])
  }

  /** A group before its first hit, which gives it its recipients. */
  function Opened(id: string, h: Hit): Group {
    Group(id, h.recipients, [], "ALERT", [])
  }

  function Gathered(id: string, hits: seq<Hit>): Group {
    if |hits| == 0 then Group(id, [], [], "ALERT", [])
    else
      var n := |hits| - 1;
      Joined(if n == 0 then Opened(id, hits[0]) else Gathered(id, hits[..n]), hits[n])
  }

  function GroupIds(digest: string -> string, hits: seq<Hit>): seq<string> {
    Distinct(Map(IdOf(digest), hits))
  }

  function GroupOf(digest: string -> string, hits: seq<Hit>, id: string): Group {
    Gathered(id, Filter(HasUserId(digest, id), hits))
  }

  function GroupIn(digest: string -> string, hits: seq<Hit>): string -> Group {
    (id: string) => GroupOf(digest, hits, id)
  }

  function Merged(digest: string -> string, hits: seq<Hit>): seq<Group> {
    Map(GroupIn(digest, hits), GroupIds(digest, hits))
  }

  lemma IdsStep(digest: string -> string, hits: seq<Hit>, i: nat)
    requires i < |hits|
    ensures GroupIds(digest, hits[..i + 1])
         == var ids := GroupIds(digest, hits[..i]); var id := HitId(digest, hits[i]);
            if id in ids then ids else ids + [id]
  {
    MapStep(IdOf(digest), hits, i);
    var ids := Map(IdOf(digest), hits[..i + 1]);
    assert ids[..|ids| - 1] == Map(IdOf(digest), hits[..i]);
  }

  lemma MembersStep(digest: string -> string, hits: seq<Hit>, i: nat, id: string)
    requires i < |hits|
    ensures Filter(HasUserId(digest, id), hits[..i + 1])
         == var m := Filter(HasUserId(digest, id), hits[..i]);
            if HitId(digest, hits[i]) == id then m + [hits[i]] else m
  {
    assert hits[..i + 1][..i] == hits[..i];
  }

  lemma NoMembers(digest: string -> string, hits: seq<Hit>, id: string)
    ensures id in GroupIds(digest, hits) <==> Filter(HasUserId(digest, id), hits) != []
  {
    MapMembers(IdOf(digest), hits);
    FilterMembers(HasUserId(digest, id), hits);
    HasMember(Filter(HasUserId(digest, id), hits));
    if id in GroupIds(digest, hits) {
      var h :| h in hits && IdOf(digest)(h) == id;
      assert h in Filter(HasUserId(digest, id), hits);
    }
  }

  lemma GatheredStep(id: string, m: seq<Hit>, h: Hit)
    ensures Gathered(id, m + [h]) == Joined(if m == [] then Opened(id, h) else Gathered(id, m), h)
  {
    assert (m + [h])[..|m|] == m;
  }

  ghost predicate Grouping(digest: string -> string, order: seq<string>, groups: map<string, Group>, hits: seq<Hit>) {
    && order == GroupIds(digest, hits)
    && (forall id :: id in groups <==> id in order)
    && (forall id :: id in groups ==> groups[id] == GroupOf(digest, hits, id))
  }

  lemma GroupAfter(digest: string -> string, hits: seq<Hit>, i: nat, j: string)
    requires i < |hits|
    ensures GroupOf(digest, hits[..i + 1], j)
         == var g := GroupOf(digest, hits[..i], j);
            if HitId(digest, hits[i]) != j then g
            else Joined(if j in GroupIds(digest, hits[..i]) then g else Opened(j, hits[i]), hits[i])
  {
    MembersStep(digest, hits, i, j);
    NoMembers(digest, hits[..i], j);
    GatheredStep(j, Filter(HasUserId(digest, j), hits[..i]), hits[i]);
  }

  /** `order` and `groups` with one more hit, as a dictionary keeps them. */
  ghost predicate Added(digest: string -> string, order: seq<string>, groups: map<string, Group>, h: Hit,
                        order': seq<string>, groups': map<string, Group>)
  {
    var id := HitId(digest, h);
    && order' == (if id in groups then order else order + [id])
    && groups' == groups[id := Joined(if id in groups then groups[id] else Opened(id, h), h)]
  }

  lemma GroupingStep(digest: string -> string, order: seq<string>, groups: map<string, Group>, hits: seq<Hit>, i: nat,
                     order': seq<string>, groups': map<string, Group>)
    requires i < |hits| && Grouping(digest, order, groups, hits[..i])
    requires Added(digest, order, groups, hits[i], order', groups')
    ensures Grouping(digest, order', groups', hits[..i + 1])
  {
    IdsStep(digest, hits, i);
    var shorter, longer := hits[..i], hits[..i + 1];
    forall j | j in groups' ensures groups'[j] == GroupOf(digest, longer, j) {
      GroupAfter(digest, hits, i, j);
    }
  }

  /** One step of the merge: open the group of the hit's list if it is new, then join the hit. */
  method AddHit(digest: string -> string, order: seq<string>, groups: map<string, Group>, h: Hit)
    returns (order': seq<string>, groups': map<string, Group>)
    ensures Added(digest, order, groups, h, order', groups')
  {
    var userId := HitId(digest, h);
    order', groups' := order, groups;
    if userId !in groups' {
      order' := order' + [userId];
      groups' := groups'[userId := Group(userId, h.recipients, [], "ALERT", [])];
    }
    var group := groups'[userId];
    group := group.(vectors := group.vectors + h.vectors);
    if h.rule.threshold == "WARNING" {
      group := group.(threshold := "WARNING");
    }
    group := group.(rules := group.rules + [h.rule]);
    groups' := groups'[userId := group];
  }

  method Values(order: seq<string>, groups: map<string, Group>, ghost f: string -> Group) returns (values: seq<Group>)
    requires forall id :: id in order ==> id in groups && groups[id] == f(id)
    ensures values == Map(f, order)
  {
    values := [];
    for i := 0 to |order|
      invariant values == Map(f, order[..i])
    {
      MapStep(f, order, i);
      assert order[i] in order;
      values := values + [groups[order[i]]];
    }
    assert order[..|order|] == order;
  }

  /** One group per distinct recipient list, in the order the lists first appear. */
  method MergeByRecipients(digest: string -> string, triggered: seq<Hit>) returns (merged: seq<Group>)
    ensures merged == Merged(digest, triggered)
  {
    var order: seq<string>, groups: map<string, Group> := [], map[];
    for i := 0 to |triggered|
      invariant Grouping(digest, order, groups, triggered[..i])
    {
      var order', groups' := AddHit(digest, order, groups, triggered[i]);
      GroupingStep(digest, order, groups, triggered, i, order', groups');
      order, groups := order', groups';
    }
    assert triggered[..|triggered|] == triggered;
    merged := Values(order, groups, GroupIn(digest, triggered));
  }

  // ----- Reports -----

  datatype Report = Report(
    userId: string,
    period: string,
    dates: seq<string>,
    networkId: string,
    threshold: string,
    riskTypes: seq<string>,
    appUrl: string,
    emailRecipients: seq<string>,
    days: seq<Day>)

  function ReportFor(appUrl: string, networkId: string, group: Group, rows: seq<Row>, dates: seq<string>): Report
    requires dates != []
  {
    var vectors := SortedSet(group.vectors);
    Report(group.userId, dates[0], dates, networkId, group.threshold, vectors, appUrl, group.recipients,
           Days(rows, dates, vectors, Some(group.threshold), TOP_LINES))
  }

  method BuildReportPayload(appUrl: string, networkId: string, group: Group, rows: seq<Row>, dates: seq<string>)
    returns (report: Report)
    requires dates != []
    ensures report == ReportFor(appUrl, networkId, group, rows, dates)
  {
    var vectors := SortedSet(group.vectors);
    var days := BuildDays(rows, dates, vectors, Some(group.threshold), TOP_LINES);
    report := Report(group.userId, dates[0], dates, networkId, group.threshold, vectors, appUrl,
                     group.recipients, days);
  }

  // ----- Sending -----

  /** One attempted send: the group it is for and the payload. */
  datatype Attempt = Attempt(networkId: string, group: Group, report: Report)

  /** The nudging service: every attempt is logged, and the `n`-th one raises where `fails(n)`. */
  class Nudging {
    var attempts: seq<Attempt>
    const fails: nat -> bool

    constructor (fails: nat -> bool)
      ensures attempts == [] && this.fails == fails
    {
      this.fails := fails;
      attempts := [];
    }

    method IngestEvent(attempt: Attempt) returns (ok: bool)
      modifies this
      ensures attempts == old(attempts) + [attempt]
      ensures ok <==> !fails(|old(attempts)|)
    {
      ok := !fails(|attempts|);
      attempts := attempts + [attempt];
    }
  }

  /** How many of `n` sends succeed, the first of them being number `from`. */
  function Delivered(fails: nat -> bool, from: nat, n: nat): nat {
    if n == 0 then 0 else Delivered(fails, from, n - 1) + if fails(from + n - 1) then 0 else 1
  }

  function IsActiveFor(networkId: string): Rule -> bool {
    (r: Rule) => r.networkId == networkId && r.active
  }

  function ActiveRules(world: World, networkId: string): seq<Rule> {
    Filter(IsActiveFor(networkId), world.rules)
  }

  /** The groups of a network's triggered rules. */
  function Groups(world: World, networkId: string, rows: seq<Row>): seq<Group> {
    Merged(world.digest, Hits(ActiveRules(world, networkId), rows, world.settings))
  }

  function AttemptFor(appUrl: string, networkId: string, rows: seq<Row>, dates: seq<string>): Group -> Attempt
    requires dates != []
  {
    (g: Group) => Attempt(networkId, g, ReportFor(appUrl, networkId, g, rows, dates))
  }

  /** The rows a dispatch works on; none when it does not ask or the fetch raises. */
  function Fetched(world: World, networkId: string, dates: seq<string>): seq<Row> {
    if dates == [] || networkId == "" || ActiveRules(world, networkId) == [] then []
    else match world.fetch(networkId, dates)
      case Some(rows) => rows
      case None => []
  }

  /** Everything one dispatch attempts to send, in order. */
  function Attempts(world: World, networkId: string, dates: seq<string>): seq<Attempt> {
    var rows := Fetched(world, networkId, dates);
    if rows == [] || dates == [] then []
    else Map(AttemptFor(world.appUrl, networkId, rows, dates), Groups(world, networkId, rows))
  }

  method EvaluateRule(world: World, rule: Rule, rows: seq<Row>) returns (hit: Option<Hit>)
    ensures hit == if RuleTriggers(rule, rows) then Some(HitFor(rows, world.settings)(rule)) else None
  {
    var vectors := TriggeredVectors(rows, Some(rule.threshold), RiskTypes(rule));
    if vectors == [] {
      return None;
    }
    var recipients := RuleEmailRecipients(rule, world.settings);
    hit := Some(Hit(rule, vectors, recipients));
  }

  method EvaluateRules(world: World, rules: seq<Rule>, rows: seq<Row>) returns (triggered: seq<Hit>)
    ensures triggered == Hits(rules, rows, world.settings)
  {
    triggered := [];
    for i := 0 to |rules|
      invariant triggered == Hits(rules[..i], rows, world.settings)
    {
      var hit := EvaluateRule(world, rules[i], rows);
      HitsStep(rules, i, rows, world.settings, hit);
      if hit.Some? {
        triggered := triggered + [hit.value];
      }
    }
    assert rules[..|rules|] == rules;
  }

  lemma HitsStep(rules: seq<Rule>, i: nat, rows: seq<Row>, settings: map<string, Settings>, hit: Option<Hit>)
    requires i < |rules|
    requires hit == if RuleTriggers(rules[i], rows) then Some(HitFor(rows, settings)(rules[i])) else None
    ensures Hits(rules[..i + 1], rows, settings)
         == if hit.Some? then Hits(rules[..i], rows, settings) + [hit.value] else Hits(rules[..i], rows, settings)
  {
    assert rules[..i + 1][..i] == rules[..i];
    var kept := Filter(Triggers(rows), rules[..i]);
    assert (kept + [rules[i]])[..|kept|] == kept;
  }

  /** `f` makes the attempts of this dispatch. */
  ghost predicate Makes(f: Group -> Attempt, appUrl: string, networkId: string, rows: seq<Row>, dates: seq<string>)
    requires dates != []
  {
    forall g {:trigger AttemptFor(appUrl, networkId, rows, dates)(g)} ::
      f(g) == AttemptFor(appUrl, networkId, rows, dates)(g)
  }

  method SendReport(appUrl: string, networkId: string, group: Group, rows: seq<Row>, dates: seq<string>,
                    nudging: Nudging, ghost f: Group -> Attempt)
    returns (ok: bool)
    requires dates != [] && Makes(f, appUrl, networkId, rows, dates)
    modifies nudging
    ensures nudging.attempts == old(nudging.attempts) + [f(group)]
    ensures ok <==> !nudging.fails(|old(nudging.attempts)|)
  {
    var payload := BuildReportPayload(appUrl, networkId, group, rows, dates);
    assert AttemptFor(appUrl, networkId, rows, dates)(group) == Attempt(networkId, group, payload);
    ok := nudging.IngestEvent(Attempt(networkId, group, payload));
  }

  method SendReports(appUrl: string, networkId: string, groups: seq<Group>, rows: seq<Row>, dates: seq<string>,
                     nudging: Nudging, ghost f: Group -> Attempt)
    returns (sent: nat)
    requires dates != [] && Makes(f, appUrl, networkId, rows, dates)
    modifies nudging
    ensures nudging.attempts == old(nudging.attempts) + Map(f, groups)
    ensures sent == Delivered(nudging.fails, |old(nudging.attempts)|, |groups|)
  {
    sent := 0;
    ghost var before := nudging.attempts;
    for i := 0 to |groups|
      invariant nudging.attempts == before + Map(f, groups[..i])
      invariant sent == Delivered(nudging.fails, |before|, i)
    {
      MapStep(f, groups, i);
      var ok := SendReport(appUrl, networkId, groups[i], rows, dates, nudging, f);
      if ok {
        sent := sent + 1;
      }
    }
    assert groups[..|groups|] == groups;
  }

  /** Each group's report is attempted once, in order, whatever the earlier sends did; the count
      returned is the number of sends that succeeded. */
  method DispatchGridAlerts(world: World, networkId: string, dates: seq<string>, nudging: Nudging) returns (sent: nat)
    modifies nudging
    ensures nudging.attempts == old(nudging.attempts) + Attempts(world, networkId, dates)
    ensures sent == Delivered(nudging.fails, |old(nudging.attempts)|, |Attempts(world, networkId, dates)|)
  {
    if dates == [] || networkId == "" {
      return 0;
    }
    var rules := ActiveRules(world, networkId);
    if rules == [] {
      return 0;
    }
    var fetched := world.fetch(networkId, dates);
    if fetched.None? {
      return 0;
    }
    var rows := fetched.value;
    if rows == [] {
      return 0;
    }
    var triggered := EvaluateRules(world, rules, rows);
    var groups := MergeByRecipients(world.digest, triggered);
    sent := SendReports(world.appUrl, networkId, groups, rows, dates, nudging,
                        AttemptFor(world.appUrl, networkId, rows, dates));
  }
}
