/** What merging and dispatching promise: no rule is lost or told twice, a group says what its
    members ask for, and the order in which the database returns the rules does not matter. */
module DispatchProofs {
  import opened Options
  import opened Sequences
  import opened Exposure
  import opened ExposureSums
  import opened Recipients
  import opened RecipientsProofs
  import opened CanonicalKey
  import opened Tables
  import opened Dispatch

  // ----- A group and its members -----

  function Members(digest: string -> string, hits: seq<Hit>, id: string): seq<Hit> {
    Filter(HasUserId(digest, id), hits)
  }

  predicate HasVector(hits: seq<Hit>, v: string) {
    exists h :: h in hits && v in h.vectors
  }

  predicate SomeWarning(hits: seq<Hit>) {
    exists h :: h in hits && h.rule.threshold == "WARNING"
  }

  lemma {:induction false} GatheredRules(id: string, m: seq<Hit>)
    ensures var g := Gathered(id, m);
      g.userId == id && g.rules == Map(RuleOf(), m) && (m != [] ==> g.recipients == m[0].recipients)
  {
    if |m| > 1 {
      GatheredRules(id, m[..|m| - 1]);
    }
  }

  lemma {:induction false} GatheredVectors(id: string, m: seq<Hit>, v: string)
    ensures v in Gathered(id, m).vectors <==> HasVector(m, v)
  {
    if |m| == 0 {
    } else {
      var n := |m| - 1;
      assert m == m[..n] + [m[n]];
      GatheredVectors(id, m[..n], v);
      assert HasVector(m, v) <==> HasVector(m[..n], v) || v in m[n].vectors;
    }
  }

  lemma {:induction false} GatheredThreshold(id: string, m: seq<Hit>)
    ensures Gathered(id, m).threshold == if SomeWarning(m) then "WARNING" else "ALERT"
  {
    if |m| == 0 {
    } else {
      var n := |m| - 1;
      assert m == m[..n] + [m[n]];
      GatheredThreshold(id, m[..n]);
      assert SomeWarning(m) <==> SomeWarning(m[..n]) || m[n].rule.threshold == "WARNING";
    }
  }

  lemma GatheredIs(id: string, m: seq<Hit>)
    ensures var g := Gathered(id, m);
      && g.userId == id
      && g.rules == Map(RuleOf(), m)
      && (forall v :: v in g.vectors <==> HasVector(m, v))
      && g.threshold == (if SomeWarning(m) then "WARNING" else "ALERT")
      && (m != [] ==> g.recipients == m[0].recipients)
  {
    GatheredRules(id, m);
    GatheredThreshold(id, m);
    forall v ensures v in Gathered(id, m).vectors <==> HasVector(m, v) {
      GatheredVectors(id, m, v);
    }
  }

  /** A group holds its members' rules and no others, the union of their triggered hazards, and
      the lowest of their floors. */
  lemma GroupSaysWhatMembersAsk(digest: string -> string, hits: seq<Hit>, id: string)
    ensures var g, m := GroupOf(digest, hits, id), Members(digest, hits, id);
      && g.userId == id
      && g.rules == Map(RuleOf(), m)
      && (forall v :: v in g.vectors <==> HasVector(m, v))
      && (Floor(Some(g.threshold)) == "WARNING" <==> exists h :: h in m && Floor(Some(h.rule.threshold)) == "WARNING")
      && (m != [] ==> g.recipients == m[0].recipients)
  {
    GatheredIs(id, Members(digest, hits, id));
  }

  // ----- No rule lost, none twice -----

  function HasIdTest(digest: string -> string): string -> (Hit -> bool) { (id: string) => HasUserId(digest, id) }

  function GroupWeight(f: Rule -> real): Group -> real { (g: Group) => SumOf(f, g.rules) }

  lemma GroupWeightIs(f: Rule -> real, digest: string -> string, hits: seq<Hit>, id: string)
    ensures Compose(GroupWeight(f), GroupIn(digest, hits))(id)
         == ClassSum(Compose(f, RuleOf()), HasIdTest(digest), hits)(id)
  {
    GatheredIs(id, Members(digest, hits, id));
    SumMap(f, RuleOf(), Members(digest, hits, id));
  }

  /** Whatever is measured of rules, the groups together hold exactly the triggered rules. */
  lemma MergePartitions(f: Rule -> real, digest: string -> string, hits: seq<Hit>)
    ensures SumOf(GroupWeight(f), Merged(digest, hits)) == SumOf(f, Map(RuleOf(), hits))
  {
    var ids := GroupIds(digest, hits);
    SumMap(GroupWeight(f), GroupIn(digest, hits), ids);
    forall id ensures Compose(GroupWeight(f), GroupIn(digest, hits))(id)
                   == ClassSum(Compose(f, RuleOf()), HasIdTest(digest), hits)(id)
    {
      GroupWeightIs(f, digest, hits, id);
    }
    SumCongruent(Compose(GroupWeight(f), GroupIn(digest, hits)),
                 ClassSum(Compose(f, RuleOf()), HasIdTest(digest), hits), ids);
    SumByClass(Compose(f, RuleOf()), HasIdTest(digest), ids, hits);
    EveryHitHasAGroup(digest, hits);
    FilterAll(InSome(HasIdTest(digest), ids), hits);
    SumMap(f, RuleOf(), hits);
  }

  lemma EveryHitHasAGroup(digest: string -> string, hits: seq<Hit>)
    ensures forall i :: 0 <= i < |hits| ==> InSome(HasIdTest(digest), GroupIds(digest, hits))(hits[i])
  {
    MapMembers(IdOf(digest), hits);
    forall i | 0 <= i < |hits| ensures InSome(HasIdTest(digest), GroupIds(digest, hits))(hits[i]) {
      var id := IdOf(digest)(hits[i]);
      assert hits[i] in hits && id in GroupIds(digest, hits);
      assert HasIdTest(digest)(id)(hits[i]);
    }
  }

  function GroupKey(): Group -> string { (g: Group) => g.userId }

  lemma MergedIds(digest: string -> string, hits: seq<Hit>)
    ensures Map(GroupKey(), Merged(digest, hits)) == GroupIds(digest, hits)
    ensures NoDup(GroupIds(digest, hits))
  {
    var ids := GroupIds(digest, hits);
    forall i | 0 <= i < |ids| ensures Map(GroupKey(), Merged(digest, hits))[i] == ids[i] {
      GatheredIs(ids[i], Members(digest, hits, ids[i]));
    }
  }

  predicate DistinctRules(hits: seq<Hit>) {
    forall i, j :: 0 <= i < j < |hits| ==> hits[i].rule.id != hits[j].rule.id
  }

  /** With distinct rule ids, each triggered rule is in one group, the one of its own addressees,
      and in no other. */
  lemma RuleInOneGroup(digest: string -> string, hits: seq<Hit>, h: Hit)
    requires h in hits && DistinctRules(hits)
    ensures HitId(digest, h) in GroupIds(digest, hits)
    ensures forall id :: h.rule in GroupOf(digest, hits, id).rules <==> id == HitId(digest, h)
  {
    NoMembers(digest, hits, HitId(digest, h));
    FilterMembers(HasUserId(digest, HitId(digest, h)), hits);
    forall id ensures h.rule in GroupOf(digest, hits, id).rules <==> id == HitId(digest, h) {
      GatheredIs(id, Members(digest, hits, id));
      FilterMembers(HasUserId(digest, id), hits);
      MapMembers(RuleOf(), Members(digest, hits, id));
      if h.rule in GroupOf(digest, hits, id).rules {
        var k :| k in Members(digest, hits, id) && RuleOf()(k) == h.rule;
        SameRuleSameHit(hits, h, k);
      }
    }
  }

  lemma SameRuleSameHit(hits: seq<Hit>, h: Hit, k: Hit)
    requires DistinctRules(hits) && h in hits && k in hits && h.rule == k.rule
    ensures h == k
  {
    var i :| 0 <= i < |hits| && hits[i] == h;
    var j :| 0 <= j < |hits| && hits[j] == k;
    assert i == j;
  }

  // ----- The order of the rules -----

  lemma HitsPermuted(a: seq<Rule>, b: seq<Rule>, rows: seq<Row>, settings: map<string, Settings>)
    requires multiset(a) == multiset(b)
    ensures multiset(Hits(a, rows, settings)) == multiset(Hits(b, rows, settings))
  {
    FilterPermutation(Triggers(rows), a, b);
    MapPermutation(HitFor(rows, settings), Filter(Triggers(rows), a), Filter(Triggers(rows), b));
  }

  /** Two hits share an id only when they are addressed alike: to the same list up to order and
      case, or to the same operator without a list. */
  ghost predicate Honest(digest: string -> string, hits: seq<Hit>) {
    forall h, k :: h in hits && k in hits && HitId(digest, h) == HitId(digest, k)
      ==> (h.recipients == [] <==> k.recipients == []) && SameAddresses(h.recipients, k.recipients)
  }

  ghost predicate NoCollision(digest: string -> string, hits: seq<Hit>) {
    forall h, k :: h in hits && k in hits && digest(Canonical(h.recipients)) == digest(Canonical(k.recipients))
      ==> Canonical(h.recipients) == Canonical(k.recipients)
  }

  /** No operator's id is the synthetic id of a list in play. */
  ghost predicate NoSyntheticLook(digest: string -> string, hits: seq<Hit>) {
    forall h, k :: h in hits && k in hits && k.recipients != [] ==> h.rule.userId != SyntheticId(digest, k.recipients)
  }

  /** Ids are honest when the digest has no collision among the lists in play, no list has a
      loose piece, and no operator's id looks like a synthetic one. */
  lemma IdsAreHonest(digest: string -> string, hits: seq<Hit>)
    requires NoCollision(digest, hits)
    requires forall h :: h in hits ==> AllAddresses(h.recipients) && !Loose(Pieces(h.recipients))
    requires NoSyntheticLook(digest, hits)
    ensures Honest(digest, hits)
  {
    forall h, k | h in hits && k in hits && HitId(digest, h) == HitId(digest, k)
      ensures (h.recipients == [] <==> k.recipients == []) && SameAddresses(h.recipients, k.recipients)
    {
      assert h.recipients == [] <==> k.recipients == [];
      if h.recipients != [] {
        SameEnd("email-ingest:", digest(Canonical(h.recipients)), digest(Canonical(k.recipients)));
        CanonicalExactly(h.recipients, k.recipients);
      }
    }
  }

  /** Groups that tell the same addressees the same thing. */
  ghost predicate SameGroup(g: Group, k: Group) {
    && g.userId == k.userId
    && (forall v :: v in g.vectors <==> v in k.vectors)
    && g.threshold == k.threshold
    && multiset(g.rules) == multiset(k.rules)
    && SameAddresses(g.recipients, k.recipients)
  }

  lemma SameMembersHits(a: seq<Hit>, b: seq<Hit>)
    requires multiset(a) == multiset(b)
    ensures forall h :: h in a <==> h in b
  {
    forall h ensures h in a <==> h in b {
      assert h in multiset(a) <==> h in multiset(b);
    }
  }

  /** Merging the hits in another order gives the same groups: same ids, hazards, threshold and
      rules, and the same recipients up to order and case. */
  lemma MergeIgnoresOrder(digest: string -> string, a: seq<Hit>, b: seq<Hit>, id: string)
    requires multiset(a) == multiset(b) && Honest(digest, a)
    ensures id in GroupIds(digest, a) <==> id in GroupIds(digest, b)
    ensures SameGroup(GroupOf(digest, a, id), GroupOf(digest, b, id))
  {
    var m, n := Members(digest, a, id), Members(digest, b, id);
    FilterPermutation(HasUserId(digest, id), a, b);
    SameMembersHits(m, n);
    MapPermutation(RuleOf(), m, n);
    GatheredIs(id, m);
    GatheredIs(id, n);
    SameIds(digest, a, b, id);
    assert |multiset(m)| == |m| && |multiset(n)| == |n|;
    if |m| > 0 {
      FilterMembers(HasUserId(digest, id), a);
      assert m[0] in m && n[0] in n && n[0] in m;
    }
    forall v ensures HasVector(m, v) <==> HasVector(n, v) {
    }
  }

  lemma SameIds(digest: string -> string, a: seq<Hit>, b: seq<Hit>, id: string)
    requires multiset(a) == multiset(b)
    ensures id in GroupIds(digest, a) <==> id in GroupIds(digest, b)
  {
    SameMembersHits(a, b);
    MapMembers(IdOf(digest), a);
    MapMembers(IdOf(digest), b);
  }

  // ----- Attempts -----

  function AttemptGroup(): Attempt -> Group { (a: Attempt) => a.group }
  function AttemptKey(): Attempt -> string { (a: Attempt) => a.group.userId }
  function AttemptWeight(f: Rule -> real): Attempt -> real { (a: Attempt) => SumOf(f, a.group.rules) }

  predicate IsEligible(world: World, networkId: string, dates: seq<string>, r: Rule) {
    && r.active && r.networkId == networkId
    && RuleTriggers(r, Fetched(world, networkId, dates))
  }

  /** The rules of this network that must be told: active, and triggered by the rows fetched. */
  function Eligible(world: World, networkId: string, dates: seq<string>): Rule -> bool {
    (r: Rule) => IsEligible(world, networkId, dates, r)
  }

  lemma {:induction false} FilterFilter<T>(p: T -> bool, q: T -> bool, both: T -> bool, xs: seq<T>)
    requires forall x :: both(x) <==> p(x) && q(x)
    ensures Filter(q, Filter(p, xs)) == Filter(both, xs)
  {
    if |xs| == 0 {
    } else {
      var n := |xs| - 1;
      FilterFilter(p, q, both, xs[..n]);
      var r := Filter(p, xs[..n]);
      if p(xs[n]) {
        assert (r + [xs[n]])[..|r|] == r;
      }
    }
  }

  lemma {:induction false} MapMap<A, B, C>(f: A -> B, g: B -> C, h: A -> C, xs: seq<A>)
    requires forall x :: g(f(x)) == h(x)
    ensures Map(g, Map(f, xs)) == Map(h, xs)
  {
  }

  lemma {:induction false} MapIdentity<T>(f: T -> T, xs: seq<T>)
    requires forall x :: f(x) == x
    ensures Map(f, xs) == xs
  {
  }

  function Same(): Rule -> Rule { (r: Rule) => r }

  lemma HitRules(world: World, networkId: string, dates: seq<string>)
    ensures var rows := Fetched(world, networkId, dates);
      Map(RuleOf(), Hits(ActiveRules(world, networkId), rows, world.settings))
      == Filter(Eligible(world, networkId, dates), world.rules)
  {
    var rows := Fetched(world, networkId, dates);
    var kept := Filter(Triggers(rows), ActiveRules(world, networkId));
    MapMap(HitFor(rows, world.settings), RuleOf(), Same(), kept);
    MapIdentity(Same(), kept);
    FilterFilter(IsActiveFor(networkId), Triggers(rows), Eligible(world, networkId, dates), world.rules);
  }

  lemma NothingTriggers(rules: seq<Rule>)
    ensures Filter(Triggers([]), rules) == []
  {
    forall i | 0 <= i < |rules| ensures !Triggers([])(rules[i]) {
      FilterNone(IsHit([], Some(rules[i].threshold)), RiskTypes(rules[i]));
    }
    FilterNone(Triggers([]), rules);
  }

  lemma NoRowsNoHits(rules: seq<Rule>, settings: map<string, Settings>)
    ensures Hits(rules, [], settings) == []
  {
    NothingTriggers(rules);
  }

  /** The attempts of a dispatch are its groups, each with its report. */
  lemma AttemptGroups(world: World, networkId: string, dates: seq<string>)
    ensures Map(AttemptGroup(), Attempts(world, networkId, dates))
         == Groups(world, networkId, Fetched(world, networkId, dates))
  {
    var rows := Fetched(world, networkId, dates);
    if rows == [] || dates == [] {
      NoRowsNoHits(ActiveRules(world, networkId), world.settings);
    } else {
      var groups := Groups(world, networkId, rows);
      MapMap(AttemptFor(world.appUrl, networkId, rows, dates), AttemptGroup(), SameG(), groups);
      MapIdentity(SameG(), groups);
    }
  }

  function SameG(): Group -> Group { (g: Group) => g }

  /** Over one dispatch each rule that must be told is in one attempted report and every rule in
      an attempted report must be told, whatever is measured of rules. */
  lemma AttemptsCover(f: Rule -> real, world: World, networkId: string, dates: seq<string>)
    ensures SumOf(AttemptWeight(f), Attempts(world, networkId, dates))
         == SumOf(f, Filter(Eligible(world, networkId, dates), world.rules))
  {
    var attempts := Attempts(world, networkId, dates);
    var hits := Hits(ActiveRules(world, networkId), Fetched(world, networkId, dates), world.settings);
    AttemptGroups(world, networkId, dates);
    SumMap(GroupWeight(f), AttemptGroup(), attempts);
    SumCongruent(AttemptWeight(f), Compose(GroupWeight(f), AttemptGroup()), attempts);
    MergePartitions(f, world.digest, hits);
    HitRules(world, networkId, dates);
  }

  lemma AttemptKeys(world: World, networkId: string, dates: seq<string>)
    ensures NoDup(Map(AttemptKey(), Attempts(world, networkId, dates)))
  {
    AttemptGroups(world, networkId, dates);
    MergedIds(world.digest, Hits(ActiveRules(world, networkId), Fetched(world, networkId, dates), world.settings));
    MapMap(AttemptGroup(), GroupKey(), AttemptKey(), Attempts(world, networkId, dates));
  }

  lemma DistinctByKey<T>(key: T -> string, s: seq<T>)
    requires NoDup(Map(key, s))
    ensures DistinctKeys(key, s)
  {
    forall i, j | 0 <= i < j < |s| ensures key(s[i]) != key(s[j]) {
      assert Map(key, s)[i] != Map(key, s)[j];
    }
  }

  /** No user id is addressed twice by one dispatch. */
  lemma AttemptsDistinct(world: World, networkId: string, dates: seq<string>)
    ensures DistinctKeys(AttemptKey(), Attempts(world, networkId, dates))
  {
    AttemptKeys(world, networkId, dates);
    DistinctByKey(AttemptKey(), Attempts(world, networkId, dates));
  }

  /** Every rule behind an attempt is active, belongs to the dispatched network, which has a name,
      and triggered on the rows fetched. */
  lemma AttemptedRules(world: World, networkId: string, dates: seq<string>, a: Attempt, r: Rule)
    requires a in Attempts(world, networkId, dates) && r in a.group.rules
    ensures r in world.rules && IsEligible(world, networkId, dates, r)
    ensures networkId != "" && a.networkId == networkId
  {
    var attempts := Attempts(world, networkId, dates);
    var hits := Hits(ActiveRules(world, networkId), Fetched(world, networkId, dates), world.settings);
    AttemptGroups(world, networkId, dates);
    MapMembers(AttemptGroup(), attempts);
    assert AttemptGroup()(a) in Merged(world.digest, hits);
    GroupRule(world.digest, hits, a.group, r);
    HitRules(world, networkId, dates);
    FilterMembers(Eligible(world, networkId, dates), world.rules);
    AttemptNetwork(world, networkId, dates, a);
  }

  lemma GroupRule(digest: string -> string, hits: seq<Hit>, g: Group, r: Rule)
    requires g in Merged(digest, hits) && r in g.rules
    ensures r in Map(RuleOf(), hits)
  {
    MapMembers(GroupIn(digest, hits), GroupIds(digest, hits));
    var id :| id in GroupIds(digest, hits) && GroupIn(digest, hits)(id) == g;
    var m := Members(digest, hits, id);
    GatheredIs(id, m);
    MapMembers(RuleOf(), m);
    MapMembers(RuleOf(), hits);
    FilterMembers(HasUserId(digest, id), hits);
  }

  lemma AttemptNetwork(world: World, networkId: string, dates: seq<string>, a: Attempt)
    requires a in Attempts(world, networkId, dates)
    ensures networkId != "" && a.networkId == networkId
  {
    var rows := Fetched(world, networkId, dates);
    MapMembers(AttemptFor(world.appUrl, networkId, rows, dates), Groups(world, networkId, rows));
  }

  // ----- The order the database returns the rules in -----

  /** The same world, its rules returned in another order. */
  ghost predicate Reordered(w: World, v: World) {
    v == w.(rules := v.rules) && multiset(v.rules) == multiset(w.rules)
  }

  lemma SameFetched(w: World, v: World, networkId: string, dates: seq<string>)
    requires Reordered(w, v)
    ensures multiset(ActiveRules(w, networkId)) == multiset(ActiveRules(v, networkId))
    ensures Fetched(w, networkId, dates) == Fetched(v, networkId, dates)
  {
    FilterPermutation(IsActiveFor(networkId), w.rules, v.rules);
    var a, b := ActiveRules(w, networkId), ActiveRules(v, networkId);
    assert |multiset(a)| == |a| && |multiset(b)| == |b|;
  }

  /** Everything of a report but its list of addresses. */
  predicate SameButRecipients(r: Report, s: Report) {
    r.(emailRecipients := s.emailRecipients) == s
  }

  lemma SameReport(appUrl: string, networkId: string, g: Group, k: Group, rows: seq<Row>, dates: seq<string>)
    requires SameGroup(g, k) && dates != []
    ensures SameButRecipients(ReportFor(appUrl, networkId, g, rows, dates),
        ReportFor(appUrl, networkId, k, rows, dates))
  {
    SortedSetSame(g.vectors, k.vectors);
  }

  lemma SameHits(w: World, v: World, networkId: string, dates: seq<string>)
    requires Reordered(w, v)
    ensures var rows := Fetched(w, networkId, dates);
      multiset(Hits(ActiveRules(w, networkId), rows, w.settings))
        == multiset(Hits(ActiveRules(v, networkId), rows, v.settings))
  {
    SameFetched(w, v, networkId, dates);
    HitsPermuted(ActiveRules(w, networkId), ActiveRules(v, networkId), Fetched(w, networkId, dates), w.settings);
  }

  function NetworkHits(w: World, networkId: string, dates: seq<string>): seq<Hit> {
    Hits(ActiveRules(w, networkId), Fetched(w, networkId, dates), w.settings)
  }

  /** Where an attempt comes from: the group of its user id. */
  lemma AttemptIs(w: World, networkId: string, dates: seq<string>, a: Attempt)
    requires a in Attempts(w, networkId, dates)
    ensures dates != [] && a.group.userId in GroupIds(w.digest, NetworkHits(w, networkId, dates))
    ensures a.group == GroupOf(w.digest, NetworkHits(w, networkId, dates), a.group.userId)
    ensures a == AttemptFor(w.appUrl, networkId, Fetched(w, networkId, dates), dates)(a.group)
  {
    var rows := Fetched(w, networkId, dates);
    MapMembers(AttemptFor(w.appUrl, networkId, rows, dates), Groups(w, networkId, rows));
    GroupIs(w.digest, NetworkHits(w, networkId, dates), a.group);
  }

  lemma GroupIs(digest: string -> string, hits: seq<Hit>, g: Group)
    requires g in Merged(digest, hits)
    ensures g.userId in GroupIds(digest, hits) && g == GroupOf(digest, hits, g.userId)
  {
    MapMembers(GroupIn(digest, hits), GroupIds(digest, hits));
    var id :| id in GroupIds(digest, hits) && GroupIn(digest, hits)(id) == g;
    GatheredIs(id, Members(digest, hits, id));
  }

  lemma AttemptOf(w: World, networkId: string, dates: seq<string>, id: string)
    requires dates != [] && id in GroupIds(w.digest, NetworkHits(w, networkId, dates))
    ensures var rows, hits := Fetched(w, networkId, dates), NetworkHits(w, networkId, dates);
      AttemptFor(w.appUrl, networkId, rows, dates)(GroupOf(w.digest, hits, id)) in Attempts(w, networkId, dates)
  {
    var rows, hits := Fetched(w, networkId, dates), NetworkHits(w, networkId, dates);
    NoRowsNoHits(ActiveRules(w, networkId), w.settings);
    assert rows != [];
    GroupMade(w.digest, hits, id);
    MapMembers(AttemptFor(w.appUrl, networkId, rows, dates), Groups(w, networkId, rows));
  }

  lemma GroupMade(digest: string -> string, hits: seq<Hit>, id: string)
    requires id in GroupIds(digest, hits)
    ensures GroupOf(digest, hits, id) in Merged(digest, hits)
  {
    MapMembers(GroupIn(digest, hits), GroupIds(digest, hits));
    assert GroupIn(digest, hits)(id) in Merged(digest, hits);
  }

  /** However the database orders the rules, each user id gets the same report, except that the
      addresses in it may come in another order or spelling. */
  lemma AttemptsIgnoreRuleOrder(w: World, v: World, networkId: string, dates: seq<string>, a: Attempt)
    returns (b: Attempt)
    requires Reordered(w, v) && Honest(w.digest, NetworkHits(w, networkId, dates))
    requires a in Attempts(w, networkId, dates)
    ensures b in Attempts(v, networkId, dates)
    ensures SameGroup(a.group, b.group) && SameButRecipients(a.report, b.report)
    ensures SameAddresses(a.report.emailRecipients, b.report.emailRecipients)
  {
    AttemptIs(w, networkId, dates, a);
    SameFetched(w, v, networkId, dates);
    SameHits(w, v, networkId, dates);
    var hw, hv := NetworkHits(w, networkId, dates), NetworkHits(v, networkId, dates);
    var id := a.group.userId;
    MergeIgnoresOrder(w.digest, hw, hv, id);
    AttemptOf(v, networkId, dates, id);
    var rows, k := Fetched(v, networkId, dates), GroupOf(v.digest, hv, id);
    SameReport(w.appUrl, networkId, a.group, k, rows, dates);
    b := AttemptFor(v.appUrl, networkId, rows, dates)(k);
  }

  // ----- What reaches the addressees -----

  lemma RecipientsParsed(rule: Rule, settings: map<string, Settings>)
    ensures Parsed(RuleRecipients(rule, settings))
  {
    ParseParsed(rule.recipients);
    ParseParsed(EmailSettings(settings, rule.userId));
  }

  lemma HitsParsed(rules: seq<Rule>, rows: seq<Row>, settings: map<string, Settings>)
    ensures forall h :: h in Hits(rules, rows, settings) ==> AllAddresses(h.recipients)
  {
    MapMembers(HitFor(rows, settings), Filter(Triggers(rows), rules));
    forall h | h in Hits(rules, rows, settings) ensures AllAddresses(h.recipients) {
      var r :| r in Filter(Triggers(rows), rules) && HitFor(rows, settings)(r) == h;
      RecipientsParsed(r, settings);
    }
  }

  /** In a network whose lists have no loose piece, whose operators have no id like a synthetic one, and
      with no digest collision among its lists, ids are honest. */
  lemma NetworkIdsHonest(w: World, networkId: string, dates: seq<string>)
    requires NoCollision(w.digest, NetworkHits(w, networkId, dates))
    requires forall h :: h in NetworkHits(w, networkId, dates) ==> !Loose(Pieces(h.recipients))
    requires NoSyntheticLook(w.digest, NetworkHits(w, networkId, dates))
    ensures Honest(w.digest, NetworkHits(w, networkId, dates))
  {
    HitsParsed(ActiveRules(w, networkId), Fetched(w, networkId, dates), w.settings);
    IdsAreHonest(w.digest, NetworkHits(w, networkId, dates));
  }

  lemma DaysSay(rows: seq<Row>, dates: seq<string>, vectors: seq<string>, threshold: Option<string>, topN: nat, i: nat)
    requires i < |dates|
    ensures var days := Days(rows, dates, vectors, threshold, topN);
      && days[i].date == dates[i] && |days[i].vectors| == |vectors|
      && forall j :: 0 <= j < |vectors| ==> days[i].vectors[j].riskVector == vectors[j]
  {
    var day := DayIn(rows, vectors, threshold, topN)(dates[i]);
    assert Days(rows, dates, vectors, threshold, topN)[i] == day;
    assert day.vectors == Map(BlockIn(rows, dates[i], threshold, topN), vectors);
  }

  /** The report covers the horizon date by date, with one block per hazard it names, in order. */
  predicate Covers(r: Report, dates: seq<string>) {
    && |r.days| == |dates|
    && (forall i :: 0 <= i < |dates| ==> r.days[i].date == dates[i] && |r.days[i].vectors| == |r.riskTypes|)
    && (forall i, j :: 0 <= i < |dates| && 0 <= j < |r.riskTypes| ==> r.days[i].vectors[j].riskVector == r.riskTypes[j])
  }

  /** A report names exactly the hazards that triggered for the group's rules, in string order,
      covers the horizon with them, and goes to the group's list. */
  lemma ReportSays(w: World, networkId: string, dates: seq<string>, a: Attempt)
    requires a in Attempts(w, networkId, dates)
    ensures var r := a.report;
      && r.userId == a.group.userId && r.networkId == networkId && r.dates == dates && r.period == dates[0]
      && r.emailRecipients == a.group.recipients && r.threshold == a.group.threshold
      && Sorted(StrLe, r.riskTypes) && NoDup(r.riskTypes)
      && (forall v :: v in r.riskTypes <==> HasVector(Members(w.digest, NetworkHits(w, networkId, dates), r.userId), v))
      && Covers(r, dates)
  {
    AttemptIs(w, networkId, dates, a);
    ReportOfGroup(w.digest, NetworkHits(w, networkId, dates), w.appUrl, networkId, Fetched(w, networkId, dates),
      dates, a);
  }

  lemma ReportOfGroup(digest: string -> string, hits: seq<Hit>, appUrl: string, networkId: string, rows: seq<Row>,
                      dates: seq<string>, a: Attempt)
    requires dates != [] && a.group == GroupOf(digest, hits, a.group.userId)
    requires a == AttemptFor(appUrl, networkId, rows, dates)(a.group)
    ensures var r := a.report;
      && r.userId == a.group.userId && r.networkId == networkId && r.dates == dates && r.period == dates[0]
      && r.emailRecipients == a.group.recipients && r.threshold == a.group.threshold
      && Sorted(StrLe, r.riskTypes) && NoDup(r.riskTypes)
      && (forall v :: v in r.riskTypes <==> HasVector(Members(digest, hits, r.userId), v))
      && Covers(r, dates)
  {
    ReportNames(appUrl, networkId, a.group, rows, dates);
    GroupSaysWhatMembersAsk(digest, hits, a.group.userId);
  }

  lemma ReportNames(appUrl: string, networkId: string, g: Group, rows: seq<Row>, dates: seq<string>)
    requires dates != []
    ensures var r := ReportFor(appUrl, networkId, g, rows, dates);
      && r.userId == g.userId && r.networkId == networkId && r.dates == dates && r.period == dates[0]
      && r.emailRecipients == g.recipients && r.threshold == g.threshold
      && Sorted(StrLe, r.riskTypes) && NoDup(r.riskTypes) && (forall v :: v in r.riskTypes <==> v in g.vectors)
      && Covers(r, dates)
  {
    SortedSetProperties(g.vectors);
    ReportCovers(appUrl, networkId, g, rows, dates);
  }

  lemma ReportCovers(appUrl: string, networkId: string, g: Group, rows: seq<Row>, dates: seq<string>)
    requires dates != []
    ensures Covers(ReportFor(appUrl, networkId, g, rows, dates), dates)
  {
    var vectors := SortedSet(g.vectors);
    var days := Days(rows, dates, vectors, Some(g.threshold), TOP_LINES);
    forall i | 0 <= i < |dates|
      ensures days[i].date == dates[i] && |days[i].vectors| == |vectors|
      ensures forall j :: 0 <= j < |vectors| ==> days[i].vectors[j].riskVector == vectors[j]
    {
      DaysSay(rows, dates, vectors, Some(g.threshold), TOP_LINES, i);
    }
  }
}
