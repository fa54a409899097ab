/** What holds over every trace of requests: users do not see each other, and a rule keeps the
    owner and the network it was created with. */
module AlertTraces {
  import opened Options
  import opened Sequences
  import opened Tables
  import opened Policy
  import opened AlertStore

  // ----- Traces -----

  datatype Exchange = Exchange(call: Call, response: Response)

  datatype Trace = Trace(state: State, exchanges: seq<Exchange>)

  function Run(dev: bool, s: State, calls: seq<Call>): Trace {
    if |calls| == 0 then Trace(s, [])
    else
      var n := |calls| - 1;
      var t := Run(dev, s, calls[..n]);
      var (next, response) := Step(dev, t.state, calls[n]);
      Trace(next, t.exchanges + [Exchange(calls[n], response)])
  }

  function By(sub: string): Call -> bool { (c: Call) => c.user.sub == sub }
  function To(sub: string): Exchange -> bool { (x: Exchange) => x.call.user.sub == sub }

  // ----- What one user can see -----

  /** A user's rows: their rules in table order, and their settings. */
  datatype View = View(rules: seq<Rule>, settings: Option<Settings>)

  function ViewOf(s: State, sub: string): View {
    View(Filter(OwnedBy(sub), s.rules), SettingsOf(s, sub))
  }

  lemma {:induction false} FilterMapSame(sub: string, f: Rule -> Rule, xs: seq<Rule>)
    requires forall r :: f(r).userId == r.userId
    ensures Filter(OwnedBy(sub), Map(f, xs)) == Map(f, Filter(OwnedBy(sub), xs))
  {
    if |xs| == 0 {
    } else {
      var n := |xs| - 1;
      var m := Map(f, xs);
      assert m[..n] == Map(f, xs[..n]);
      FilterMapSame(sub, f, xs[..n]);
      var kept := Filter(OwnedBy(sub), xs[..n]);
      assert (kept + [xs[n]])[..|kept|] == kept;
    }
  }

  lemma {:induction false} MapIdentityOn(f: Rule -> Rule, xs: seq<Rule>)
    requires forall r :: r in xs ==> f(r) == r
    ensures Map(f, xs) == xs
  {
    forall i | 0 <= i < |xs| ensures Map(f, xs)[i] == xs[i] {
      assert xs[i] in xs;
    }
  }

  /** Looking a row up among all rows is looking it up among the owner's. */
  lemma RowInView(id: string, sub: string, rules: seq<Rule>)
    ensures Filter(Row(id, sub), rules) == Filter(Row(id, sub), Filter(OwnedBy(sub), rules))
  {
    FiltersCommute(Row(id, sub), OwnedBy(sub), rules);
    var found := Filter(Row(id, sub), rules);
    FilterMembers(Row(id, sub), rules);
    forall i | 0 <= i < |found| ensures OwnedBy(sub)(found[i]) {
      assert found[i] in found;
    }
    FilterAll(OwnedBy(sub), found);
  }

  lemma PatchKeepsOwner(id: string, sub: string, p: RulePatch, now: nat)
    requires Storable(p)
    ensures forall r :: PatchRow(id, sub, p, now)(r).userId == r.userId
    ensures forall r :: PatchRow(id, sub, p, now)(r).id == r.id && PatchRow(id, sub, p, now)(r).networkId == r.networkId
  {
  }

  // ----- Another user's call -----

  lemma OtherUpdate(s: State, c: Call, sub: string)
    requires c.request.UpdateRule? && c.user.sub != sub
    ensures ViewOf(Update(s, c).0, sub) == ViewOf(s, sub)
  {
    var id, p := c.request.ruleId, c.request.patch;
    if Storable(p) {
      var f := PatchRow(id, c.user.sub, p, c.now);
      PatchKeepsOwner(id, c.user.sub, p, c.now);
      FilterMapSame(sub, f, s.rules);
      FilterMembers(OwnedBy(sub), s.rules);
      MapIdentityOn(f, Filter(OwnedBy(sub), s.rules));
    }
  }

  lemma OtherDelete(s: State, c: Call, sub: string)
    requires c.request.DeleteRule? && c.user.sub != sub
    ensures ViewOf(Delete(s, c).0, sub) == ViewOf(s, sub)
  {
    var keep := NotRow(c.request.ruleId, c.user.sub);
    var mine := Filter(OwnedBy(sub), s.rules);
    FiltersCommute(OwnedBy(sub), keep, s.rules);
    FilterMembers(OwnedBy(sub), s.rules);
    forall i | 0 <= i < |mine| ensures keep(mine[i]) {
      assert mine[i] in mine;
    }
    FilterAll(keep, mine);
  }

  lemma OtherCreate(s: State, c: Call, sub: string)
    requires c.request.CreateRule? && c.user.sub != sub
    ensures ViewOf(Create(s, c).0, sub) == ViewOf(s, sub)
  {
    var r := ResolveDsoNetwork(c.user);
    if r.Network? {
      var rule := NewRule(c, r.alias);
      FilterPush(OwnedBy(sub), s.rules, rule);
    }
  }

  /** No other user's call changes a user's rows. */
  lemma OtherStep(dev: bool, s: State, c: Call, sub: string)
    requires c.user.sub != sub
    ensures ViewOf(Step(dev, s, c).0, sub) == ViewOf(s, sub)
  {
    match c.request
    case CreateRule(_, _) => OtherCreate(s, c, sub);
    case UpdateRule(_, _) => OtherUpdate(s, c, sub);
    case DeleteRule(_) => OtherDelete(s, c, sub);
    case _ =>
  }

  // ----- A user's own call -----

  lemma OwnUpdate(s: State, t: State, c: Call)
    requires c.request.UpdateRule? && ViewOf(s, c.user.sub) == ViewOf(t, c.user.sub)
    ensures Update(s, c).1 == Update(t, c).1
    ensures ViewOf(Update(s, c).0, c.user.sub) == ViewOf(Update(t, c).0, c.user.sub)
  {
    var id, sub, p := c.request.ruleId, c.user.sub, c.request.patch;
    RowInView(id, sub, s.rules);
    RowInView(id, sub, t.rules);
    if Storable(p) {
      PatchKeepsOwner(id, sub, p, c.now);
      FilterMapSame(sub, PatchRow(id, sub, p, c.now), s.rules);
      FilterMapSame(sub, PatchRow(id, sub, p, c.now), t.rules);
    }
  }

  lemma OwnDelete(s: State, t: State, c: Call)
    requires c.request.DeleteRule? && ViewOf(s, c.user.sub) == ViewOf(t, c.user.sub)
    ensures Delete(s, c).1 == Delete(t, c).1
    ensures ViewOf(Delete(s, c).0, c.user.sub) == ViewOf(Delete(t, c).0, c.user.sub)
  {
    var id, sub := c.request.ruleId, c.user.sub;
    RowInView(id, sub, s.rules);
    RowInView(id, sub, t.rules);
    FiltersCommute(OwnedBy(sub), NotRow(id, sub), s.rules);
    FiltersCommute(OwnedBy(sub), NotRow(id, sub), t.rules);
  }

  lemma OwnCreate(s: State, t: State, c: Call)
    requires c.request.CreateRule? && ViewOf(s, c.user.sub) == ViewOf(t, c.user.sub)
    requires HasId(s.rules, c.request.id) == HasId(t.rules, c.request.id)
    ensures Create(s, c).1 == Create(t, c).1
    ensures ViewOf(Create(s, c).0, c.user.sub) == ViewOf(Create(t, c).0, c.user.sub)
  {
    var r := ResolveDsoNetwork(c.user);
    if r.Network? {
      var rule := NewRule(c, r.alias);
      FilterPush(OwnedBy(c.user.sub), s.rules, rule);
      FilterPush(OwnedBy(c.user.sub), t.rules, rule);
    }
  }

  /** A user's own call answers, and changes their rows, by their rows alone, but for one thing: a
      creation also looks at whether its id is taken. */
  lemma OwnStep(dev: bool, s: State, t: State, c: Call)
    requires ViewOf(s, c.user.sub) == ViewOf(t, c.user.sub)
    requires c.request.CreateRule? ==> HasId(s.rules, c.request.id) == HasId(t.rules, c.request.id)
    ensures Step(dev, s, c).1 == Step(dev, t, c).1
    ensures ViewOf(Step(dev, s, c).0, c.user.sub) == ViewOf(Step(dev, t, c).0, c.user.sub)
  {
    match c.request
    case CreateRule(_, _) => OwnCreate(s, t, c);
    case UpdateRule(_, _) => OwnUpdate(s, t, c);
    case DeleteRule(_) => OwnDelete(s, t, c);
    case _ =>
  }

  // ----- Fresh ids -----

  /** The ids of a trace's creations are new: not in the table before, and not used twice. */
  ghost predicate FreshIds(s: State, calls: seq<Call>) {
    forall i :: 0 <= i < |calls| && calls[i].request.CreateRule? ==>
      && !HasId(s.rules, calls[i].request.id)
      && forall j :: 0 <= j < i && calls[j].request.CreateRule? ==> calls[j].request.id != calls[i].request.id
  }

  predicate Creates(calls: seq<Call>, id: string) {
    exists c :: c in calls && c.request.CreateRule? && c.request.id == id
  }

  lemma StepIds(dev: bool, s: State, c: Call, id: string)
    requires HasId(Step(dev, s, c).0.rules, id)
    ensures HasId(s.rules, id) || (c.request.CreateRule? && c.request.id == id)
  {
    var after := Step(dev, s, c).0.rules;
    var r :| r in after && r.id == id;
    StepRow(dev, s, c, r);
  }

  /** A row of the same id, owner and network. */
  predicate SameRow(q: Rule, r: Rule) {
    q.id == r.id && q.userId == r.userId && q.networkId == r.networkId
  }

  predicate WasThere(rules: seq<Rule>, r: Rule) {
    exists q :: q in rules && SameRow(q, r)
  }

  /** A creation of this rule by its owner, whose one DSO network is the rule's. */
  predicate Files(c: Call, r: Rule) {
    && c.request.CreateRule? && c.request.id == r.id && c.user.sub == r.userId
    && DsoNetworks(c.user) == [r.networkId]
  }

  lemma UpdateRow(s: State, c: Call, r: Rule)
    requires c.request.UpdateRule? && r in Update(s, c).0.rules
    ensures WasThere(s.rules, r)
  {
    if r in s.rules {
      assert SameRow(r, r);
    } else {
      var f := PatchRow(c.request.ruleId, c.user.sub, c.request.patch, c.now);
      MapMembers(f, s.rules);
      PatchKeepsOwner(c.request.ruleId, c.user.sub, c.request.patch, c.now);
      var q :| q in s.rules && f(q) == r;
      assert SameRow(q, r);
    }
  }

  lemma CreateRow(s: State, c: Call, r: Rule)
    requires c.request.CreateRule? && r in Create(s, c).0.rules
    ensures WasThere(s.rules, r) || Files(c, r)
  {
    if r in s.rules {
      assert SameRow(r, r);
    } else {
      assert r == NewRule(c, ResolveDsoNetwork(c.user).alias);
      assert DsoNetworks(c.user) == [DsoNetworks(c.user)[0]];
    }
  }

  /** Where a row after a call comes from: from a row of the same id, owner and network before it,
      or from that call, filed by its caller under the caller's one DSO network. */
  lemma StepRow(dev: bool, s: State, c: Call, r: Rule)
    requires r in Step(dev, s, c).0.rules
    ensures WasThere(s.rules, r) || Files(c, r)
  {
    if r in s.rules {
      assert SameRow(r, r);
    } else {
      match c.request
      case CreateRule(_, _) => CreateRow(s, c, r);
      case UpdateRule(_, _) => UpdateRow(s, c, r);
      case DeleteRule(id) => FilterMembers(NotRow(id, c.user.sub), s.rules);
      case _ =>
    }
  }

  lemma {:induction false} RunIds(dev: bool, s: State, calls: seq<Call>, id: string)
    requires HasId(Run(dev, s, calls).state.rules, id)
    ensures HasId(s.rules, id) || Creates(calls, id)
  {
    if |calls| == 0 {
    } else {
      var n := |calls| - 1;
      assert calls == calls[..n] + [calls[n]];
      StepIds(dev, Run(dev, s, calls[..n]).state, calls[n], id);
      if HasId(Run(dev, s, calls[..n]).state.rules, id) {
        RunIds(dev, s, calls[..n], id);
      } else {
        assert calls[n] in calls;
      }
    }
  }

  /** When a creation with a fresh id runs, in the whole trace or in any part of it, the id is free. */
  lemma IdFree(dev: bool, s: State, calls: seq<Call>, part: seq<Call>)
    requires |calls| > 0 && FreshIds(s, calls) && calls[|calls| - 1].request.CreateRule?
    requires forall c :: c in part ==> c in calls[..|calls| - 1]
    ensures !HasId(Run(dev, s, part).state.rules, calls[|calls| - 1].request.id)
  {
    var n := |calls| - 1;
    var id := calls[n].request.id;
    forall c | c in part && c.request.CreateRule? ensures c.request.id != id {
      var j :| 0 <= j < n && calls[j] == c;
    }
    if HasId(Run(dev, s, part).state.rules, id) {
      RunIds(dev, s, part, id);
    }
  }

  // ----- Noninterference -----

  /** For every interleaving of requests by any users, with fresh ids, what a user is answered and
      what rows they end up with is what they would get had only their own requests been made. */
  lemma {:induction false} Noninterference(dev: bool, s: State, calls: seq<Call>, sub: string)
    requires FreshIds(s, calls)
    ensures var all, own := Run(dev, s, calls), Run(dev, s, Filter(By(sub), calls));
      && Filter(To(sub), all.exchanges) == own.exchanges
      && ViewOf(all.state, sub) == ViewOf(own.state, sub)
  {
    if |calls| == 0 {
    } else {
      var n := |calls| - 1;
      var c := calls[n];
      Noninterference(dev, s, calls[..n], sub);
      var before, part := Run(dev, s, calls[..n]), Filter(By(sub), calls[..n]);
      LastExchange(dev, s, calls, sub);
      if c.user.sub == sub {
        if c.request.CreateRule? {
          FilterMembers(By(sub), calls[..n]);
          IdFree(dev, s, calls, calls[..n]);
          IdFree(dev, s, calls, part);
        }
        OwnStep(dev, before.state, Run(dev, s, part).state, c);
        RunOneMore(dev, s, part, c);
      } else {
        OtherStep(dev, before.state, c, sub);
      }
    }
  }

  lemma RunOneMore(dev: bool, s: State, part: seq<Call>, c: Call)
    ensures var t := Run(dev, s, part);
      var step := Step(dev, t.state, c);
      Run(dev, s, part + [c]) == Trace(step.0, t.exchanges + [Exchange(c, step.1)])
  {
    assert (part + [c])[..|part|] == part;
  }

  lemma LastExchange(dev: bool, s: State, calls: seq<Call>, sub: string)
    requires |calls| > 0
    ensures var n := |calls| - 1;
      var t := Run(dev, s, calls[..n]);
      var x := Exchange(calls[n], Step(dev, t.state, calls[n]).1);
      Filter(To(sub), Run(dev, s, calls).exchanges)
      == if calls[n].user.sub == sub then Filter(To(sub), t.exchanges) + [x] else Filter(To(sub), t.exchanges)
  {
    var n := |calls| - 1;
    var t := Run(dev, s, calls[..n]);
    var x := Exchange(calls[n], Step(dev, t.state, calls[n]).1);
    FilterPush(To(sub), t.exchanges, x);
  }

  // ----- Ids stay a key -----

  ghost predicate KeyedById(rules: seq<Rule>) {
    forall i, j :: 0 <= i < j < |rules| ==> rules[i].id != rules[j].id
  }

  lemma {:induction false} FilterKeyed(p: Rule -> bool, xs: seq<Rule>)
    requires KeyedById(xs)
    ensures KeyedById(Filter(p, xs))
  {
    if |xs| == 0 {
    } else {
      var n := |xs| - 1;
      var kept := Filter(p, xs[..n]);
      FilterKeyed(p, xs[..n]);
      FilterMembers(p, xs[..n]);
      forall i | 0 <= i < |kept| ensures kept[i].id != xs[n].id {
        assert kept[i] in kept;
        var j :| 0 <= j < n && xs[j] == kept[i];
      }
    }
  }

  lemma CreateKeyed(s: State, c: Call)
    requires c.request.CreateRule? && KeyedById(s.rules)
    ensures KeyedById(Create(s, c).0.rules)
  {
    assert forall i :: 0 <= i < |s.rules| ==> s.rules[i] in s.rules;
  }

  lemma PatchKeyed(id: string, sub: string, p: RulePatch, now: nat, rules: seq<Rule>)
    requires Storable(p) && KeyedById(rules)
    ensures KeyedById(Map(PatchRow(id, sub, p, now), rules))
  {
    PatchKeepsOwner(id, sub, p, now);
    var after := Map(PatchRow(id, sub, p, now), rules);
    assert forall i :: 0 <= i < |after| ==> after[i].id == rules[i].id;
  }

  /** No request makes two rules share an id, so an id names one row whoever owns it. */
  lemma StepKeyed(dev: bool, s: State, c: Call)
    requires KeyedById(s.rules)
    ensures KeyedById(Step(dev, s, c).0.rules)
  {
    match c.request
    case CreateRule(_, id) => CreateKeyed(s, c);
    case UpdateRule(id, p) =>
      if Storable(p) {
        PatchKeyed(id, c.user.sub, p, c.now, s.rules);
      }
    case DeleteRule(id) => FilterKeyed(NotRow(id, c.user.sub), s.rules);
    case _ =>
  }

  lemma {:induction false} RunKeyed(dev: bool, s: State, calls: seq<Call>)
    requires KeyedById(s.rules)
    ensures KeyedById(Run(dev, s, calls).state.rules)
  {
    if |calls| == 0 {
    } else {
      RunKeyed(dev, s, calls[..|calls| - 1]);
      StepKeyed(dev, Run(dev, s, calls[..|calls| - 1]).state, calls[|calls| - 1]);
    }
  }

  // ----- What the endpoints promise one user -----

  /** A list answers with the caller's rules, all of them, oldest first. */
  lemma ListIsOwnRules(rules: seq<Rule>, sub: string)
    ensures multiset(Listed(rules, sub)) == multiset(Filter(OwnedBy(sub), rules))
    ensures forall i, j :: 0 <= i < j < |Listed(rules, sub)| ==>
      Listed(rules, sub)[i].createdAt <= Listed(rules, sub)[j].createdAt
  {
    var mine := Filter(OwnedBy(sub), rules);
    SortByPermutes(Created, mine);
    SortBySorted(Created, mine);
    var l := Listed(rules, sub);
    forall i, j | 0 <= i < j < |l| ensures l[i].createdAt <= l[j].createdAt {
      assert Created(l[i], l[j]);
    }
  }

  /** One null among the caller's stored hazards makes the whole list fail, and nothing else does. */
  lemma ListFailsExactly(dev: bool, s: State, c: Call)
    requires c.request.ListRules? && Guard(dev, c).allowed
    ensures Step(dev, s, c).1 == ServerError
       <==> exists r :: r in s.rules && r.userId == c.user.sub && r.riskTypes == None
    ensures Step(dev, s, c).1 != ServerError ==> Step(dev, s, c).1 == RuleList(Listed(s.rules, c.user.sub))
  {
    var mine := Filter(OwnedBy(c.user.sub), s.rules);
    SortByMembers(Created, mine);
    FilterMembers(OwnedBy(c.user.sub), s.rules);
    if r :| r in s.rules && r.userId == c.user.sub && r.riskTypes == None {
      assert r in mine;
      assert r in Listed(s.rules, c.user.sub) && !Answerable(r);
    }
  }

  /** An allowed update of a rule that is there fails exactly when the body sets null for a column
      that takes none, and then changes nothing, or when it leaves the rule with null hazards, and
      then it is stored all the same. */
  lemma UpdateFailsExactly(dev: bool, s: State, c: Call, r: Rule)
    requires c.request.UpdateRule? && Guard(dev, c).allowed && KeyedById(s.rules)
    requires r in s.rules && IsRow(c.request.ruleId, c.user.sub, r)
    ensures var p := c.request.patch;
      && (Step(dev, s, c).1 == ServerError <==> !Storable(p) || OrKeep(p.riskTypes, r.riskTypes) == None)
      && (!Storable(p) ==> Step(dev, s, c).0 == s)
      && (Storable(p) ==> Patched(r, p, c.now) in Step(dev, s, c).0.rules)
  {
    var id, sub, p := c.request.ruleId, c.user.sub, c.request.patch;
    var found := Filter(Row(id, sub), s.rules);
    FilterMembers(Row(id, sub), s.rules);
    assert r in found && found[0] in found;
    OneRow(s.rules, r, found[0]);
    if Storable(p) {
      MapMembers(PatchRow(id, sub, p, c.now), s.rules);
      assert PatchRow(id, sub, p, c.now)(r) == Patched(r, p, c.now);
    }
  }

  lemma OneRow(rules: seq<Rule>, q: Rule, r: Rule)
    requires KeyedById(rules) && q in rules && r in rules && q.id == r.id
    ensures q == r
  {
    var i :| 0 <= i < |rules| && rules[i] == q;
    var j :| 0 <= j < |rules| && rules[j] == r;
    assert i == j;
  }

  /** An update that leaves the hazards null makes the caller's next list fail. */
  lemma NullSticks(dev: bool, s: State, c: Call, r: Rule, list: Call)
    requires c.request.UpdateRule? && Guard(dev, c).allowed && KeyedById(s.rules)
    requires r in s.rules && IsRow(c.request.ruleId, c.user.sub, r)
    requires Storable(c.request.patch) && OrKeep(c.request.patch.riskTypes, r.riskTypes) == None
    requires list.request.ListRules? && list.user.sub == c.user.sub && Guard(dev, list).allowed
    ensures Step(dev, s, c).1 == ServerError
    ensures Step(dev, Step(dev, s, c).0, list).1 == ServerError
  {
    UpdateFailsExactly(dev, s, c, r);
    var q := Patched(r, c.request.patch, c.now);
    assert q.userId == c.user.sub && q.riskTypes == None;
    ListFailsExactly(dev, Step(dev, s, c).0, list);
  }

  /** Update and delete answer that the rule is not found exactly when the caller has none of that
      id, whoever else may have one, and then change nothing. */
  lemma NotFoundExactly(dev: bool, s: State, c: Call, id: string)
    requires (c.request.DeleteRule? || c.request.UpdateRule?) && c.request.ruleId == id
    requires Guard(dev, c).allowed
    ensures Step(dev, s, c).1 == NotFound <==> !exists r :: r in s.rules && IsRow(id, c.user.sub, r)
    ensures Step(dev, s, c).1 == NotFound ==> Step(dev, s, c).0 == s
  {
    var found := Filter(Row(id, c.user.sub), s.rules);
    FilterMembers(Row(id, c.user.sub), s.rules);
    HasMember(found);
  }

  /** A deleted rule is gone: nobody finds it again. */
  lemma DeletedIsGone(dev: bool, s: State, c: Call)
    requires c.request.DeleteRule? && KeyedById(s.rules) && Step(dev, s, c).1 == NoContent
    ensures !HasId(Step(dev, s, c).0.rules, c.request.ruleId)
  {
    var id, sub := c.request.ruleId, c.user.sub;
    FilterMembers(NotRow(id, sub), s.rules);
    FilterMembers(Row(id, sub), s.rules);
    var found := Filter(Row(id, sub), s.rules);
    assert found[0] in found;
    var i :| 0 <= i < |s.rules| && s.rules[i] == found[0];
    forall r | r in Step(dev, s, c).0.rules ensures r.id != id {
      var j :| 0 <= j < |s.rules| && s.rules[j] == r;
      assert i != j;
    }
  }

  function Later<T>(p: Field<T>, q: Field<T>): Field<T> {
    if q.Unset? then p else q
  }

  /** Two partial updates as one: what the later one names wins, the rest is the earlier one's. */
  function Both(p: RulePatch, q: RulePatch): RulePatch {
    RulePatch(Later(p.riskTypes, q.riskTypes), Later(p.threshold, q.threshold),
              Later(p.recipients, q.recipients), Later(p.active, q.active))
  }

  /** Partial updates merge: one after the other is their combination, and none of them touches the
      id, the owner, the network or the creation time. */
  lemma PatchesCompose(r: Rule, p: RulePatch, q: RulePatch, t: nat, u: nat)
    requires Storable(p) && Storable(q)
    ensures var once := Patched(r, Both(p, q), u);
      var twice := Patched(Patched(r, p, t), q, u);
      && twice.(updatedAt := 0) == once.(updatedAt := 0)
      && SameRow(r, twice) && twice.createdAt == r.createdAt
  {
  }

  /** Settings exist once asked for: asking again answers the same and changes nothing. */
  lemma SettingsOnceAsked(dev: bool, s: State, c: Call, later: Call)
    requires c.request.GetSettings? && Guard(dev, c).allowed
    requires later == c.(now := later.now)
    ensures var t := Step(dev, s, c);
      Step(dev, t.0, later) == t
  {
    var t := Step(dev, s, c);
    assert t.0.settings[c.user.sub := t.0.settings[c.user.sub]] == t.0.settings;
  }

  // ----- Provenance -----

  /** Over every trace, a rule of the final table either was there before under the same id, owner
      and network, or was created in the trace by its owner, a member of that one DSO network. So
      neither owner nor network ever changes, and neither is taken from a request body. */
  lemma {:induction false} Provenance(dev: bool, s: State, calls: seq<Call>, r: Rule)
    requires r in Run(dev, s, calls).state.rules
    ensures WasThere(s.rules, r) || exists c :: c in calls && Files(c, r)
  {
    if |calls| == 0 {
      assert SameRow(r, r);
    } else {
      var n := |calls| - 1;
      var t := Run(dev, s, calls[..n]).state;
      assert calls == calls[..n] + [calls[n]];
      StepRow(dev, t, calls[n], r);
      if q :| q in t.rules && SameRow(q, r) {
        Provenance(dev, s, calls[..n], q);
        if p :| p in s.rules && SameRow(p, q) {
          assert SameRow(p, r);
        } else {
          var c :| c in calls[..n] && Files(c, q);
          assert c in calls && Files(c, r);
        }
      } else {
        assert calls[n] in calls && Files(calls[n], r);
      }
    }
  }
}
