/** What each endpoint answers and stores, field by field. */
module StoreEffects {
  import opened Options
  import opened Sequences
  import opened Tables
  import opened Policy
  import opened AlertStore
  import opened AlertTraces

  // ----- Who is refused -----

  predicate OnlyReads(request: Request) {
    request == ListRules || request == GetSettings
  }

  lemma MembersGuarded(dev: bool, c: Call)
    requires c.engine == Working && c.user.organizations != []
    ensures Guard(dev, c).allowed <==> OnlyReads(c.request) || |DsoNetworks(c.user)| == 1
  {
    DecisionExactly(Working, dev, c.user, ActionOf(c.request), None);
  }

  /** A member of organisations may always list rules and ask for settings, and may do the rest
      exactly with one DSO organisation; a refusal changes nothing. */
  lemma MembersAllowed(dev: bool, s: State, c: Call)
    requires c.engine == Working && c.user.organizations != []
    ensures Step(dev, s, c).1.Forbidden? <==> !OnlyReads(c.request) && |DsoNetworks(c.user)| != 1
    ensures Step(dev, s, c).1.Forbidden? ==> Step(dev, s, c).0 == s
  {
    MembersGuarded(dev, c);
    if Guard(dev, c).allowed {
      match c.request
      case CreateRule(_, _) => OneNetworkCreates(s, c);
      case UpdateRule(_, _) => UpdateNotForbidden(s, c);
      case DeleteRule(_) =>
      case _ =>
    }
  }

  lemma OneNetworkCreates(s: State, c: Call)
    requires c.request.CreateRule? && |DsoNetworks(c.user)| == 1
    ensures !Create(s, c).1.Forbidden?
  {
  }

  lemma UpdateNotForbidden(s: State, c: Call)
    requires c.request.UpdateRule?
    ensures !Update(s, c).1.Forbidden?
  {
  }

  /** Without a working engine everything is refused outside development. */
  lemma NothingWithoutEngine(s: State, c: Call)
    requires c.engine != Working
    ensures Step(false, s, c).0 == s && Step(false, s, c).1.Forbidden?
    ensures Guard(true, c).allowed
  {
  }

  // ----- Rules -----

  /** An allowed creation adds one rule at the end of the table: the body's fields, the caller as
      its owner, their one DSO organisation as its network, the moment of the call as its times. */
  lemma CreateStores(dev: bool, s: State, c: Call, network: string)
    requires c.request.CreateRule? && Guard(dev, c).allowed
    requires DsoNetworks(c.user) == [network] && !HasId(s.rules, c.request.id)
    ensures var (t, response) := Step(dev, s, c);
      var b := c.request.body;
      && |t.rules| == |s.rules| + 1 && t.rules[..|s.rules|] == s.rules && t.settings == s.settings
      && var r := t.rules[|s.rules|];
      && response == OneRule(r)
      && r.id == c.request.id && r.userId == c.user.sub && r.networkId == network
      && r.riskTypes == Some(b.riskTypes) && r.threshold == b.threshold
      && r.recipients == b.recipients && r.active == b.active
      && r.createdAt == c.now && r.updatedAt == c.now
  {
  }

  /** A field of the body replaces the column when it is set, and leaves it alone otherwise. */
  predicate Written<T(==)>(field: Field<T>, before: T, after: T) {
    match field
    case Unset => after == before
    case Set(value) => after == value
  }

  predicate RuleWritten(p: RulePatch, now: nat, r: Rule, q: Rule) {
    && q.id == r.id && q.userId == r.userId && q.networkId == r.networkId && q.createdAt == r.createdAt
    && Written(p.riskTypes, r.riskTypes, q.riskTypes)
    && Written(p.threshold, Some(r.threshold), Some(q.threshold))
    && Written(p.recipients, r.recipients, q.recipients)
    && Written(p.active, Some(r.active), Some(q.active))
    && q.updatedAt == if q == r.(updatedAt := q.updatedAt) then r.updatedAt else now
  }

  lemma PatchWrites(p: RulePatch, now: nat, r: Rule)
    requires Storable(p)
    ensures RuleWritten(p, now, r, Patched(r, p, now))
  {
    assert p.threshold.Set? ==> p.threshold.value == Some(Patched(r, p, now).threshold);
    assert p.active.Set? ==> p.active.value == Some(Patched(r, p, now).active);
  }

  /** An allowed update of a rule that is there writes the fields its body sets into that rule, and
      leaves every other rule, the order of the table and the settings alone. */
  lemma UpdateStores(dev: bool, s: State, c: Call, i: nat)
    requires c.request.UpdateRule? && Guard(dev, c).allowed && KeyedById(s.rules) && Storable(c.request.patch)
    requires i < |s.rules| && s.rules[i].id == c.request.ruleId && s.rules[i].userId == c.user.sub
    ensures var t := Step(dev, s, c).0;
      && t.settings == s.settings && |t.rules| == |s.rules|
      && RuleWritten(c.request.patch, c.now, s.rules[i], t.rules[i])
      && forall j :: 0 <= j < |s.rules| && j != i ==> t.rules[j] == s.rules[j]
  {
    var id, sub, p := c.request.ruleId, c.user.sub, c.request.patch;
    FilterMembers(Row(id, sub), s.rules);
    assert s.rules[i] in Filter(Row(id, sub), s.rules);
    PatchWrites(p, c.now, s.rules[i]);
    var after := Map(PatchRow(id, sub, p, c.now), s.rules);
    forall j | 0 <= j < |s.rules| && j != i ensures after[j] == s.rules[j] {
      if j < i {
        assert s.rules[j].id != s.rules[i].id;
      } else {
        assert s.rules[i].id != s.rules[j].id;
      }
    }
  }

  function HasOtherId(id: string): Rule -> bool { (r: Rule) => r.id != id }

  /** A deletion that is answered takes that one rule away: every rule of another id stays, whoever
      owns it, in the same order, and the settings stay. */
  lemma DeleteKeepsOthers(dev: bool, s: State, c: Call)
    requires c.request.DeleteRule? && KeyedById(s.rules) && Step(dev, s, c).1 == NoContent
    ensures var t := Step(dev, s, c).0;
      && t.settings == s.settings
      && t.rules == Filter(HasOtherId(c.request.ruleId), s.rules)
      && (forall r :: r in t.rules <==> r in s.rules && r.id != c.request.ruleId)
      && |t.rules| == |s.rules| - 1
  {
    var id, sub := c.request.ruleId, c.user.sub;
    var found := Filter(Row(id, sub), s.rules);
    FilterMembers(Row(id, sub), s.rules);
    assert found[0] in found;
    var i :| 0 <= i < |s.rules| && s.rules[i] == found[0];
    forall j | 0 <= j < |s.rules| ensures NotRow(id, sub)(s.rules[j]) == HasOtherId(id)(s.rules[j]) == (j != i) {
      if j < i {
        assert s.rules[j].id != s.rules[i].id;
      } else if i < j {
        assert s.rules[i].id != s.rules[j].id;
      }
    }
    SameFilter(NotRow(id, sub), HasOtherId(id), s.rules);
    FilterMembers(HasOtherId(id), s.rules);
    FilterAllBut(HasOtherId(id), s.rules, i);
  }

  lemma SameFilter(p: Rule -> bool, q: Rule -> bool, rules: seq<Rule>)
    requires forall j :: 0 <= j < |rules| ==> p(rules[j]) == q(rules[j])
    ensures Filter(p, rules) == Filter(q, rules)
  {
    FilterCongruent(p, q, rules);
  }

  lemma FilterAllBut(p: Rule -> bool, rules: seq<Rule>, i: nat)
    requires i < |rules| && forall j :: 0 <= j < |rules| ==> p(rules[j]) == (j != i)
    ensures |Filter(p, rules)| == |rules| - 1
  {
    var a, b := rules[..i], rules[i + 1..];
    assert rules == a + [rules[i]] + b;
    FilterAppend(p, a + [rules[i]], b);
    FilterPush(p, a, rules[i]);
    FilterAll(p, a);
    FilterAll(p, b);
  }

  /** Listing changes nothing. */
  lemma ListChangesNothing(dev: bool, s: State, c: Call)
    requires c.request.ListRules?
    ensures Step(dev, s, c).0 == s
  {
  }

  // ----- Settings -----

  /** Asking for settings answers the caller's row. One is created empty if there is none, and
      nobody else's row and no rule changes. */
  lemma GetSettingsStores(dev: bool, s: State, c: Call)
    requires c.request.GetSettings? && Guard(dev, c).allowed
    ensures var (t, response) := Step(dev, s, c);
      && t.rules == s.rules && c.user.sub in t.settings && response == OneSettings(t.settings[c.user.sub])
      && (if c.user.sub in s.settings then t.settings[c.user.sub] == s.settings[c.user.sub]
          else t.settings[c.user.sub] == Settings(c.user.sub, None, None, c.now))
      && t.settings - {c.user.sub} == s.settings - {c.user.sub}
  {
  }

  predicate SettingsWritten(p: SettingsPatch, now: nat, before: Settings, after: Settings) {
    && after.userId == before.userId
    && Written(p.emailRecipients, before.emailRecipients, after.emailRecipients)
    && Written(p.webhookUrl, before.webhookUrl, after.webhookUrl)
    && after.updatedAt == if after == before.(updatedAt := after.updatedAt) then before.updatedAt else now
  }

  /** Storing settings writes the fields the body sets into the caller's row, created empty if there
      is none; nobody else's row and no rule changes. */
  lemma PutSettingsStores(dev: bool, s: State, c: Call)
    requires c.request.PutSettings? && Guard(dev, c).allowed
    ensures var (t, response) := Step(dev, s, c);
      && t.rules == s.rules && c.user.sub in t.settings && response == OneSettings(t.settings[c.user.sub])
      && SettingsWritten(c.request.settings, c.now,
           if c.user.sub in s.settings then s.settings[c.user.sub] else Settings(c.user.sub, None, None, c.now),
           t.settings[c.user.sub])
      && t.settings - {c.user.sub} == s.settings - {c.user.sub}
  {
  }
}
