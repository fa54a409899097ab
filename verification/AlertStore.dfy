/** The alert-rule and settings endpoints (`api/alerts.py`, guarded as in `api/deps.py`): one
    function from a state and a call to the next state and a response, and a class whose methods
    are the endpoints, proved to do that. Ids and the clock are inputs of a call. */
module AlertStore {
  import opened Options
  import opened Sequences
  import opened Tables
  import opened Policy

  // ----- Requests and responses -----

  datatype RuleBody = RuleBody(riskTypes: seq<string>, threshold: string, recipients: Option<string>, active: bool)

  /** A field of a partial update: left out of the body, or set, possibly to null. */
  datatype Field<+T> = Unset | Set(value: T)

  datatype RulePatch = RulePatch(
    riskTypes: Field<Option<seq<string>>>,
    threshold: Field<Option<string>>,
    recipients: Field<Option<string>>,
    active: Field<Option<bool>>)

  datatype SettingsPatch = SettingsPatch(emailRecipients: Field<Option<string>>, webhookUrl: Field<Option<string>>)

  datatype Request =
    | ListRules
    | CreateRule(body: RuleBody, id: string)
    | UpdateRule(ruleId: string, patch: RulePatch)
    | DeleteRule(ruleId: string)
    | GetSettings
    | PutSettings(settings: SettingsPatch)

  /** A request with its caller, the policy engine's condition and the clock at that moment. */
  datatype Call = Call(user: User, engine: Engine, now: nat, request: Request)

  datatype Detail = Refused(why: Why) | Unresolved(cause: Resolved)

  datatype Response =
    | RuleList(rules: seq<Rule>)
    | OneRule(rule: Rule)
    | NoContent
    | OneSettings(settings: Settings)
    | NotFound
    | Forbidden(detail: Detail)
    | ServerError

  datatype State = State(rules: seq<Rule>, settings: map<string, Settings>)

  // ----- Rows -----

  function OwnedBy(sub: string): Rule -> bool { (r: Rule) => r.userId == sub }

  predicate IsRow(id: string, sub: string, r: Rule) {
    r.id == id && r.userId == sub
  }

  function Row(id: string, sub: string): Rule -> bool { (r: Rule) => IsRow(id, sub, r) }
  function NotRow(id: string, sub: string): Rule -> bool { (r: Rule) => !IsRow(id, sub, r) }

  predicate Created(a: Rule, b: Rule) {
    a.createdAt <= b.createdAt
  }

  /** Oldest first; rows of the same second keep the table's order. */
  function Listed(rules: seq<Rule>, sub: string): seq<Rule> {
    SortBy(Created, Filter(OwnedBy(sub), rules))
  }

  function OrKeep<T>(f: Field<T>, old_: T): T {
    match f
    case Unset => old_
    case Set(v) => v
  }

  /** A null for a column that takes none makes the commit fail. */
  predicate Storable(p: RulePatch) {
    p.threshold != Set(None) && p.active != Set(None)
  }

  /** Only the fields the body names change, and the update time only if some value did. */
  function Patched(r: Rule, p: RulePatch, now: nat): Rule
    requires Storable(p)
  {
    var s := r.(riskTypes := OrKeep(p.riskTypes, r.riskTypes),
                threshold := if p.threshold.Unset? then r.threshold else p.threshold.value.value,
                recipients := OrKeep(p.recipients, r.recipients),
                active := if p.active.Unset? then r.active else p.active.value.value);
    if s == r then r else s.(updatedAt := now)
  }

  function PatchRow(id: string, sub: string, p: RulePatch, now: nat): Rule -> Rule
    requires Storable(p)
  {
    (r: Rule) => if IsRow(id, sub, r) then Patched(r, p, now) else r
  }

  function PatchedSettings(s: Settings, p: SettingsPatch, now: nat): Settings {
    var t := s.(emailRecipients := OrKeep(p.emailRecipients, s.emailRecipients),
                webhookUrl := OrKeep(p.webhookUrl, s.webhookUrl));
    if t == s then s else t.(updatedAt := now)
  }

  function EmptySettings(sub: string, now: nat): Settings {
    Settings(sub, None, None, now)
  }

  function SettingsOf(s: State, sub: string): Option<Settings> {
    if sub in s.settings then Some(s.settings[sub]) else None
  }

  predicate HasId(rules: seq<Rule>, id: string) {
    exists r :: r in rules && r.id == id
  }

  // ----- Answers -----

  /** A null may be stored for the hazards, but no response may carry it: the response model then
      fails after the commit. */
  predicate Answerable(r: Rule) { r.riskTypes.Some? }

  function Reply(r: Rule): Response {
    if Answerable(r) then OneRule(r) else ServerError
  }

  function ReplyAll(rules: seq<Rule>): Response {
    if forall r :: r in rules ==> Answerable(r) then RuleList(rules) else ServerError
  }

  // ----- One call -----

  function ActionOf(request: Request): Action {
    if request.ListRules? || request.GetSettings? then AlertsRead else AlertsWrite
  }

  function Guard(dev: bool, c: Call): Decision {
    Evaluate(c.engine, dev, c.user, ActionOf(c.request), None)
  }

  function NewRule(c: Call, network: string): Rule
    requires c.request.CreateRule?
  {
    var b := c.request.body;
    Rule(c.request.id, c.user.sub, network, Some(b.riskTypes), b.threshold, b.recipients, b.active, c.now, c.now)
  }

  function Create(s: State, c: Call): (State, Response)
    requires c.request.CreateRule?
  {
    match ResolveDsoNetwork(c.user)
    case Network(n) =>
      if HasId(s.rules, c.request.id) then (s, ServerError)
      else (s.(rules := s.rules + [NewRule(c, n)]), OneRule(NewRule(c, n)))
    case cause => (s, Forbidden(Unresolved(cause)))
  }

  function Update(s: State, c: Call): (State, Response)
    requires c.request.UpdateRule?
  {
    var id, sub, p := c.request.ruleId, c.user.sub, c.request.patch;
    var found := Filter(Row(id, sub), s.rules);
    if found == [] then (s, NotFound)
    else if !Storable(p) then (s, ServerError)
    else (s.(rules := Map(PatchRow(id, sub, p, c.now), s.rules)), Reply(Patched(found[0], p, c.now)))
  }

  function Delete(s: State, c: Call): (State, Response)
    requires c.request.DeleteRule?
  {
    var id, sub := c.request.ruleId, c.user.sub;
    if Filter(Row(id, sub), s.rules) == [] then (s, NotFound)
    else (s.(rules := Filter(NotRow(id, sub), s.rules)), NoContent)
  }

  function Stored(s: State, sub: string, now: nat): Settings {
    if sub in s.settings then s.settings[sub] else EmptySettings(sub, now)
  }

  function Read(s: State, c: Call): (State, Response) {
    var ns := Stored(s, c.user.sub, c.now);
    (s.(settings := s.settings[c.user.sub := ns]), OneSettings(ns))
  }

  function Put(s: State, c: Call): (State, Response)
    requires c.request.PutSettings?
  {
    var ns := PatchedSettings(Stored(s, c.user.sub, c.now), c.request.settings, c.now);
    (s.(settings := s.settings[c.user.sub := ns]), OneSettings(ns))
  }

  function Step(dev: bool, s: State, c: Call): (State, Response) {
    var d := Guard(dev, c);
    if !d.allowed then (s, Forbidden(Refused(d.why)))
    else match c.request
      case ListRules => (s, ReplyAll(Listed(s.rules, c.user.sub)))
      case CreateRule(_, _) => Create(s, c)
      case UpdateRule(_, _) => Update(s, c)
      case DeleteRule(_) => Delete(s, c)
      case GetSettings => Read(s, c)
      case PutSettings(_) => Put(s, c)
  }

  // ----- The endpoints -----

  class Store {
    const dev: bool
    var rules: seq<Rule>
    var settings: map<string, Settings>

    function Contents(): State
      reads this
    {
      State(rules, settings)
    }

    constructor (dev: bool)
      ensures this.dev == dev && Contents() == State([], map[])
    {
      this.dev := dev;
      rules, settings := [], map[];
    }

    method ListAlertRules(user: User, engine: Engine, now: nat) returns (response: Response)
      ensures (Contents(), response) == Step(dev, Contents(), Call(user, engine, now, ListRules))
    {
      var d := Evaluate(engine, dev, user, AlertsRead, None);
      if !d.allowed {
        return Forbidden(Refused(d.why));
      }
      response := ReplyAll(SortBy(Created, Filter(OwnedBy(user.sub), rules)));
    }

    method CreateAlertRule(user: User, engine: Engine, now: nat, body: RuleBody, id: string)
      returns (response: Response)
      modifies this`rules
      ensures (Contents(), response) == Step(dev, old(Contents()), Call(user, engine, now, CreateRule(body, id)))
    {
      var d := Evaluate(engine, dev, user, AlertsWrite, None);
      if !d.allowed {
        return Forbidden(Refused(d.why));
      }
      var resolved := ResolveDsoNetwork(user);
      if !resolved.Network? {
        return Forbidden(Unresolved(resolved));
      }
      if HasId(rules, id) {
        return ServerError;
      }
      var rule := Rule(id, user.sub, resolved.alias, Some(body.riskTypes), body.threshold, body.recipients,
                       body.active, now, now);
      rules := rules + [rule];
      response := OneRule(rule);
    }

    method UpdateAlertRule(user: User, engine: Engine, now: nat, ruleId: string, patch: RulePatch)
      returns (response: Response)
      modifies this`rules
      ensures (Contents(), response) == Step(dev, old(Contents()), Call(user, engine, now, UpdateRule(ruleId, patch)))
    {
      var d := Evaluate(engine, dev, user, AlertsWrite, None);
      if !d.allowed {
        return Forbidden(Refused(d.why));
      }
      var found := Filter(Row(ruleId, user.sub), rules);
      if found == [] {
        return NotFound;
      }
      if !Storable(patch) {
        return ServerError;
      }
      response := Reply(Patched(found[0], patch, now));
      rules := Map(PatchRow(ruleId, user.sub, patch, now), rules);
    }

    method DeleteAlertRule(user: User, engine: Engine, now: nat, ruleId: string) returns (response: Response)
      modifies this`rules
      ensures (Contents(), response) == Step(dev, old(Contents()), Call(user, engine, now, DeleteRule(ruleId)))
    {
      var d := Evaluate(engine, dev, user, AlertsWrite, None);
      if !d.allowed {
        return Forbidden(Refused(d.why));
      }
      if Filter(Row(ruleId, user.sub), rules) == [] {
        return NotFound;
      }
      rules := Filter(NotRow(ruleId, user.sub), rules);
      response := NoContent;
    }

    method GetNotificationSettings(user: User, engine: Engine, now: nat) returns (response: Response)
      modifies this`settings
      ensures (Contents(), response) == Step(dev, old(Contents()), Call(user, engine, now, GetSettings))
    {
      var d := Evaluate(engine, dev, user, AlertsRead, None);
      if !d.allowed {
        return Forbidden(Refused(d.why));
      }
      if user.sub !in settings {
        settings := settings[user.sub := EmptySettings(user.sub, now)];
      }
      assert settings == settings[user.sub := settings[user.sub]];
      response := OneSettings(settings[user.sub]);
    }

    method UpdateNotificationSettings(user: User, engine: Engine, now: nat, body: SettingsPatch)
      returns (response: Response)
      modifies this`settings
      ensures (Contents(), response) == Step(dev, old(Contents()), Call(user, engine, now, PutSettings(body)))
    {
      var d := Evaluate(engine, dev, user, AlertsWrite, None);
      if !d.allowed {
        return Forbidden(Refused(d.why));
      }
      if user.sub !in settings {
        settings := settings[user.sub := EmptySettings(user.sub, now)];
      }
      settings := settings[user.sub := PatchedSettings(settings[user.sub], body, now)];
      assert settings == old(settings)[user.sub := settings[user.sub]];
      response := OneSettings(settings[user.sub]);
    }
  }
}
