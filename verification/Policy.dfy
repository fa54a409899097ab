/** Who may do what (`security/policy.py`, `policies/grid.rego` and `resolve_dso_network` of
    `api/deps.py`): the input a decision is taken on, the rules that allow, the reasons given,
    and what happens when no decision can be computed. */
module Policy {
  import opened Options
  import opened Sequences

  const DSO_TYPE := "dso"

  /** An organisation of the caller: its type, and the values of its `type` attribute. */
  datatype Org = Org(alias: string, orgType: Option<string>, typeAttribute: seq<string>)

  datatype User = User(sub: string, organizations: seq<Org>, isServiceAccount: bool, scopes: seq<string>)

  // ----- The caller's networks -----

  predicate IsDso(o: Org) {
    o.orgType == Some(DSO_TYPE) || DSO_TYPE in o.typeAttribute
  }

  function Dso(): Org -> bool { (o: Org) => IsDso(o) }
  function AliasOf(): Org -> string { (o: Org) => o.alias }

  function DsoNetworks(user: User): seq<string> {
    SortBy(StrLe, Map(AliasOf(), Filter(Dso(), user.organizations)))
  }

  function DsoNetwork(user: User, requested: Option<string>): Option<string> {
    var networks := DsoNetworks(user);
    if requested.Some? && requested.value in networks then requested
    else if |networks| == 1 then Some(networks[0])
    else None
  }

  datatype Resolved = Network(alias: string) | SeveralNetworks | NoNetwork

  function ResolveDsoNetwork(user: User): Resolved {
    var networks := DsoNetworks(user);
    if |networks| > 1 then SeveralNetworks
    else if |networks| == 0 then NoNetwork
    else Network(networks[0])
  }

  // ----- The input of a decision -----

  datatype Action = Read | AlertsRead | AlertsWrite | Other(name: string)

  datatype Input = Input(
    isService: bool,
    scopes: seq<string>,
    networkId: Option<string>,   // of the subject's claims; None is null
    dsoCount: nat,
    requested: Option<string>,   // of the resource's attributes; None is absent
    action: Action)

  /** Only a service account without any organisation is judged as a service. */
  predicate JudgedService(user: User) {
    user.organizations == [] && user.isServiceAccount
  }

  function MakeInput(user: User, action: Action, requested: Option<string>): Input {
    Input(JudgedService(user), user.scopes,
          if JudgedService(user) then None else DsoNetwork(user, requested),
          |DsoNetworks(user)|, requested, action)
  }

  // ----- The rules -----

  predicate OwnsNetwork(i: Input) {
    i.networkId.Some? && i.requested == i.networkId
  }

  predicate HasGridScope(i: Input) {
    "grid.read" in i.scopes || "grid.admin" in i.scopes
  }

  predicate Allow(i: Input) {
    || (!i.isService && i.action == Read && OwnsNetwork(i))
    || (i.isService && i.action == Read && HasGridScope(i))
    || (!i.isService && i.action == AlertsRead)
    || (!i.isService && i.action == AlertsWrite && i.networkId.Some?)
    || (i.isService && "grid.admin" in i.scopes)
  }

  datatype Reason =
    | OwnNetworkData | OwnAlertRules | ServiceGranted
    | NetworkMismatch | MissingMembership | AmbiguousMembership | MissingGridScope
    | AccessDenied

  /** The bodies of `reason`: more than one value firing would be an evaluation error. */
  predicate Fires(i: Input, r: Reason) {
    match r
    case OwnNetworkData => !i.isService && i.action == Read && OwnsNetwork(i)
    case OwnAlertRules => !i.isService && (i.action == AlertsRead || i.action == AlertsWrite) && Allow(i)
    case ServiceGranted => i.isService && Allow(i)
    case NetworkMismatch => !Allow(i) && !i.isService && i.action == Read && !OwnsNetwork(i)
    case MissingMembership => !Allow(i) && !i.isService && i.action == AlertsWrite && i.networkId.None?
      && i.dsoCount < 2
    case AmbiguousMembership => !Allow(i) && !i.isService && i.action == AlertsWrite && i.networkId.None?
      && i.dsoCount >= 2
    case MissingGridScope => !Allow(i) && i.isService && i.action == Read && !HasGridScope(i)
    case AccessDenied => false
  }

  function ReasonFor(i: Input): Reason {
    if Fires(i, OwnNetworkData) then OwnNetworkData
    else if Fires(i, OwnAlertRules) then OwnAlertRules
    else if Fires(i, ServiceGranted) then ServiceGranted
    else if Fires(i, NetworkMismatch) then NetworkMismatch
    else if Fires(i, MissingMembership) then MissingMembership
    else if Fires(i, AmbiguousMembership) then AmbiguousMembership
    else if Fires(i, MissingGridScope) then MissingGridScope
    else AccessDenied
  }

  // ----- Decisions -----

  /** The engine at one request: its bundle did not load, its evaluation raises, or it works. */
  datatype Engine = NoEngine | Erring | Working

  datatype Why = ByRules(reason: Reason) | NoPolicyEngine | PolicyError | PolicyErrorPermissive

  datatype Decision = Decision(allowed: bool, why: Why)

  function Evaluate(engine: Engine, dev: bool, user: User, action: Action, requested: Option<string>): Decision {
    match engine
    case NoEngine => Decision(dev, NoPolicyEngine)
    case Erring => if dev then Decision(true, PolicyErrorPermissive) else Decision(false, PolicyError)
    case Working =>
      var i := MakeInput(user, action, requested);
      Decision(Allow(i), ByRules(ReasonFor(i)))
  }

  // ----- What the composition promises -----

  /** An organisation is a DSO by its type or by its attribute. */
  lemma DsoIs(o: Org)
    ensures IsDso(o) <==> o.orgType == Some("dso") || "dso" in o.typeAttribute
  {
  }

  lemma NetworksAre(user: User)
    ensures forall n :: n in DsoNetworks(user) <==> exists o :: o in user.organizations && IsDso(o) && o.alias == n
    ensures |DsoNetworks(user)| == |Filter(Dso(), user.organizations)|
  {
    var dsos := Filter(Dso(), user.organizations);
    FilterMembers(Dso(), user.organizations);
    MapMembers(AliasOf(), dsos);
    SortByMembers(StrLe, Map(AliasOf(), dsos));
    forall n ensures n in DsoNetworks(user) <==> exists o :: o in user.organizations && IsDso(o) && o.alias == n {
      if o :| o in user.organizations && IsDso(o) && o.alias == n {
        assert o in dsos && AliasOf()(o) == n;
      }
    }
  }

  /** A caller not judged a service reads a network exactly when it is one of their DSO
      organisations, at whatever position and whatever scopes they hold. */
  lemma ReadExactly(user: User, n: string)
    requires !JudgedService(user)
    ensures Allow(MakeInput(user, Read, Some(n)))
       <==> exists o :: o in user.organizations && IsDso(o) && o.alias == n
  {
    NetworksAre(user);
  }

  /** Writing alert rules is allowed exactly when the network to file them under can be resolved,
      and then it is the caller's one DSO organisation. */
  lemma WriteExactly(user: User)
    requires !JudgedService(user)
    ensures Allow(MakeInput(user, AlertsWrite, None)) <==> ResolveDsoNetwork(user).Network?
    ensures ResolveDsoNetwork(user).Network?
       <==> exists o :: o in user.organizations && Filter(Dso(), user.organizations) == [o]
    ensures forall o :: Filter(Dso(), user.organizations) == [o] ==> ResolveDsoNetwork(user) == Network(o.alias)
  {
    var dsos := Filter(Dso(), user.organizations);
    FilterMembers(Dso(), user.organizations);
    NetworksAre(user);
    if |dsos| == 1 {
      assert dsos == [dsos[0]] && dsos[0] in dsos;
      assert Map(AliasOf(), dsos) == [dsos[0].alias];
      SortByPermutes(StrLe, Map(AliasOf(), dsos));
      assert DsoNetworks(user)[0] in multiset(Map(AliasOf(), dsos));
    }
  }

  /** A service reads every network on a grid scope, and touches alert rules only as grid.admin. */
  lemma ServiceExactly(user: User, action: Action, requested: Option<string>)
    requires JudgedService(user)
    ensures Allow(MakeInput(user, action, requested))
       <==> "grid.admin" in user.scopes || (action == Read && "grid.read" in user.scopes)
  {
  }

  /** The whole decision. Without a working engine only development allows. A service account without
      organisations needs a grid scope. Everyone else reads their own DSO networks, lists their own
      rules, and files rules exactly with one DSO organisation. */
  lemma DecisionExactly(engine: Engine, dev: bool, user: User, action: Action, requested: Option<string>)
    ensures Evaluate(engine, dev, user, action, requested).allowed <==>
      if engine != Working then dev
      else if user.organizations == [] && user.isServiceAccount then
        "grid.admin" in user.scopes || (action == Read && "grid.read" in user.scopes)
      else match action
        case Read => requested.Some? && requested.value in DsoNetworks(user)
        case AlertsRead => true
        case AlertsWrite => |DsoNetworks(user)| == 1 || (requested.Some? && requested.value in DsoNetworks(user))
        case Other(_) => false
    ensures Evaluate(NoEngine, dev, user, action, requested).why == NoPolicyEngine
    ensures Evaluate(Erring, dev, user, action, requested).why == if dev then PolicyErrorPermissive else PolicyError
  {
  }

  lemma RefusedInput(i: Input)
    requires !Allow(i)
    ensures ReasonFor(i) ==
      if i.isService then if i.action == Read then MissingGridScope else AccessDenied
      else if i.action == Read then NetworkMismatch
      else if i.action == AlertsWrite then if i.dsoCount >= 2 then AmbiguousMembership else MissingMembership
      else AccessDenied
  {
  }

  /** Why a request is refused. */
  lemma RefusalExactly(user: User, action: Action, requested: Option<string>)
    requires !Evaluate(Working, false, user, action, requested).allowed
    ensures Evaluate(Working, false, user, action, requested).why == ByRules(
      if user.organizations == [] && user.isServiceAccount then
        if action == Read then MissingGridScope else AccessDenied
      else if action == Read then NetworkMismatch
      else if action == AlertsWrite then
        if |DsoNetworks(user)| >= 2 then AmbiguousMembership else MissingMembership
      else AccessDenied)
  {
    RefusedInput(MakeInput(user, action, requested));
  }

  /** No input makes two different reasons fire, and the one reported is the one that fires. */
  lemma ReasonsAgree(i: Input, r: Reason, s: Reason)
    requires Fires(i, r) && Fires(i, s)
    ensures r == s && ReasonFor(i) == r
  {
  }

  /** The reason reported never contradicts the decision. */
  lemma ReasonMatchesDecision(i: Input)
    ensures Allow(i) <==> ReasonFor(i) in {OwnNetworkData, OwnAlertRules, ServiceGranted}
  {
  }

  /** The order of the caller's organisations reaches no decision. */
  lemma OrganisationOrderIrrelevant(user: User, other: User, action: Action, requested: Option<string>)
    requires other == user.(organizations := other.organizations)
    requires multiset(other.organizations) == multiset(user.organizations)
    ensures MakeInput(user, action, requested) == MakeInput(other, action, requested)
    ensures ResolveDsoNetwork(user) == ResolveDsoNetwork(other)
  {
    var a, b := Filter(Dso(), user.organizations), Filter(Dso(), other.organizations);
    FilterPermutation(Dso(), user.organizations, other.organizations);
    MapPermutation(AliasOf(), a, b);
    var x, y := Map(AliasOf(), a), Map(AliasOf(), b);
    SortByPermutes(StrLe, x);
    SortByPermutes(StrLe, y);
    StrLeOrder(SortBy(StrLe, x));
    SortBySorted(StrLe, x);
    SortBySorted(StrLe, y);
    SortedSame(StrLe, SortBy(StrLe, x), SortBy(StrLe, y));
    assert |multiset(user.organizations)| == |user.organizations|;
    assert |multiset(other.organizations)| == |other.organizations|;
  }
}
