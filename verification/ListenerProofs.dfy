/** What a whole run promises: every rule that must be told is told once, networks do not disturb
    each other, and the fan-out is one single-network run after another. */
module ListenerProofs {
  import opened Options
  import opened Sequences
  import Exposure
  import Recipients
  import opened ExposureSums
  import opened Tables
  import opened Dispatch
  import opened DispatchProofs
  import opened Listener

  // ----- Networks -----

  lemma NetworksShape(rules: seq<Rule>)
    ensures var ns := NetworksWithActiveRules(rules);
      && Sorted(StrLe, ns) && NoDup(ns)
      && forall n :: n in ns <==> n != "" && exists r :: r in rules && r.active && r.networkId == n
  {
    var kept := Filter(IsNetworked(), rules);
    SortedSetProperties(Map(NetworkOf(), kept));
    MapMembers(NetworkOf(), kept);
    FilterMembers(IsNetworked(), rules);
    forall n | n != "" && exists r :: r in rules && r.active && r.networkId == n
      ensures n in NetworksWithActiveRules(rules)
    {
      var r :| r in rules && r.active && r.networkId == n;
      assert r in kept && NetworkOf()(r) == n;
    }
  }

  lemma NetworksDistinct(config: Config, rules: seq<Rule>, namespace: string)
    ensures NoDup(NetworksFor(config, rules, namespace))
  {
    NetworksShape(rules);
  }

  /** A message counts exactly when it parses as a completed run of the configured flow, with
      alerts enabled. */
  lemma CountsExactly(config: Config, event: Option<Event>)
    ensures Counts(config, event)
       <==> event.Some? && event.value.status == "completed" && event.value.flow == config.flow && config.enabled
  {
  }

  /** A namespace is the pipeline's own, or ends in it after a dot. */
  lemma PipelineNamespaceIs(config: Config, namespace: string)
    ensures IsPipelineNamespace(config, namespace)
       <==> namespace == config.namespace || exists base :: namespace == base + "." + config.namespace
  {
    var own := "." + config.namespace;
    if |namespace| >= |own| && namespace[|namespace| - |own|..] == own {
      var base := namespace[..|namespace| - |own|];
      assert namespace == base + own == base + "." + config.namespace;
    }
    if base :| namespace == base + "." + config.namespace {
      assert namespace == base + own;
      assert namespace[|namespace| - |own|..] == own;
    }
  }

  /** The networks a run evaluates: under a pipeline namespace those with an active rule, elsewhere
      the namespace itself. */
  lemma EvaluatedNetworks(config: Config, rules: seq<Rule>, namespace: string)
    ensures var ns := NetworksFor(config, rules, namespace);
      if IsPipelineNamespace(config, namespace) then
        Sorted(StrLe, ns) && NoDup(ns)
        && forall n :: n in ns <==> n != "" && exists r :: r in rules && r.active && r.networkId == n
      else ns == [namespace]
  {
    NetworksShape(rules);
  }

  // ----- Runs, attempt by attempt -----

  lemma OverMembers(world: World, networks: seq<string>, dates: seq<string>)
    ensures forall a :: a in AttemptsOver(world, networks, dates)
              <==> exists n :: n in networks && a in Attempts(world, n, dates)
  {
    FlatMembers(AttemptsIn(world, dates), networks);
  }

  lemma AttemptNetworkIs(world: World, n: string, dates: seq<string>)
    ensures forall i :: 0 <= i < |Attempts(world, n, dates)| ==> Attempts(world, n, dates)[i].networkId == n
  {
    var attempts := Attempts(world, n, dates);
    forall i | 0 <= i < |attempts| ensures attempts[i].networkId == n {
      assert attempts[i] in attempts;
      AttemptNetwork(world, n, dates, attempts[i]);
    }
  }

  // ----- Coverage -----

  predicate IsToTell(world: World, networks: seq<string>, dates: seq<string>, r: Rule) {
    r.networkId in networks && IsEligible(world, r.networkId, dates, r)
  }

  /** The rules a run must tell: active, of an evaluated network, triggered by that network's rows. */
  function ToTell(world: World, networks: seq<string>, dates: seq<string>): Rule -> bool {
    (r: Rule) => IsToTell(world, networks, dates, r)
  }

  function EligibleTest(world: World, dates: seq<string>): string -> (Rule -> bool) {
    (n: string) => Eligible(world, n, dates)
  }

  lemma {:induction false} OverCovers(f: Rule -> real, world: World, networks: seq<string>, dates: seq<string>)
    ensures SumOf(AttemptWeight(f), AttemptsOver(world, networks, dates))
         == SumOf(ClassSum(f, EligibleTest(world, dates), world.rules), networks)
  {
    if |networks| == 0 {
    } else {
      var k := |networks| - 1;
      OverCovers(f, world, networks[..k], dates);
      SumAppend(AttemptWeight(f), AttemptsOver(world, networks[..k], dates), Attempts(world, networks[k], dates));
      AttemptsCover(f, world, networks[k], dates);
    }
  }

  /** Over a whole run, for every rule table, row tables, fetch failures and send failures, the
      attempted reports hold exactly the rules to tell, each as often as the table does: none is
      missing, none is told twice, and no other rule appears. */
  lemma RunCovers(f: Rule -> real, config: Config, world: World, namespace: string, dates: seq<string>)
    ensures var networks := NetworksFor(config, world.rules, namespace);
      SumOf(AttemptWeight(f), RunAttempts(config, world, namespace, dates))
      == SumOf(f, Filter(ToTell(world, networks, dates), world.rules))
  {
    var networks := NetworksFor(config, world.rules, namespace);
    OverCovers(f, world, networks, dates);
    NetworksDistinct(config, world.rules, namespace);
    SumByClass(f, EligibleTest(world, dates), networks, world.rules);
    forall i | 0 <= i < |world.rules|
      ensures ToTell(world, networks, dates)(world.rules[i])
          == InSome(EligibleTest(world, dates), networks)(world.rules[i])
    {
      ToldInItsNetwork(world, networks, dates, world.rules[i]);
    }
    FilterCongruent(ToTell(world, networks, dates), InSome(EligibleTest(world, dates), networks), world.rules);
  }

  lemma ToldInItsNetwork(world: World, networks: seq<string>, dates: seq<string>, r: Rule)
    ensures ToTell(world, networks, dates)(r) == InSome(EligibleTest(world, dates), networks)(r)
  {
    if ToTell(world, networks, dates)(r) {
      assert EligibleTest(world, dates)(r.networkId)(r);
    }
  }

  /** No rule that is inactive or names no network is behind any attempt. */
  lemma OnlyRulesToTell(config: Config, world: World, namespace: string, dates: seq<string>, a: Attempt, r: Rule)
    requires a in RunAttempts(config, world, namespace, dates) && r in a.group.rules
    ensures r in world.rules && r.active && r.networkId != "" && r.networkId == a.networkId
    ensures IsToTell(world, NetworksFor(config, world.rules, namespace), dates, r)
  {
    var networks := NetworksFor(config, world.rules, namespace);
    OverMembers(world, networks, dates);
    var n :| n in networks && a in Attempts(world, n, dates);
    AttemptedRules(world, n, dates, a, r);
  }

  function RunKey(): Attempt -> (string, string) { (a: Attempt) => (a.networkId, a.group.userId) }
  function NetworkOfKey(): ((string, string)) -> string { (key: (string, string)) => key.0 }

  lemma DispatchKeysDistinct(world: World, n: string, dates: seq<string>)
    ensures NoDup(Map(RunKey(), Attempts(world, n, dates)))
  {
    var now := Attempts(world, n, dates);
    AttemptsDistinct(world, n, dates);
    forall i, j | 0 <= i < j < |now| ensures RunKey()(now[i]) != RunKey()(now[j]) {
      assert AttemptKey()(now[i]) != AttemptKey()(now[j]);
    }
  }

  /** In one run no user id is addressed twice about the same network. */
  lemma RunDistinct(config: Config, world: World, namespace: string, dates: seq<string>)
    ensures NoDup(Map(RunKey(), RunAttempts(config, world, namespace, dates)))
  {
    var networks := NetworksFor(config, world.rules, namespace);
    NetworksDistinct(config, world.rules, namespace);
    forall n ensures NoDup(Map(RunKey(), AttemptsIn(world, dates)(n))) {
      DispatchKeysDistinct(world, n, dates);
    }
    forall n, a | a in AttemptsIn(world, dates)(n) ensures NetworkOfKey()(RunKey()(a)) == n {
      AttemptNetwork(world, n, dates, a);
    }
    FlatDistinct(RunKey(), NetworkOfKey(), AttemptsIn(world, dates), networks);
  }

  // ----- Fan-out -----

  /** One single-network run after another. */
  function SingleRuns(config: Config, world: World, networks: seq<string>, dates: seq<string>): seq<Attempt> {
    if |networks| == 0 then []
    else SingleRuns(config, world, networks[..|networks| - 1], dates)
         + RunAttempts(config, world, networks[|networks| - 1], dates)
  }

  lemma {:induction false} SingleRunsAre(config: Config, world: World, networks: seq<string>, dates: seq<string>)
    requires forall n :: n in networks ==> !IsPipelineNamespace(config, n)
    ensures SingleRuns(config, world, networks, dates) == AttemptsOver(world, networks, dates)
  {
    if |networks| == 0 {
    } else {
      var k := |networks| - 1;
      assert networks[k] in networks;
      assert forall n :: n in networks[..k] ==> n in networks;
      SingleRunsAre(config, world, networks[..k], dates);
      OneRun(world, networks[k], dates);
    }
  }

  lemma OneRun(world: World, n: string, dates: seq<string>)
    ensures AttemptsOver(world, [n], dates) == Attempts(world, n, dates)
  {
    assert [n][..0] == [];
    assert AttemptsOver(world, [], dates) == [];
  }

  /** A run under the pipeline's namespace attempts exactly what one single-network run per
      distinct named network with an active rule would, in sorted order, provided no network is
      itself named like a pipeline namespace. */
  lemma FanOutRefines(config: Config, world: World, namespace: string, dates: seq<string>)
    requires IsPipelineNamespace(config, namespace)
    requires forall r :: r in world.rules ==> !IsPipelineNamespace(config, r.networkId)
    ensures RunAttempts(config, world, namespace, dates)
         == SingleRuns(config, world, NetworksWithActiveRules(world.rules), dates)
  {
    NetworksShape(world.rules);
    SingleRunsAre(config, world, NetworksWithActiveRules(world.rules), dates);
  }

  /** A network's dispatch reads only that network's active rules. */
  lemma AttemptsReadActive(w: World, v: World, n: string, dates: seq<string>)
    requires v == w.(rules := v.rules) && ActiveRules(w, n) == ActiveRules(v, n)
    ensures Attempts(w, n, dates) == Attempts(v, n, dates)
  {
    FetchReadsActive(w, v, n, dates);
    GroupsReadActive(w, v, n, Fetched(w, n, dates));
  }

  lemma FetchReadsActive(w: World, v: World, n: string, dates: seq<string>)
    requires v == w.(rules := v.rules) && ActiveRules(w, n) == ActiveRules(v, n)
    ensures Fetched(w, n, dates) == Fetched(v, n, dates)
  {
  }

  lemma GroupsReadActive(w: World, v: World, n: string, rows: seq<Exposure.Row>)
    requires v == w.(rules := v.rules) && ActiveRules(w, n) == ActiveRules(v, n)
    ensures Groups(w, n, rows) == Groups(v, n, rows)
  {
  }

  lemma {:induction false} OverReadsActive(w: World, v: World, networks: seq<string>, dates: seq<string>)
    requires v == w.(rules := v.rules) && forall n :: ActiveRules(w, n) == ActiveRules(v, n)
    ensures AttemptsOver(w, networks, dates) == AttemptsOver(v, networks, dates)
  {
    if |networks| == 0 {
    } else {
      OverReadsActive(w, v, networks[..|networks| - 1], dates);
      AttemptsReadActive(w, v, networks[|networks| - 1], dates);
    }
  }

  /** Rules that are not active, whatever networks they name, change nothing in any run. */
  lemma InactiveRulesChangeNothing(config: Config, w: World, extra: seq<Rule>, namespace: string, dates: seq<string>)
    requires forall r :: r in extra ==> !r.active
    ensures RunAttempts(config, w.(rules := w.rules + extra), namespace, dates)
         == RunAttempts(config, w, namespace, dates)
  {
    var v := w.(rules := w.rules + extra);
    forall n ensures ActiveRules(w, n) == ActiveRules(v, n) {
      FilterAppend(IsActiveFor(n), w.rules, extra);
      FilterNone(IsActiveFor(n), extra);
    }
    FilterAppend(IsNetworked(), w.rules, extra);
    FilterNone(IsNetworked(), extra);
    assert Filter(IsNetworked(), v.rules) == Filter(IsNetworked(), w.rules);
    assert NetworksWithActiveRules(v.rules) == NetworksWithActiveRules(w.rules);
    OverReadsActive(w, v, NetworksFor(config, w.rules, namespace), dates);
  }

  // ----- Failure isolation -----

  function NotAbout(network: string): Attempt -> bool { (a: Attempt) => a.networkId != network }

  /** The same world, except for what fetching one network's table gives. */
  ghost predicate DiffersAt(w: World, v: World, network: string) {
    v == w.(fetch := v.fetch) && forall n, ds :: n != network ==> v.fetch(n, ds) == w.fetch(n, ds)
  }

  lemma OtherNetworkSame(w: World, v: World, network: string, n: string, dates: seq<string>)
    requires DiffersAt(w, v, network) && n != network
    ensures Attempts(w, n, dates) == Attempts(v, n, dates)
  {
    assert v.fetch(n, dates) == w.fetch(n, dates);
    assert Fetched(w, n, dates) == Fetched(v, n, dates);
  }

  lemma {:induction false} OverIsolated(w: World, v: World, network: string, networks: seq<string>, dates: seq<string>)
    requires DiffersAt(w, v, network)
    ensures Filter(NotAbout(network), AttemptsOver(w, networks, dates))
         == Filter(NotAbout(network), AttemptsOver(v, networks, dates))
  {
    if |networks| == 0 {
    } else {
      var k := |networks| - 1;
      var n := networks[k];
      OverIsolated(w, v, network, networks[..k], dates);
      FilterAppend(NotAbout(network), AttemptsOver(w, networks[..k], dates), Attempts(w, n, dates));
      FilterAppend(NotAbout(network), AttemptsOver(v, networks[..k], dates), Attempts(v, n, dates));
      if n != network {
        OtherNetworkSame(w, v, network, n, dates);
      } else {
        AttemptNetworkIs(w, n, dates);
        AttemptNetworkIs(v, n, dates);
        FilterNone(NotAbout(network), Attempts(w, n, dates));
        FilterNone(NotAbout(network), Attempts(v, n, dates));
      }
    }
  }

  /** A fetch that fails, or answers anything else, on one network leaves the attempts for every
      other network as they are, in the same order. */
  lemma FetchFailureIsolated(config: Config, w: World, v: World, network: string, namespace: string, dates: seq<string>)
    requires DiffersAt(w, v, network)
    ensures Filter(NotAbout(network), RunAttempts(config, w, namespace, dates))
         == Filter(NotAbout(network), RunAttempts(config, v, namespace, dates))
  {
    OverIsolated(w, v, network, NetworksFor(config, w.rules, namespace), dates);
  }

  // ----- The order of the rules, over a whole run -----

  lemma NetworksIgnoreOrder(config: Config, w: World, v: World, namespace: string)
    requires Reordered(w, v)
    ensures NetworksFor(config, w.rules, namespace) == NetworksFor(config, v.rules, namespace)
  {
    var a, b := Filter(IsNetworked(), w.rules), Filter(IsNetworked(), v.rules);
    FilterPermutation(IsNetworked(), w.rules, v.rules);
    MapMembers(NetworkOf(), a);
    MapMembers(NetworkOf(), b);
    forall r ensures r in a <==> r in b {
      assert r in multiset(a) <==> r in multiset(b);
    }
    SortedSetSame(Map(NetworkOf(), a), Map(NetworkOf(), b));
  }

  /** However the database orders the rules, a run makes the same reports to the same user ids about
      the same networks, up to the order and spelling of the addresses in them. */
  lemma RunIgnoresRuleOrder(config: Config, w: World, v: World, namespace: string, dates: seq<string>, a: Attempt)
    returns (b: Attempt)
    requires Reordered(w, v)
    requires forall n :: n in NetworksFor(config, w.rules, namespace) ==> Honest(w.digest, NetworkHits(w, n, dates))
    requires a in RunAttempts(config, w, namespace, dates)
    ensures b in RunAttempts(config, v, namespace, dates)
    ensures a.networkId == b.networkId && SameGroup(a.group, b.group) && SameButRecipients(a.report, b.report)
    ensures Recipients.SameAddresses(a.report.emailRecipients, b.report.emailRecipients)
  {
    var networks := NetworksFor(config, w.rules, namespace);
    NetworksIgnoreOrder(config, w, v, namespace);
    OverMembers(w, networks, dates);
    OverMembers(v, networks, dates);
    var n :| n in networks && a in Attempts(w, n, dates);
    b := AttemptsIgnoreRuleOrder(w, v, n, dates, a);
    AttemptNetwork(w, n, dates, a);
    AttemptNetwork(v, n, dates, b);
  }
}
