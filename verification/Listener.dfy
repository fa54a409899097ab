/** The pipeline listener (`services/pipeline_listener.py`): which runs count, which networks they
    fan out to, and one dispatch per network. */
module Listener {
  import opened Options
  import opened Sequences
  import opened Tables
  import opened Calendar
  import opened Dispatch

  datatype Config = Config(flow: string, namespace: string, enabled: bool, horizonDays: int)

  datatype Event = Event(status: string, flow: string, namespace: string, timestamp: Option<string>)

  /** The pipeline's own namespace, bare or below a base namespace. */
  predicate IsPipelineNamespace(config: Config, namespace: string) {
    var own := "." + config.namespace;
    namespace == config.namespace
    || (|namespace| >= |own| && namespace[|namespace| - |own|..] == own)
  }

  function IsNetworked(): Rule -> bool { (r: Rule) => r.active && r.networkId != "" }
  function NetworkOf(): Rule -> string { (r: Rule) => r.networkId }

  function NetworksWithActiveRules(rules: seq<Rule>): seq<string> {
    SortedSet(Map(NetworkOf(), Filter(IsNetworked(), rules)))
  }

  function NetworksFor(config: Config, rules: seq<Rule>, namespace: string): seq<string> {
    if IsPipelineNamespace(config, namespace) then NetworksWithActiveRules(rules) else [namespace]
  }

  function AttemptsIn(world: World, dates: seq<string>): string -> seq<Attempt> {
    (network: string) => Attempts(world, network, dates)
  }

  /** The attempts of one dispatch after another. */
  function AttemptsOver(world: World, networks: seq<string>, dates: seq<string>): seq<Attempt> {
    Flat(AttemptsIn(world, dates), networks)
  }

  /** Whether a message dispatches at all. */
  predicate Counts(config: Config, event: Option<Event>) {
    && event.Some? && event.value.status == "completed" && event.value.flow == config.flow && config.enabled
  }

  /** Everything a run attempts to send, in order. */
  function RunAttempts(config: Config, world: World, namespace: string, dates: seq<string>): seq<Attempt> {
    AttemptsOver(world, NetworksFor(config, world.rules, namespace), dates)
  }

  datatype Outcome = Done | Failed

  datatype MqttConfig = MqttConfig(host: string, port: nat, clientId: string, topicPrefix: string)

  class Broker {
    const config: MqttConfig

    constructor (config: MqttConfig)
      ensures this.config == config
    {
      this.config := config;
    }
  }

  /** The module's globals: the broker and the two service clients, absent until it is created. */
  class PipelineListener {
    const config: Config
    var broker: Broker?
    var hasDtClient: bool
    var nudgingClient: Nudging?

    constructor (config: Config)
      ensures this.config == config && broker == null && !hasDtClient && nudgingClient == null
    {
      this.config := config;
      broker := null;
      hasDtClient := false;
      nudgingClient := null;
    }

    /** A new broker for the configured host, stored and returned; the nudging client always exists
        afterwards, and a Digital Twin client once made is kept. */
    method CreateBroker(digitalTwinUrl: string, nudging: Nudging, mqtt: MqttConfig) returns (created: Broker)
      modifies this
      ensures fresh(created) && created.config == mqtt && broker == created
      ensures hasDtClient == (old(hasDtClient) || digitalTwinUrl != "")
      ensures nudgingClient == nudging
    {
      if digitalTwinUrl != "" {
        hasDtClient := true;
      }
      nudgingClient := nudging;
      created := new Broker(mqtt);
      broker := created;
    }

    /** A message that counts attempts its run's reports once the clients exist, and any other
        message attempts nothing; only an unreadable horizon leaves the handler as an exception. */
    method OnPipelineRun(event: Option<Event>, world: World, today: RealDate, read: Reader) returns (outcome: Outcome)
      modifies nudgingClient
      ensures outcome == Failed <==>
        Counts(config, event) && HorizonDates(event.value.timestamp, config.horizonDays, today, read).Raised?
      ensures nudgingClient != null ==>
        nudgingClient.attempts == old(nudgingClient.attempts) +
          if Counts(config, event) && hasDtClient
            && HorizonDates(event.value.timestamp, config.horizonDays, today, read).Ok?
          then RunAttempts(config, world, event.value.namespace,
                           HorizonDates(event.value.timestamp, config.horizonDays, today, read).value)
          else []
    {
      if event.None? || event.value.status != "completed" {
        return Done;
      }
      if event.value.flow != config.flow {
        return Done;
      }
      if !config.enabled {
        return Done;
      }
      var horizon := HorizonDates(event.value.timestamp, config.horizonDays, today, read);
      if horizon.Raised? {
        return Failed;
      }
      if !hasDtClient || nudgingClient == null {
        return Done;
      }
      var networks := NetworksFor(config, world.rules, event.value.namespace);
      DispatchOver(world, networks, horizon.value, nudgingClient);
      return Done;
    }
  }

  // ----- One dispatch after another -----

  /** `f` gives the attempts of each network's dispatch. */
  ghost predicate Gives(f: string -> seq<Attempt>, world: World, dates: seq<string>) {
    forall n {:trigger Attempts(world, n, dates)} :: f(n) == Attempts(world, n, dates)
  }

  method DispatchOne(world: World, network: string, dates: seq<string>, nudging: Nudging,
                     ghost f: string -> seq<Attempt>)
    requires Gives(f, world, dates)
    modifies nudging
    ensures nudging.attempts == old(nudging.attempts) + f(network)
  {
    var _ := DispatchGridAlerts(world, network, dates, nudging);
  }

  method DispatchEach(world: World, networks: seq<string>, dates: seq<string>, nudging: Nudging,
                      ghost f: string -> seq<Attempt>)
    requires Gives(f, world, dates)
    modifies nudging
    ensures nudging.attempts == old(nudging.attempts) + Flat(f, networks)
  {
    ghost var before := nudging.attempts;
    for i := 0 to |networks|
      invariant nudging.attempts == before + Flat(f, networks[..i])
    {
      assert networks[..i + 1][..i] == networks[..i];
      DispatchOne(world, networks[i], dates, nudging, f);
    }
    assert networks[..|networks|] == networks;
  }

  method DispatchOver(world: World, networks: seq<string>, dates: seq<string>, nudging: Nudging)
    modifies nudging
    ensures nudging.attempts == old(nudging.attempts) + AttemptsOver(world, networks, dates)
  {
    DispatchEach(world, networks, dates, nudging, AttemptsIn(world, dates));
  }
}
