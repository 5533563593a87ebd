/**
 * One microservice under integration test: its process environment
 * (a property map seeded with fixed defaults and overlaid key by key),
 * its debug and wait settings, the registration poller, the launch
 * command line, the memoised API client and its printable identity.
 */
module ServiceStarter {
  import opened Wrappers
  import opened Decimal
  import opened Backoff

  /** Seconds the registration wait may take unless `MaxWait` changes it. */
  const MaxWaitDefault: int := 150

  /** One record of the discovery registry. */
  datatype ServiceInstance = ServiceInstance(serviceId: string, host: string, port: int)

  /**
   * A discovery client, as seen by the poller: `getInstances(name, q)` is the
   * list of instances registered under `name` when asked for the q-th time
   * (the registry fills up while the service boots).
   */
  datatype DiscoveryClient = DiscoveryClient(getInstances: (string, nat) -> seq<ServiceInstance>)

  /** True when the q-th query for `name` finds at least one instance. */
  predicate Listed(client: DiscoveryClient, name: string, q: nat) {
    |client.getInstances(name, q)| > 0
  }

  /** The client factory: builds a typed client bound to a base URI. */
  datatype ApiFactory<T> = ApiFactory(create: string -> T)

  /**
   * What the service starter takes from the test environment, whose code is
   * not part of this model: the properties a fresh environment already holds,
   * the properties its key-pair setter writes, the names of three of its
   * property keys, the discovery and broker addresses of the embedded test
   * servers, and how it derives the server URI from its properties.
   */
  datatype TestEnvironment = TestEnvironment(
    initialProperties: map<string, string>,
    keyPairProperties: map<string, string>,
    serverPortProperty: string,
    discoveryEnabledProperty: string,
    ribbonUsesEurekaProperty: string,
    eurekaDefaultZone: string,
    activeMqBindAddress: string,
    serverUri: map<string, string> -> string)

  /** The fixed defaults the constructor writes after the port and key pair, in order. */
  function Defaults(env: TestEnvironment): seq<(string, string)> {
    [ ("eureka.client.serviceUrl.defaultZone", env.eurekaDefaultZone),
      (env.discoveryEnabledProperty, "true"),
      ("eureka.instance.hostname", "localhost"),
      ("eureka.client.fetchRegistry", "true"),
      ("eureka.registration.enabled", "true"),
      ("eureka.instance.leaseRenewalIntervalInSeconds", "1"),
      ("eureka.client.initialInstanceInfoReplicationIntervalSeconds", "0"),
      ("eureka.client.instanceInfoReplicationIntervalSeconds", "1"),
      ("activemq.brokerUrl", env.activeMqBindAddress),
      (env.ribbonUsesEurekaProperty, "true") ]
  }

  /** Sets each property of `entries` in turn; a later entry wins over an earlier one. */
  function SetAll(m: map<string, string>, entries: seq<(string, string)>): (r: map<string, string>)
    ensures r.Keys == m.Keys + set i | 0 <= i < |entries| :: entries[i].0
    decreases |entries|
  {
    if entries == [] then m else SetAll(m[entries[0].0 := entries[0].1], entries[1..])
  }

  /** No key occurs twice in `entries`. */
  predicate DistinctKeys(entries: seq<(string, string)>) {
    forall i, j :: 0 <= i < j < |entries| ==> entries[i].0 != entries[j].0
  }

  /** Setting entries one at a time leaves every key that no entry names as it was. */
  lemma {:induction false} SetAllKeeps(m: map<string, string>, entries: seq<(string, string)>, k: string)
    requires forall i :: 0 <= i < |entries| ==> entries[i].0 != k
    ensures k in SetAll(m, entries) <==> k in m
    ensures k in m ==> SetAll(m, entries)[k] == m[k]
    decreases |entries|
  {
    if entries != [] {
      assert entries[0].0 != k;
      forall j | 0 <= j < |entries[1..]| ensures entries[1..][j].0 != k {
        assert entries[1..][j] == entries[j + 1];
      }
      SetAllKeeps(m[entries[0].0 := entries[0].1], entries[1..], k);
    }
  }

  /** Setting distinct entries one at a time: each entry's key ends up with the entry's value. */
  lemma {:induction false} SetAllSets(m: map<string, string>, entries: seq<(string, string)>, i: nat)
    requires DistinctKeys(entries)
    requires i < |entries|
    ensures entries[i].0 in SetAll(m, entries) && SetAll(m, entries)[entries[i].0] == entries[i].1
    decreases |entries|
  {
    var m' := m[entries[0].0 := entries[0].1];
    assert DistinctKeys(entries[1..]) by {
      forall a, b | 0 <= a < b < |entries[1..]| ensures entries[1..][a].0 != entries[1..][b].0 {
        assert entries[1..][a] == entries[a + 1] && entries[1..][b] == entries[b + 1];
      }
    }
    if i > 0 {
      assert entries[1..][i - 1] == entries[i];
      SetAllSets(m', entries[1..], i - 1);
    } else {
      forall j | 0 <= j < |entries[1..]| ensures entries[1..][j].0 != entries[0].0 {
        assert entries[1..][j] == entries[j + 1];
      }
      SetAllKeeps(m', entries[1..], entries[0].0);
    }
  }

  /** The process environment right after construction. */
  function InitialEnvironment(env: TestEnvironment, freshPort: int): (r: map<string, string>)
    // the environment's own keys, the port key, the key-pair keys and the default keys, no others
    ensures r.Keys == env.initialProperties.Keys + {env.serverPortProperty} + env.keyPairProperties.Keys
                      + set i | 0 <= i < |Defaults(env)| :: Defaults(env)[i].0
  {
    var withPort := env.initialProperties[env.serverPortProperty := IntToString(freshPort)];
    SetAll(withPort + env.keyPairProperties, Defaults(env))
  }

  /**
   * With the test environment's key names distinct from the literal ones,
   * each default is in force after construction, and overlaying `extra`
   * changes exactly the keys it names: every default survives unless
   * `extra` overrides it.
   */
  lemma DefaultsSurviveOverlay(env: TestEnvironment, freshPort: int, extra: map<string, string>)
    requires DistinctKeys(Defaults(env))
    ensures forall i :: 0 <= i < |Defaults(env)| ==>
      var (k, v) := Defaults(env)[i];
      k in InitialEnvironment(env, freshPort) + extra &&
      (InitialEnvironment(env, freshPort) + extra)[k] == (if k in extra then extra[k] else v)
  {
    var withPort := env.initialProperties[env.serverPortProperty := IntToString(freshPort)];
    forall i | 0 <= i < |Defaults(env)|
      ensures var (k, v) := Defaults(env)[i];
        k in InitialEnvironment(env, freshPort) + extra &&
        (InitialEnvironment(env, freshPort) + extra)[k] == (if k in extra then extra[k] else v)
    {
      SetAllSets(withPort + env.keyPairProperties, Defaults(env), i);
    }
  }

  /** The server port is in force after construction unless a later key shadows it. */
  lemma PortAfterConstruction(env: TestEnvironment, freshPort: int)
    requires env.serverPortProperty !in env.keyPairProperties
    requires forall i :: 0 <= i < |Defaults(env)| ==> Defaults(env)[i].0 != env.serverPortProperty
    ensures env.serverPortProperty in InitialEnvironment(env, freshPort)
    ensures InitialEnvironment(env, freshPort)[env.serverPortProperty] == IntToString(freshPort)
    ensures ParseInt(InitialEnvironment(env, freshPort)[env.serverPortProperty]) == Some(freshPort)
  {
    var withPort := env.initialProperties[env.serverPortProperty := IntToString(freshPort)];
    SetAllKeeps(withPort + env.keyPairProperties, Defaults(env), env.serverPortProperty);
    IntRoundTrip(freshPort);
  }

  /** The JDWP agent option that makes the JVM listen for a debugger on `port`. */
  function AgentOption(suspend: bool, port: int): (s: string)
    // the fixed prefix, the suspend letter, ",address=", then the port in decimal
    ensures var n := |AgentPrefix| + 1 + |AddressKey|;
      |s| > n && s[..|AgentPrefix|] == AgentPrefix &&
      s[|AgentPrefix|] == (if suspend then 'y' else 'n') &&
      s[|AgentPrefix| + 1..n] == AddressKey && s[n..] == IntToString(port)
  {
    AgentPrefix + (if suspend then "y" else "n") + AddressKey + IntToString(port)
  }

  const AgentPrefix: string := "-agentlib:jdwp=transport=dt_socket,server=y,suspend="
  const AddressKey: string := ",address="

  /** Reads the suspend flag and the port back out of a JDWP agent option. */
  function ParseAgentOption(s: string): Option<(bool, int)> {
    var n := |AgentPrefix| + 1 + |AddressKey|;
    if |s| < n || s[..|AgentPrefix|] != AgentPrefix || s[|AgentPrefix|] !in "yn"
       || s[|AgentPrefix| + 1..n] != AddressKey then None
    else match ParseInt(s[n..])
      case None => None
      case Some(port) => Some((s[|AgentPrefix|] == 'y', port))
  }

  lemma AgentOptionRoundTrip(suspend: bool, port: int)
    ensures ParseAgentOption(AgentOption(suspend, port)) == Some((suspend, port))
  {
    var s := AgentOption(suspend, port);
    var n := |AgentPrefix| + 1 + |AddressKey|;
    assert s[..|AgentPrefix|] == AgentPrefix;
    assert s[|AgentPrefix| + 1..n] == AddressKey;
    assert s[n..] == IntToString(port);
    IntRoundTrip(port);
  }

  /** Debugging on port 5005 with suspension asks the JVM for "suspend=y,address=5005". */
  lemma SuspendedAgentOnPort5005()
    ensures AgentOption(true, 5005) == "-agentlib:jdwp=transport=dt_socket,server=y,suspend=y,address=5005"
  {
  }

  /** Reads the debug settings back out of a launch command line. */
  function DebugSettingsOf(args: seq<string>): Option<(bool, int)> {
    if |args| == 4 then ParseAgentOption(args[1]) else None
  }

  class Microservice<T> {
    const applicationName: string
    const artifactName: string
    const artifactVersion: string
    const environment: TestEnvironment
    var properties: map<string, string>
    var debuggingPort: Option<int>
    var debugSuspend: bool
    var maxWait: int
    var apiFactory: Option<ApiFactory<T>>
    var api: Option<T>
    /** How often the client factory has been invoked. */
    ghost var factoryCalls: nat

    /**
     * A service named `applicationName` (the name its client interface
     * declares), whose environment gets the port `freshPort` from the
     * shared allocator, the shared key pair and the fixed defaults.
     */
    constructor (applicationName: string, artifactName: string, artifactVersion: string,
                 environment: TestEnvironment, freshPort: int)
      ensures this.applicationName == applicationName && this.artifactName == artifactName
      ensures this.artifactVersion == artifactVersion && this.environment == environment
      ensures properties == InitialEnvironment(environment, freshPort)
      ensures debuggingPort == None && !debugSuspend && maxWait == MaxWaitDefault
      ensures apiFactory == None && api == None && factoryCalls == 0
    {
      this.applicationName := applicationName;
      this.artifactName := artifactName;
      this.artifactVersion := artifactVersion;
      this.environment := environment;
      var env := environment.initialProperties[environment.serverPortProperty := IntToString(freshPort)];
      env := env + environment.keyPairProperties;
      properties := SetAll(env, Defaults(environment));
      debuggingPort := None;
      debugSuspend := false;
      maxWait := MaxWaitDefault;
      apiFactory := None;
      api := None;
      factoryCalls := 0;
    }

    /**
     * Overlays `extra` onto the environment one entry at a time: each key of
     * `extra` now maps to its value there, every other key is untouched.
     */
    method AddProperties(extra: map<string, string>)
      modifies this`properties
      ensures properties == old(properties) + extra
    {
      var pending := extra.Keys;
      while pending != {}
        invariant pending <= extra.Keys
        invariant forall k :: k in extra && k !in pending ==> k in properties && properties[k] == extra[k]
        invariant forall k :: k !in extra || k in pending ==>
          (k in properties <==> k in old(properties)) && (k in properties ==> properties[k] == old(properties)[k])
        decreases pending
      {
        var k :| k in pending;
        properties := properties[k := extra[k]];
        pending := pending - {k};
      }
      assert properties.Keys == (old(properties) + extra).Keys;
    }

    /** Sets the debug port and suspend flag, nothing else. */
    method Debug(suspend: bool, port: int)
      modifies this`debuggingPort, this`debugSuspend
      ensures debuggingPort == Some(port) && debugSuspend == suspend
    {
      debuggingPort := Some(port);
      debugSuspend := suspend;
    }

    /** Debugs on a fresh port from the shared allocator, without suspending. */
    method RunInDebug(freshDebugPort: int)
      modifies this`debuggingPort, this`debugSuspend
      ensures debuggingPort == Some(freshDebugPort) && !debugSuspend
    {
      debuggingPort := Some(freshDebugPort);
      debugSuspend := false;
    }

    method MaxWait(maxWait: int)
      modifies this`maxWait
      ensures this.maxWait == maxWait
    {
      this.maxWait := maxWait;
    }

    /** Sets or, with None, clears the client factory. */
    method SetApiFactory(factory: Option<ApiFactory<T>>)
      modifies this`apiFactory
      ensures apiFactory == factory
    {
      apiFactory := factory;
    }

    /**
     * Polls the discovery client until this service is listed, sleeping
     * 1, 2, 4, ... seconds between failed queries and giving up once the
     * total sleep exceeds `maxWait`. `queries` counts the discovery queries
     * and `sleeps` logs the sleeps in order.
     */
    method WaitTillRegistered(client: Option<DiscoveryClient>)
      returns (registered: bool, ghost queries: nat, ghost sleeps: seq<int>)
      // without a client nothing is asked and nothing is slept
      ensures client.None? ==> !registered && queries == 0 && sleeps == []
      // registered exactly when one of the first FailLimit(maxWait) queries lists the service
      ensures client.Some? ==>
        (registered <==> exists q :: 0 <= q < FailLimit(maxWait) && Listed(client.value, applicationName, q))
      ensures client.Some? ==> 1 <= queries <= FailLimit(maxWait)
      // the poller stops at the first query that lists the service
      ensures client.Some? ==> forall q :: 0 <= q < queries - 1 ==> !Listed(client.value, applicationName, q)
      ensures client.Some? && registered ==>
        Listed(client.value, applicationName, queries - 1) && sleeps == Schedule(queries - 1)
      // a listing on the first query means one query and no sleep
      ensures client.Some? && Listed(client.value, applicationName, 0) ==>
        registered && queries == 1 && sleeps == []
      // giving up: every query failed, sleeps were 1, 2, 4, ..., and their total exceeds the budget
      ensures client.Some? && !registered ==>
        queries == FailLimit(maxWait) && sleeps == Schedule(queries) && maxWait < Sum(sleeps)
      ensures client.Some? && !registered && maxWait >= 0 ==> Sum(sleeps) <= 2 * maxWait + 1
      // a negative budget gives up after the first failed query and its one-second sleep
      ensures client.Some? && !registered && maxWait < 0 ==> queries == 1 && sleeps == [1]
    {
      queries, sleeps := 0, [];
      if client.None? {
        return false, queries, sleeps;
      }
      var discovery := client.value;
      ghost var limit := FailLimit(maxWait);

      var asked: nat := 0;  // the registry's clock: how many queries were issued
      var nextWait := 1;
      var sumWait := 0;
      var found := false;
      while !found
        invariant queries == asked
        invariant queries <= limit
        invariant !found ==> queries < limit && nextWait == Pow2(queries) && sumWait == Pow2(queries) - 1
        invariant !found ==> sleeps == Schedule(queries) && forall q :: 0 <= q < queries ==> !Listed(discovery, applicationName, q)
        invariant found ==> 1 <= queries && Listed(discovery, applicationName, queries - 1) && sleeps == Schedule(queries - 1)
        invariant found ==> forall q :: 0 <= q < queries - 1 ==> !Listed(discovery, applicationName, q)
        decreases limit - queries
      {
        var thisApp := discovery.getInstances(applicationName, asked);
        asked := asked + 1;
        queries := asked;
        found := |thisApp| > 0;
        assert found == Listed(discovery, applicationName, queries - 1);
        if !found {
          sleeps := sleeps + [nextWait];
          sumWait := sumWait + nextWait;
          nextWait := nextWait * 2;
          assert nextWait == Pow2(queries) && sumWait == Pow2(queries) - 1;
          if sumWait > maxWait {
            AtFailLimit(maxWait, queries);
            assert forall q :: 0 <= q < limit ==> !Listed(discovery, applicationName, q);
            ScheduleSum(queries);
            if maxWait >= 0 {
              Overshoot(maxWait);
            }
            return false, queries, sleeps;
          }
          BelowFailLimit(maxWait, queries);
        }
      }
      assert Listed(discovery, applicationName, queries - 1) && queries - 1 < limit;
      return true, queries, sleeps;
    }

    /**
     * The command line that starts the service jar, with the JDWP agent
     * option inserted exactly when a debug port is set.
     */
    function LaunchArguments(java: string, jarPath: string): (args: seq<string>)
      reads this
      ensures |args| == (if debuggingPort.None? then 3 else 4)
      ensures args[0] == java && args[|args| - 2..] == ["-jar", jarPath]
      ensures debuggingPort.Some? ==> args[1] == AgentOption(debugSuspend, debuggingPort.value)
      ensures DebugSettingsOf(args) ==
        if debuggingPort.None? then None else Some((debugSuspend, debuggingPort.value))
    {
      if debuggingPort.None? then
        [java, "-jar", jarPath]
      else
        AgentOptionRoundTrip(debugSuspend, debuggingPort.value);
        [java, AgentOption(debugSuspend, debuggingPort.value), "-jar", jarPath]
    }

    /** The address of the running service, derived from its current environment. */
    function Uri(): string
      reads this
    {
      environment.serverUri(properties)
    }

    /**
     * The typed client: built by the factory on first use and cached, so
     * every later call returns the same client without invoking the factory.
     * None stands for the failure of a first call before any factory was set.
     */
    method Api() returns (r: Option<T>)
      modifies this`api, this`factoryCalls
      ensures old(api).Some? ==> r == old(api) && api == old(api) && factoryCalls == old(factoryCalls)
      ensures old(api).None? && apiFactory.Some? ==>
        r == api == Some(apiFactory.value.create(Uri())) && factoryCalls == old(factoryCalls) + 1
      ensures old(api).None? && apiFactory.None? ==> r == None && api == None && factoryCalls == old(factoryCalls)
    {
      if api.None? {
        if apiFactory.None? {
          return None;
        }
        api := Some(apiFactory.value.create(Uri()));
        factoryCalls := factoryCalls + 1;
      }
      r := api;
    }

    /**
     * "<name> address:<uri>", followed by ", debuggingPort: <port>" exactly
     * when a debug port is set; the port can be read back from the tail.
     */
    function ToString(): (s: string)
      reads this
      ensures var head := applicationName + " address:" + Uri();
        |s| >= |head| && s[..|head|] == head &&
        (debuggingPort.None? <==> |s| == |head|) &&
        (debuggingPort.Some? ==>
          s[|head|..] == ", debuggingPort: " + IntToString(debuggingPort.value) &&
          ParseInt(s[|head| + 17..]) == Some(debuggingPort.value))
    {
      var head := applicationName + " address:" + Uri();
      if debuggingPort.None? then head
      else
        var tail := ", debuggingPort: " + IntToString(debuggingPort.value);
        IntRoundTrip(debuggingPort.value);
        assert (head + tail)[|head|..] == tail;
        assert (head + tail)[|head| + 17..] == IntToString(debuggingPort.value);
        head + tail
    }
  }
}
