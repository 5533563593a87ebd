# Microservice starter for integration tests: a Dafny model

This project models the core of the `Microservice<T>` test rule of the
Fineract CN service starter. An instance stands for one service jar launched
for an integration test. It holds:

- the service's process environment: a property map seeded with the port,
  key pair and fixed discovery/broker defaults, and overlaid key by key with
  extra properties;
- the debug settings: an optional JDWP port and a suspend flag;
- a registration budget, `maxWait`, in seconds (150 by default);
- a lazily built, cached API client.

What is modelled:

- **Readiness poller.** `WaitTillRegistered` queries the discovery client
  until the service is listed. Between failed queries it sleeps 1, 2, 4, ...
  seconds. It gives up once the total sleep exceeds `maxWait`. The discovery
  client is a function from (application name, query number) to the instances
  listed at that moment. A missing client is `None`. Sleeps are logged in a
  ghost sequence. The module `Backoff` holds the arithmetic of the schedule:
  the sleep sequence, its sum `2^k - 1`, the number of queries
  `floor(log2(maxWait + 1)) + 1` after which the poller gives up, and the
  overshoot bound.
- **Environment descriptor.** The constructor writes the defaults in source
  order (`SetAll` over `Defaults`). `AddProperties` overlays a map one entry at
  a time.
- **Launch command.** `LaunchArguments` builds the argument list of `start`.
  The JDWP agent option is present exactly when a debug port is set. The Java
  executable and the resolved jar path are opaque string parameters.
  `ParseAgentOption` and `DebugSettingsOf` read the suspend flag and the port
  back out of the command. They prove that the command carries exactly those
  settings.
- **Facade.** `Debug`, `RunInDebug`, `MaxWait` and `SetApiFactory` update only
  their own fields. `Api` invokes the factory once and caches the client. A
  ghost counter, `factoryCalls`, records the invocations. `Uri` and `ToString`
  give the address and the printable identity. `Uri` is the test
  environment's server URI for the current properties, so it follows later
  changes to the environment. The accessors `name()` and `debuggingPort()`
  are the fields `applicationName` and `debuggingPort` themselves.

`Decimal` renders integers the way Java's string concatenation does, and
parses them back. Ports appear in the launch command and in `toString` in
this form.

Code whose source is not part of this model appears as inputs. The datatype
`ServiceStarter.TestEnvironment` carries, from the test environment:

- the properties a fresh environment holds;
- the properties its key-pair setter writes;
- the names of the server-port, discovery-enabled and Ribbon-uses-Eureka
  property keys;
- the Eureka default zone and the ActiveMQ bind address;
- the function that derives the server URI from the properties.

Fresh ports from the shared allocator are plain parameters.

## Model

| member | source | states |
|---|---|---|
| ServiceStarter.Microservice.WaitTillRegistered | src/main/java/org/apache/fineract/cn/test/servicestarter/Microservice.java:118-143 | Without a client: false, no query, no sleep. Otherwise: true exactly when one of the first FailLimit(maxWait) queries lists the service. It stops at the first listing query. A listing on query 0 means one query and no sleep. Sleeps are 1, 2, 4, ... in order. On giving up, FailLimit(maxWait) queries were made and the total sleep exceeds maxWait. For maxWait >= 0 the total is at most 2*maxWait+1. For a negative budget the poller gives up after one query and one 1-second sleep. |
| Backoff.ScheduleAt | src/main/java/org/apache/fineract/cn/test/servicestarter/Microservice.java:123-134 | After k failed queries there were k sleeps, and the i-th lasted 2^i seconds. |
| Backoff.ScheduleSum | src/main/java/org/apache/fineract/cn/test/servicestarter/Microservice.java:123-134 | After k failed queries the total sleep, sumWait, is 2^k - 1. (That nextWait is then 2^k is an invariant of the loop in `WaitTillRegistered`, not part of this lemma.) |
| Backoff.FailLimitIsLeast | src/main/java/org/apache/fineract/cn/test/servicestarter/Microservice.java:133-138 | FailLimit(maxWait) is the least j >= 1 with 2^j - 1 > maxWait: every earlier total is within budget and every later one exceeds it. |
| Backoff.Overshoot | src/main/java/org/apache/fineract/cn/test/servicestarter/Microservice.java:132-138 | For maxWait >= 0, the total sleep on giving up exceeds maxWait by at most maxWait + 1. |
| Backoff.FailLimitBound | src/main/java/org/apache/fineract/cn/test/servicestarter/Microservice.java:128-142 | For maxWait >= 0 the number of queries is at most floor(log2(maxWait+1)) + 1, so within the +2 bound. The last sleep, 2^(FailLimit-1), is at most maxWait + 1, and the next one would exceed it. |
| ServiceStarter.Microservice.constructor | src/main/java/org/apache/fineract/cn/test/servicestarter/Microservice.java:57-85 | The environment is the test environment's properties plus the fresh port, the key pair and the fixed defaults, set in source order. No debug port, no suspend, maxWait 150, no factory, no cached client. |
| Decimal.IntToString | src/main/java/org/apache/fineract/cn/test/servicestarter/Microservice.java:171 | Java's rendering of a port: a minus sign exactly for negative values, then one or more digits with no leading zero. Together with `IntRoundTrip` this pins the text down. |
| ServiceStarter.AgentOption | src/main/java/org/apache/fineract/cn/test/servicestarter/Microservice.java:171 | The JDWP option is the fixed prefix "-agentlib:jdwp=transport=dt_socket,server=y,suspend=", then 'y' or 'n' for the suspend flag, then ",address=", then the port in decimal. |
| ServiceStarter.SetAll | src/main/java/org/apache/fineract/cn/test/servicestarter/Microservice.java:72-82 | Setting properties one by one leaves exactly the old keys plus the keys of the entries. |
| ServiceStarter.InitialEnvironment | src/main/java/org/apache/fineract/cn/test/servicestarter/Microservice.java:66-82 | The constructed environment holds exactly the environment's own keys, the server-port key, the key-pair keys and the ten default keys of `Defaults`. |
| ServiceStarter.SetAllKeeps | src/main/java/org/apache/fineract/cn/test/servicestarter/Microservice.java:72-82 | Setting properties one by one leaves every key no entry names unchanged, present or absent. |
| ServiceStarter.SetAllSets | src/main/java/org/apache/fineract/cn/test/servicestarter/Microservice.java:72-82 | Setting properties with distinct keys one by one gives each key its entry's value. |
| ServiceStarter.PortAfterConstruction | src/main/java/org/apache/fineract/cn/test/servicestarter/Microservice.java:67 | When neither the key pair nor a default reuses the server-port key, the constructed environment maps that key to exactly the fresh port's decimal rendering, which parses back to the port. |
| ServiceStarter.DefaultsSurviveOverlay | src/main/java/org/apache/fineract/cn/test/servicestarter/Microservice.java:72-91 | After construction and an overlay, each default key holds the overlay's value if the overlay names it, and the default value otherwise. |
| ServiceStarter.Microservice.AddProperties | src/main/java/org/apache/fineract/cn/test/servicestarter/Microservice.java:87-91 | Each key of the overlay now maps to the overlay's value. Every other key keeps its previous value or stays absent. |
| ServiceStarter.Microservice.Debug | src/main/java/org/apache/fineract/cn/test/servicestarter/Microservice.java:93-98 | Sets the debug port and the suspend flag and changes nothing else. |
| ServiceStarter.Microservice.RunInDebug | src/main/java/org/apache/fineract/cn/test/servicestarter/Microservice.java:100-105 | Sets the debug port to the freshly allocated one and clears the suspend flag. Changes nothing else. |
| ServiceStarter.Microservice.MaxWait | src/main/java/org/apache/fineract/cn/test/servicestarter/Microservice.java:107-110 | Sets the registration budget and changes nothing else. |
| ServiceStarter.Microservice.SetApiFactory | src/main/java/org/apache/fineract/cn/test/servicestarter/Microservice.java:112-116 | Sets the client factory, or clears it when given None (the source's null), and changes nothing else. |
| ServiceStarter.Microservice.LaunchArguments | src/main/java/org/apache/fineract/cn/test/servicestarter/Microservice.java:166-173 | Without a debug port: [java, "-jar", jar]. With one: four arguments, and the second is exactly the agent option built from debugSuspend and debuggingPort. The debug settings read back from that option are exactly (debugSuspend, debuggingPort). |
| ServiceStarter.AgentOptionRoundTrip | src/main/java/org/apache/fineract/cn/test/servicestarter/Microservice.java:171 | The JDWP option determines its suspend flag and port: parsing it gives back both. |
| ServiceStarter.SuspendedAgentOnPort5005 | src/main/java/org/apache/fineract/cn/test/servicestarter/Microservice.java:171 | With suspend and port 5005, the option ends in "suspend=y,address=5005". |
| Decimal.IntRoundTrip | src/main/java/org/apache/fineract/cn/test/servicestarter/Microservice.java:217 | The decimal rendering of a port, negative ones included, parses back to the same integer. |
| Decimal.IntToStringInjective | src/main/java/org/apache/fineract/cn/test/servicestarter/Microservice.java:171 | Different ports give different renderings. |
| ServiceStarter.Microservice.Api | src/main/java/org/apache/fineract/cn/test/servicestarter/Microservice.java:186-191 | First call: the factory runs once, on the current URI, and the client is cached and returned. Later calls return the cached client without running the factory. Without a factory the first call fails (None) and nothing changes. |
| ServiceStarter.Microservice.ToString | src/main/java/org/apache/fineract/cn/test/servicestarter/Microservice.java:210-221 | Starts with name + " address:" + uri. It is exactly that when no debug port is set. Otherwise it continues with ", debuggingPort: " and the port, and the port parses back from the tail. |

## Left out

- Process spawning in `start` (Microservice.java:174-177): populating the child's environment, inheriting I/O and creating the OS process are OS I/O. Only the argument list is modelled.
- Artifact resolution in `start` (Microservice.java:161-164) calls an external resolver. The resolved jar path is an opaque parameter of `LaunchArguments`.
- `kill` (Microservice.java:180-184): destroying, awaiting and reading the exit code of an OS process is OS I/O. On an instance that was never started, `kill` dereferences a null `process` (Microservice.java:181).
- A second `start` on the same instance launches a second process and overwrites the handle (Microservice.java:177). This is process plumbing too.
- The JUnit hooks `before` and `after` (Microservice.java:145-157) are framework glue around `start` and `kill`.
- `getProcessEnvironment` (Microservice.java:197-200) hands out the mutable environment object. The model keeps the environment as the `properties` field.
- Real sleeping and `InterruptedException` in `waitTillRegistered`: sleeps are logged in a ghost sequence instead.
- ServiceStarter.Microservice.WaitTillRegistered: uses unbounded integers where the source uses 64-bit `long`, so it always terminates. In the source, with maxWait = 2^63 - 1 (`Long.MAX_VALUE`), the total after 63 failed queries is 2^63 - 1, which is not over budget. `nextWait` then wraps to -2^63. The next failed query adds it, so `sumWait` wraps to -1 and `nextWait` to 0. From then on the source never gives up: it keeps querying without sleeping. This is reached only after about 2^63 seconds of sleeping.
- ServiceStarter.Microservice.Api: assumes the factory returns a client. A factory that returns null, which the source would call again on the next `api()`, is not modelled. A missing factory, a NullPointerException in the source, is a `None` result.
- The fluent `return this` of `addProperties`, `debug`, `runInDebug`, `maxWait` and `setApiFactory` is not modelled. The methods return nothing.
- The test environment, whose source is not part of this model, is an input: its property keys, server URI, key-pair properties and the embedded servers' addresses.
- The allocator of fresh ports and debug ports is not part of this model. Fresh ports are parameters, so their distinctness across instances is not modelled.
- Application-name lookup from the client interface's annotation (Microservice.java:65) is a library call. The name is a constructor parameter.
- `InitializedMicroservice` adds only delegating overrides, a tenant security handshake through an external test rule, and registration of the name with the test environment. None of it is logic of its own.
