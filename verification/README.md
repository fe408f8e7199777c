# Local-instance port resolution of the simple discovery client

This project models the one piece of logic in Spring Cloud Commons'
`SimpleDiscoveryClientAutoConfiguration`: how it decides which port the local
service instance advertises. The auto-configuration holds an observed port
(0 until the web server reports one) and a properties object whose local
instance `{serviceId, host, port}` it fills in and later patches.

- `findPort()` picks, in order: the observed port if positive; the configured
  server port if the server properties exist, the port is non-null and positive;
  otherwise 8080.
- `simpleDiscoveryProperties(serviceId)` sets the local instance's service id,
  host and `findPort()`, and returns the object's own properties.
- `onApplicationEvent` always stores the reported port. It patches the local
  instance's port only when that port is positive.

Files:

- `wrappers.dfy`: `Option`, for Java references that may be null.
- `port_resolution.dfy` (module `PortResolution`): the state as an immutable datatype,
  each operation as a pure function, and an event-trace semantics (`Run`).
- `port_resolution_traces.dfy` (module `PortResolutionTraces`): the priority order of
  `findPort()`, and what any sequence of the two operations leaves behind.
- `auto_configuration.dfy` (module `AutoConfiguration`): the same machine as
  objects with mutable fields. The properties object is shared by reference, so
  a client built earlier sees a later port patch. The constructor,
  `BuildDiscoveryProperties` and `OnApplicationEvent` are tied to the pure model
  through `Model()`.

Inputs that come from outside the file are parameters. The server properties are
`Option<ServerProperties(port: Option<Int32>)>`, covering a missing bean and a
null port. The host name is a plain string. The reported port is an `Int32`.

A non-positive report is not ignored: line 94 still overwrites the observed
port, and only the descriptor patch at line 95 is skipped.
`NonPositiveEventAfterPositive` shows the effect: properties built after such a
report fall back to the configured port or 8080.

## Model

| member | source | states |
|---|---|---|
| PortResolution.Init | spring-cloud-commons/src/main/java/org/springframework/cloud/client/discovery/simple/SimpleDiscoveryClientAutoConfiguration.java:50-52 | the observed port starts at exactly 0, the "not yet observed" sentinel, and the local instance is unset (no service id, no host, port 0) |
| PortResolution.FindPort | spring-cloud-commons/src/main/java/org/springframework/cloud/client/discovery/simple/SimpleDiscoveryClientAutoConfiguration.java:81-90 | the resolved port is always strictly positive and is one of the observed port, the configured server port, or 8080 |
| PortResolution.FallbackPort | spring-cloud-commons/src/main/java/org/springframework/cloud/client/discovery/simple/SimpleDiscoveryClientAutoConfiguration.java:85-89 | once no positive port has been observed, the resolved port is the configured port when the server properties are present with a non-null positive port, and 8080 otherwise; it is always strictly positive |
| PortResolution.FirstPositive | spring-cloud-commons/src/main/java/org/springframework/cloud/client/discovery/simple/SimpleDiscoveryClientAutoConfiguration.java:81-90 | an independent reading of a priority choice: the result is positive, occurs in the list, and every earlier candidate is non-positive |
| PortResolution.BuildProperties | spring-cloud-commons/src/main/java/org/springframework/cloud/client/discovery/simple/SimpleDiscoveryClientAutoConfiguration.java:66-73 | the returned properties are the object the state holds; its service id is the argument, its host the looked-up name, its port positive and equal to the observed port when that is positive, else the fallback; the observed port and server properties are unchanged |
| PortResolution.OnServerInitialized | spring-cloud-commons/src/main/java/org/springframework/cloud/client/discovery/simple/SimpleDiscoveryClientAutoConfiguration.java:93-98 | the observed port always becomes the reported one; a positive report patches only the local instance's port; a non-positive report leaves the properties unchanged |
| PortResolutionTraces.FindPortPriority | spring-cloud-commons/src/main/java/org/springframework/cloud/client/discovery/simple/SimpleDiscoveryClientAutoConfiguration.java:82-89 | observed port if positive; else the configured port if present, non-null and positive; else 8080 |
| PortResolutionTraces.FindPortIsFirstPositive | spring-cloud-commons/src/main/java/org/springframework/cloud/client/discovery/simple/SimpleDiscoveryClientAutoConfiguration.java:81-90 | findPort equals the first positive element of [observed, configured if non-null, 8080] |
| PortResolutionTraces.RunKeepsServer | spring-cloud-commons/src/main/java/org/springframework/cloud/client/discovery/simple/SimpleDiscoveryClientAutoConfiguration.java:46-57 | no sequence of operations changes the injected server properties |
| PortResolutionTraces.DescriptorPortStaysPositive | spring-cloud-commons/src/main/java/org/springframework/cloud/client/discovery/simple/SimpleDiscoveryClientAutoConfiguration.java:93-98 | once the local instance's port is positive, no later operation makes it non-positive |
| PortResolutionTraces.DescriptorPortPositiveOnceSet | spring-cloud-commons/src/main/java/org/springframework/cloud/client/discovery/simple/SimpleDiscoveryClientAutoConfiguration.java:66-98 | after any properties request or positive server report, the local instance's port is positive for good |
| PortResolutionTraces.NonPositiveEventsKeepDescriptor | spring-cloud-commons/src/main/java/org/springframework/cloud/client/discovery/simple/SimpleDiscoveryClientAutoConfiguration.java:94-95 | server reports that are not positive never touch the properties object, however many arrive |
| PortResolutionTraces.RequestsKeepObservedPort | spring-cloud-commons/src/main/java/org/springframework/cloud/client/discovery/simple/SimpleDiscoveryClientAutoConfiguration.java:70-84 | while a positive port has been observed and advertised, building the properties again keeps both equal to it |
| PortResolutionTraces.LastServerInitializedWins | spring-cloud-commons/src/main/java/org/springframework/cloud/client/discovery/simple/SimpleDiscoveryClientAutoConfiguration.java:93-98 | if the last server report is positive, the observed and advertised ports both equal it, whatever came before and whatever property requests follow |
| PortResolutionTraces.IdentityFromLastRequest | spring-cloud-commons/src/main/java/org/springframework/cloud/client/discovery/simple/SimpleDiscoveryClientAutoConfiguration.java:66-98 | the service id and host are those of the last properties request, or unchanged when there was none; server reports never touch them |
| PortResolutionTraces.RequestAndServerEventCommute | spring-cloud-commons/src/main/java/org/springframework/cloud/client/discovery/simple/SimpleDiscoveryClientAutoConfiguration.java:66-98 | building then reporting and reporting then building reach the same state exactly when the reported port is positive or the port in use before was already the fallback; with a positive report the advertised port is the reported one |
| PortResolutionTraces.LaterServerEventOverwrites | spring-cloud-commons/src/main/java/org/springframework/cloud/client/discovery/simple/SimpleDiscoveryClientAutoConfiguration.java:93-98 | a later positive report replaces an earlier report entirely, no accumulation |
| PortResolutionTraces.OperationsIdempotent | spring-cloud-commons/src/main/java/org/springframework/cloud/client/discovery/simple/SimpleDiscoveryClientAutoConfiguration.java:66-98 | repeating a report with the same port, or a properties request with the same arguments, changes nothing further |
| PortResolutionTraces.NonPositiveEventAfterPositive | spring-cloud-commons/src/main/java/org/springframework/cloud/client/discovery/simple/SimpleDiscoveryClientAutoConfiguration.java:82-96 | a non-positive report after a positive one resets the observed port but keeps the advertised port; properties built afterwards use the configured port or 8080 |
| AutoConfiguration.SimpleDiscoveryClientAutoConfiguration.constructor | spring-cloud-commons/src/main/java/org/springframework/cloud/client/discovery/simple/SimpleDiscoveryClientAutoConfiguration.java:50-57 | the object starts as `Init(server)` with a fresh properties object and a fresh local instance |
| AutoConfiguration.SimpleDiscoveryClientAutoConfiguration.FindPort | spring-cloud-commons/src/main/java/org/springframework/cloud/client/discovery/simple/SimpleDiscoveryClientAutoConfiguration.java:81-90 | the object's findPort is positive, returns the observed port when positive, and the fallback otherwise |
| AutoConfiguration.SimpleDiscoveryClientAutoConfiguration.BuildDiscoveryProperties | spring-cloud-commons/src/main/java/org/springframework/cloud/client/discovery/simple/SimpleDiscoveryClientAutoConfiguration.java:66-73 | fills the shared local instance in place, returns the object's own properties, and matches the pure BuildProperties step |
| AutoConfiguration.SimpleDiscoveryClientAutoConfiguration.OnApplicationEvent | spring-cloud-commons/src/main/java/org/springframework/cloud/client/discovery/simple/SimpleDiscoveryClientAutoConfiguration.java:93-98 | stores the reported port, patches the shared instance's port only when positive, never touches service id or host, and matches the pure step |
| AutoConfiguration.SimpleDiscoveryClientAutoConfiguration.BuildDiscoveryClient | spring-cloud-commons/src/main/java/org/springframework/cloud/client/discovery/simple/SimpleDiscoveryClientAutoConfiguration.java:75-79 | the client holds the very properties object it was given, not a copy |
| AutoConfiguration.Startup | spring-cloud-commons/src/main/java/org/springframework/cloud/client/discovery/simple/SimpleDiscoveryClientAutoConfiguration.java:64-98 | in the framework's order (properties, client, then the server report) a client built before the report advertises the bound port when positive, the fallback otherwise, and always a positive port |

## Left out

- Spring annotations and injection (lines 40-44, 54-62, 64-65, 75-76): framework lifecycle. The setters become constructor inputs; the host lookup helper becomes a host-name argument.
- The `spring.application.name` placeholder and its default `application` (line 67): resolved by the framework; the model takes the service id as a plain string.
- `InetUtils.findFirstNonLoopbackHostInfo()` (line 69): network-interface enumeration in a class that is not part of this model. The host name is an opaque input, and its failure path is not modelled.
- `ServerProperties` binding and `getWebServer().getPort()` (lines 85-87, 94): modelled only as an optional configured port and a reported `Int32`.
- `SimpleDiscoveryClient` and `SimpleDiscoveryProperties` internals (lines 52, 78): those classes are not part of this model. Only the local instance of the properties is modelled, and the client only as a holder of its properties. Querying the client for instances is not modelled.
- Initial local-instance values: taken as Java's field defaults (null, null, 0), since the class that sets them is not part of this model. The trace lemmas hold for any starting state.
- Integer width: ports are Java `int`, modelled as the `Int32` range. The code only stores and compares them, so no wrap-around arises.
