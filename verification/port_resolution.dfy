/**
 The port-resolution state machine of the simple discovery client
 auto-configuration, as pure functions over an immutable state.

 The auto-configuration holds three things: the (optional) bound server
 properties, the port observed from the "web server initialized" event
 (0 until one arrives), and the local service-instance descriptor
 `{serviceId, host, port}` that it advertises. Two operations touch that
 state, in either order: building the discovery properties, and the server
 reporting the port it bound.
 */
module PortResolution {
  import opened Wrappers

  /** A Java `int`. Ports are only stored and compared, never computed with,
      so no wrap-around arises; the type only keeps values in range. */
  type Int32 = x: int | -0x8000_0000 <= x < 0x8000_0000

  /** The port advertised when neither an observed nor a configured port is positive. */
  const DefaultPort: Int32 := 8080

  /** The observed port before any server event has been received. */
  const UnknownPort: Int32 := 0

  /** Bound server configuration; its port is a boxed `Integer` and may be null. */
  datatype ServerProperties = ServerProperties(port: Option<Int32>)

  /** The local service instance advertised by discovery. Fields never set are `None`. */
  datatype LocalInstance = LocalInstance(serviceId: Option<string>, host: Option<string>, port: Int32)

  /** The discovery properties object; only its local instance is part of this model. */
  datatype SimpleDiscoveryProperties = SimpleDiscoveryProperties(local: LocalInstance)

  /** A fresh descriptor: Java's default field values (null, null, 0). */
  const Unset: LocalInstance := LocalInstance(None, None, 0)

  /** The fields of the auto-configuration: the injected server properties
      (`None` when no such bean exists), the observed port and the properties object. */
  datatype State = State(server: Option<ServerProperties>, port: Int32, simple: SimpleDiscoveryProperties)

  /** The state right after construction and injection of the server properties. */
  function Init(server: Option<ServerProperties>): (s: State)
    ensures s.server == server
    ensures s.port == UnknownPort
    ensures s.simple.local == Unset
  {
    State(server, UnknownPort, SimpleDiscoveryProperties(Unset))
  }

  /** True when the server properties are present and carry a positive port. */
  predicate HasConfiguredPort(server: Option<ServerProperties>)
  {
    server.Some? && server.value.port.Some? && server.value.port.value > 0
  }

  /** `findPort()`: the observed port if positive, else the configured port
      if present and positive, else 8080. */
  function FindPort(observed: Int32, server: Option<ServerProperties>): (r: Int32)
    ensures r > 0
    ensures r == observed || (server.Some? && server.value.port == Some(r)) || r == DefaultPort
  {
    if observed > 0 then observed
    else if HasConfiguredPort(server) then server.value.port.value
    else DefaultPort
  }

  /** The port `findPort()` falls back to once no positive port has been observed. */
  function FallbackPort(server: Option<ServerProperties>): (r: Int32)
    ensures r > 0
    ensures HasConfiguredPort(server) ==> r == server.value.port.value
    ensures !HasConfiguredPort(server) ==> r == DefaultPort
  {
    FindPort(UnknownPort, server)
  }

  /** `simpleDiscoveryProperties(serviceId)`: fills the local descriptor with the
      service id, the looked-up host name and `findPort()`, and returns the very
      properties object the state holds. */
  function BuildProperties(s: State, serviceId: string, hostname: string): (r: (State, SimpleDiscoveryProperties))
    ensures r.1 == r.0.simple
    ensures r.1.local.serviceId == Some(serviceId)
    ensures r.1.local.host == Some(hostname)
    ensures r.1.local.port > 0
    ensures s.port > 0 ==> r.1.local.port == s.port
    ensures s.port <= 0 ==> r.1.local.port == FallbackPort(s.server)
    ensures r.0.port == s.port && r.0.server == s.server
  {
    var local := LocalInstance(Some(serviceId), Some(hostname), FindPort(s.port, s.server));
    var s' := s.(simple := s.simple.(local := local));
    (s', s'.simple)
  }

  /** `onApplicationEvent`: always records the reported port; patches the
      descriptor's port only when the reported port is positive. */
  function OnServerInitialized(s: State, reported: Int32): (r: State)
    ensures r.port == reported
    ensures r.server == s.server
    ensures reported > 0 ==> r.simple.local == s.simple.local.(port := reported)
    ensures reported <= 0 ==> r.simple == s.simple
  {
    var s' := s.(port := reported);
    if s'.port > 0 then s'.(simple := s'.simple.(local := s'.simple.local.(port := s'.port)))
    else s'
  }

  /** One input to the state machine. */
  datatype Event =
    | PropertiesRequested(serviceId: string, hostname: string)
    | ServerInitialized(reported: Int32)

  /** The state after one event. */
  function Step(s: State, e: Event): State
  {
    match e
    case PropertiesRequested(id, h) => BuildProperties(s, id, h).0
    case ServerInitialized(p) => OnServerInitialized(s, p)
  }

  /** The state after a sequence of events, first to last. */
  function Run(s: State, events: seq<Event>): State
    decreases |events|
  {
    if |events| == 0 then s else Run(Step(s, events[0]), events[1..])
  }

  /** Candidate ports in the priority order `findPort()` consults them. */
  function Candidates(observed: Int32, server: Option<ServerProperties>): (c: seq<Int32>)
    ensures |c| >= 2 && c[0] == observed && c[|c| - 1] == DefaultPort
  {
    var configured := if server.Some? && server.value.port.Some? then [server.value.port.value] else [];
    [observed] + configured + [DefaultPort]
  }

  /** True when `xs` holds a positive element. */
  predicate HasPositive(xs: seq<Int32>)
  {
    exists i :: 0 <= i < |xs| && xs[i] > 0
  }

  /** The first positive element of `xs`: an independent reading of a priority choice. */
  function FirstPositive(xs: seq<Int32>): (r: Int32)
    requires HasPositive(xs)
    ensures r > 0
    ensures exists i :: 0 <= i < |xs| && xs[i] == r && forall j :: 0 <= j < i ==> xs[j] <= 0
    decreases |xs|
  {
    if xs[0] > 0 then xs[0]
    else
      assert HasPositive(xs[1..]) by {
        var i :| 0 <= i < |xs| && xs[i] > 0;
        assert xs[1..][i - 1] == xs[i];
      }
      var r := FirstPositive(xs[1..]);
      var i :| 0 <= i < |xs[1..]| && xs[1..][i] == r && forall j :: 0 <= j < i ==> xs[1..][j] <= 0;
      assert xs[i + 1] == r;
      assert forall j :: 0 <= j < i + 1 ==> xs[j] <= 0 by {
        forall j | 0 <= j < i + 1 ensures xs[j] <= 0 {
          if j > 0 { assert xs[j] == xs[1..][j - 1]; }
        }
      }
      r
  }
}
