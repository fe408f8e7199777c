/**
 Properties of the port-resolution state machine: the priority order of
 `findPort()`, and what any sequence of "properties requested" and
 "server initialized" events leaves in the observed port and the descriptor.
 */
module PortResolutionTraces {
  import opened Wrappers
  import opened PortResolution

  /** The three-way priority of `findPort()`, one line per branch. */
  lemma FindPortPriority(observed: Int32, server: Option<ServerProperties>)
    ensures observed > 0 ==> FindPort(observed, server) == observed
    ensures observed <= 0 && HasConfiguredPort(server) ==> FindPort(observed, server) == server.value.port.value
    ensures observed <= 0 && !HasConfiguredPort(server) ==> FindPort(observed, server) == DefaultPort
  {
  }

  /** `findPort()` is the first positive candidate of observed, configured, 8080. */
  lemma FindPortIsFirstPositive(observed: Int32, server: Option<ServerProperties>)
    ensures HasPositive(Candidates(observed, server))
    ensures FindPort(observed, server) == FirstPositive(Candidates(observed, server))
  {
  }

  /** Events run one after another compose. */
  lemma {:induction false} RunAppend(s: State, a: seq<Event>, b: seq<Event>)
    ensures Run(s, a + b) == Run(Run(s, a), b)
    decreases |a|
  {
    if |a| == 0 {
      assert a + b == b;
    } else {
      assert (a + b)[0] == a[0];
      assert (a + b)[1..] == a[1..] + b;
      RunAppend(Step(s, a[0]), a[1..], b);
    }
  }

  /** A two-event run is two steps. */
  lemma RunTwo(s: State, e1: Event, e2: Event)
    ensures Run(s, [e1, e2]) == Step(Step(s, e1), e2)
  {
    assert [e1, e2][1..] == [e2];
    assert [e2][1..] == [];
    assert Run(Step(s, e1), [e2]) == Run(Step(Step(s, e1), e2), []);
  }

  /** A three-event run is three steps. */
  lemma RunThree(s: State, e1: Event, e2: Event, e3: Event)
    ensures Run(s, [e1, e2, e3]) == Step(Step(Step(s, e1), e2), e3)
  {
    assert [e1, e2, e3][1..] == [e2, e3];
    RunTwo(Step(s, e1), e2, e3);
  }

  /** No event changes the injected server properties. */
  lemma {:induction false} RunKeepsServer(s: State, events: seq<Event>)
    ensures Run(s, events).server == s.server
    decreases |events|
  {
    if |events| > 0 {
      RunKeepsServer(Step(s, events[0]), events[1..]);
    }
  }

  /** An event that writes the descriptor's port. */
  predicate SetsDescriptorPort(e: Event)
  {
    e.PropertiesRequested? || (e.ServerInitialized? && e.reported > 0)
  }

  /** Once positive, the descriptor's port stays positive whatever follows. */
  lemma {:induction false} DescriptorPortStaysPositive(s: State, events: seq<Event>)
    requires s.simple.local.port > 0
    ensures Run(s, events).simple.local.port > 0
    decreases |events|
  {
    if |events| > 0 {
      DescriptorPortStaysPositive(Step(s, events[0]), events[1..]);
    }
  }

  /** After any event that writes the descriptor's port, it is positive for good. */
  lemma {:induction false} DescriptorPortPositiveOnceSet(s: State, events: seq<Event>)
    requires exists i :: 0 <= i < |events| && SetsDescriptorPort(events[i])
    ensures Run(s, events).simple.local.port > 0
    decreases |events|
  {
    if SetsDescriptorPort(events[0]) {
      DescriptorPortStaysPositive(Step(s, events[0]), events[1..]);
    } else {
      var i :| 0 <= i < |events| && SetsDescriptorPort(events[i]);
      assert events[1..][i - 1] == events[i];
      DescriptorPortPositiveOnceSet(Step(s, events[0]), events[1..]);
    }
  }

  /** Server events that report no positive port leave the descriptor as it was. */
  lemma {:induction false} NonPositiveEventsKeepDescriptor(s: State, events: seq<Event>)
    requires forall i :: 0 <= i < |events| ==> !SetsDescriptorPort(events[i])
    ensures Run(s, events).simple == s.simple
    decreases |events|
  {
    if |events| > 0 {
      assert forall i :: 0 <= i < |events[1..]| ==> events[1..][i] == events[i + 1];
      NonPositiveEventsKeepDescriptor(Step(s, events[0]), events[1..]);
    }
  }

  /** Requests for the properties alone neither change the observed port nor
      move the descriptor away from it while it is positive. */
  lemma {:induction false} RequestsKeepObservedPort(s: State, events: seq<Event>)
    requires s.port > 0 && s.simple.local.port == s.port
    requires forall i :: 0 <= i < |events| ==> events[i].PropertiesRequested?
    ensures Run(s, events).port == s.port
    ensures Run(s, events).simple.local.port == s.port
    decreases |events|
  {
    if |events| > 0 {
      assert forall i :: 0 <= i < |events[1..]| ==> events[1..][i] == events[i + 1];
      RequestsKeepObservedPort(Step(s, events[0]), events[1..]);
    }
  }

  /** When the last server event reports a positive port, both the observed port
      and the descriptor's port end up equal to it, however many property
      requests came before or after. */
  lemma LastServerInitializedWins(s: State, before: seq<Event>, p: Int32, after: seq<Event>)
    requires p > 0
    requires forall i :: 0 <= i < |after| ==> after[i].PropertiesRequested?
    ensures Run(s, before + [ServerInitialized(p)] + after).port == p
    ensures Run(s, before + [ServerInitialized(p)] + after).simple.local.port == p
  {
    var mid := Run(s, before);
    RunAppend(s, before + [ServerInitialized(p)], after);
    RunAppend(s, before, [ServerInitialized(p)]);
    var t := Run(s, before + [ServerInitialized(p)]);
    assert t == OnServerInitialized(mid, p);
    RequestsKeepObservedPort(t, after);
  }

  /** The last properties request in `events`, if any. */
  function LastRequest(events: seq<Event>): (r: Option<Event>)
    ensures r.Some? ==> r.value.PropertiesRequested?
    decreases |events|
  {
    if |events| == 0 then None
    else if events[|events| - 1].PropertiesRequested? then Some(events[|events| - 1])
    else LastRequest(events[..|events| - 1])
  }

  /** The descriptor's service id and host come from the last properties request;
      server events never touch them. */
  lemma {:induction false} IdentityFromLastRequest(s: State, events: seq<Event>)
    ensures var l := Run(s, events).simple.local;
      match LastRequest(events)
      case None => l.serviceId == s.simple.local.serviceId && l.host == s.simple.local.host
      case Some(e) => l.serviceId == Some(e.serviceId) && l.host == Some(e.hostname)
    decreases |events|
  {
    if |events| > 0 {
      var init := events[..|events| - 1];
      var last := events[|events| - 1];
      assert init + [last] == events;
      RunAppend(s, init, [last]);
      IdentityFromLastRequest(s, init);
    }
  }

  /** "Build the properties, then the server starts" and the reverse order
      reach the same state exactly when the reported port is positive or
      the port in use before was already the fallback one. */
  lemma RequestAndServerEventCommute(s: State, serviceId: string, hostname: string, p: Int32)
    ensures Run(s, [PropertiesRequested(serviceId, hostname), ServerInitialized(p)])
         == Run(s, [ServerInitialized(p), PropertiesRequested(serviceId, hostname)])
        <==> p > 0 || FindPort(s.port, s.server) == FallbackPort(s.server)
    ensures p > 0 ==>
      Run(s, [PropertiesRequested(serviceId, hostname), ServerInitialized(p)]).simple.local.port == p
  {
    var req := PropertiesRequested(serviceId, hostname);
    RunTwo(s, req, ServerInitialized(p));
    RunTwo(s, ServerInitialized(p), req);
    var a := OnServerInitialized(BuildProperties(s, serviceId, hostname).0, p);
    var b := BuildProperties(OnServerInitialized(s, p), serviceId, hostname).0;
    if p <= 0 {
      assert a.simple.local.port == FindPort(s.port, s.server);
      assert b.simple.local.port == FallbackPort(s.server);
    }
  }

  /** A later server event with a positive port replaces any earlier one entirely. */
  lemma LaterServerEventOverwrites(s: State, p: Int32, q: Int32)
    requires q > 0
    ensures Run(s, [ServerInitialized(p), ServerInitialized(q)]) == Run(s, [ServerInitialized(q)])
  {
  }

  /** Repeating either operation with the same input changes nothing more. */
  lemma OperationsIdempotent(s: State, serviceId: string, hostname: string, p: Int32)
    ensures Run(s, [ServerInitialized(p), ServerInitialized(p)]) == Run(s, [ServerInitialized(p)])
    ensures Run(s, [PropertiesRequested(serviceId, hostname), PropertiesRequested(serviceId, hostname)])
         == Run(s, [PropertiesRequested(serviceId, hostname)])
  {
  }

  /** A non-positive server event after a positive one resets the observed port
      but keeps the patched descriptor port; properties built afterwards fall back
      to the configured port or 8080. */
  lemma NonPositiveEventAfterPositive(s: State, p: Int32, q: Int32, serviceId: string, hostname: string)
    requires p > 0 && q <= 0
    ensures Run(s, [ServerInitialized(p), ServerInitialized(q)]).port == q
    ensures Run(s, [ServerInitialized(p), ServerInitialized(q)]).simple.local.port == p
    ensures Run(s, [ServerInitialized(p), ServerInitialized(q), PropertiesRequested(serviceId, hostname)])
              .simple.local.port == FallbackPort(s.server)
  {
    RunTwo(s, ServerInitialized(p), ServerInitialized(q));
    RunThree(s, ServerInitialized(p), ServerInitialized(q), PropertiesRequested(serviceId, hostname));
  }
}
