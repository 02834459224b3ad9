/** A hub serves many authorizations at once. Seen from one of them, whatever
    the hub does is a run of that authorization's session. */
module HubRuns {
  import opened MachineInts
  import opened RelayModel
  import opened NodeRelay
  import opened HubRegistry
  import opened Recovery
  import opened RelayHub
  import S = HubSafety

  /** A call of one of the hub's methods. */
  datatype HubEvent =
    | Registers(member: Peer, maxConnections: u32)
    | Unregisters(connection: u64)
    | ShutsDown
    | Opens(connection: u64, peerId: string, authorizationId: string, lookup: OpenLookup, delivered: bool)
    | Accepts(connection: u64, channel: u32, now: i64)
    | Rejects(connection: u64, channel: u32)
    | SendsData(connection: u64, channel: u32, sequence: u64, payload: seq<byte>, now: i64)
    | SendsCloseIntent(connection: u64, channel: u32, intent: CloseIntent, now: i64)
    | SendsCheckpoint(connection: u64, channel: u32, checkpoint: SenderCheckpoint, finalFlag: bool, now: i64)
    | SendsReceipt(connection: u64, channel: u32, receipt: ReceiverReceipt, now: i64)
    | Closes(connection: u64, channel: u32)
    | Ticks(now: i64)
  {
    predicate Legal() {
      SendsData? ==> |payload| <= MAX_FRAME_PAYLOAD
    }

    /** An OPEN that does not recover a held session. */
    predicate Begins(id: string) {
      Opens? && authorizationId == id && !lookup.held
    }
  }

  // ---- What each call does to the routes and the kept tails ----

  ghost predicate Consistent(hub: Tables) {
    hub.production && NoEmptyGroup(hub.groups) && OneRouteEach(hub.routes)
  }

  /** The store answers for the authorization that was asked for, and knows of every tail the hub keeps. */
  predicate StoreAgrees(hub: Tables, authorizationId: string, lookup: OpenLookup) {
    lookup.authorization.Ok? ==>
      && lookup.authorization.value.authorization.authorizationId == authorizationId
      && (authorizationId in hub.interrupted ==> lookup.held)
  }

  predicate Same(before: Tables, after: Tables) {
    after.routes == before.routes && after.interrupted == before.interrupted
  }

  function Forgotten(route: Route, event: RouteEvent, interrupted: map<string, Interrupted>):
      map<string, Interrupted>
    requires event.Legal()
  {
    if ReceiptAccepted(route, event) && Step(route, event).FullyFinal()
    then interrupted - {AuthorizationOf(route).value} else interrupted
  }

  /** One route takes an event. */
  predicate Taken(before: Tables, channel: u32, event: RouteEvent, after: Tables) {
    && event.Legal() && channel in before.routes
    && after.routes == before.routes[channel := Step(before.routes[channel], event)]
    && after.interrupted == Forgotten(before.routes[channel], event, before.interrupted)
  }

  /** The direction a connection sends in on a channel, if it is an end of it. */
  function Sends(hub: Tables, connection: u64, channel: u32): Option<Direction> {
    if channel in hub.routes then Ends(hub.routes[channel], connection) else None
  }

  ghost predicate Unregistered(before: Tables, connection: u64, after: Tables) {
    && after.routes == before.routes - ChannelsOf(before.routes, connection)
    && KeptAfter(before.routes, connection, before.interrupted, after.interrupted, true)
  }

  predicate Added(before: Tables, channel: u32, route: Route, after: Tables) {
    channel !in before.routes && after.routes == before.routes[channel := route]
  }

  ghost predicate Opened(before: Tables, connection: u64, peerId: string, authorizationId: string, lookup: OpenLookup,
                         after: Tables) {
    && NoEmptyGroup(before.groups) && MayOpen(before, connection, peerId, authorizationId, lookup)
    && after.interrupted == before.interrupted
    && exists channel: u32 ::
         Added(before, channel, RouteFor(before, connection, peerId, authorizationId, lookup), after)
  }

  predicate Closed(before: Tables, connection: u64, channel: u32, after: Tables) {
    && channel in before.routes && after.routes == before.routes - {channel}
    && var route := before.routes[channel];
       after.interrupted == if Ends(route, connection).Some? && route.FullyFinal() && route.authorization.Some?
                            then before.interrupted - {AuthorizationOf(route).value} else before.interrupted
  }

  ghost predicate AgreesWithStore(hub: Tables, event: HubEvent) {
    event.Opens? ==> StoreAgrees(hub, event.authorizationId, event.lookup)
  }

  ghost predicate Happens(before: Tables, event: HubEvent, after: Tables) {
    && Consistent(before) && Consistent(after) && event.Legal()
    && AgreesWithStore(before, event)
    && if Takes(before, event) then Changes(before, event, after) else Same(before, after)
  }

  predicate Waits(hub: Tables, connection: u64, channel: u32) {
    && connection in hub.peers && channel in hub.routes
    && hub.routes[channel].destination == connection && !hub.routes[channel].accepted
  }

  /** The calls that are not refused and that touch the routes. */
  ghost predicate Takes(hub: Tables, event: HubEvent)
    requires event.Legal()
  {
    match event
    case Registers(_, _) => false
    case ShutsDown => false
    case Unregisters(connection) => connection in hub.peers
    case Opens(connection, peerId, authorizationId, lookup, delivered) =>
      MayOpen(hub, connection, peerId, authorizationId, lookup) && delivered
    case Accepts(connection, channel, _) => Waits(hub, connection, channel)
    case Rejects(connection, channel) => Waits(hub, connection, channel)
    case SendsData(connection, channel, sequence, payload, now) =>
      var side := Sends(hub, connection, channel);
      && connection in hub.peers && side.Some?
      && AcceptData(hub.routes[channel], side.value, sequence, payload, now).Ok?
    case SendsCloseIntent(connection, channel, intent, now) =>
      var side := Sends(hub, connection, channel);
      && connection in hub.peers && side.Some?
      && AcceptCloseIntent(hub.routes[channel], side.value, intent, hub.peers[connection].memberId, now).Ok?
    case SendsCheckpoint(connection, channel, checkpoint, finalFlag, now) =>
      var side := Sends(hub, connection, channel);
      && connection in hub.peers && side.Some?
      && AcceptCheckpoint(hub.routes[channel], side.value, checkpoint, finalFlag, now).Ok?
    case SendsReceipt(connection, channel, receipt, now) =>
      && connection in hub.peers && channel in hub.routes && Receives(hub.routes[channel], connection, receipt)
      && AcceptReceipt(hub.routes[channel], receipt.body.binding.direction, receipt, now).Ok?
    case Closes(connection, channel) => connection in hub.peers && channel in hub.routes
    case Ticks(_) => true
  }

  ghost predicate Changes(before: Tables, event: HubEvent, after: Tables)
    requires event.Legal()
  {
    match event
    case Registers(_, _) => false
    case ShutsDown => false
    case Unregisters(connection) => Unregistered(before, connection, after)
    case Opens(connection, peerId, authorizationId, lookup, _) =>
      Opened(before, connection, peerId, authorizationId, lookup, after)
    case Accepts(_, channel, now) => Taken(before, channel, ChannelAccepted(now), after)
    case Rejects(_, channel) =>
      && channel in before.routes && !before.routes[channel].accepted
      && after.routes == before.routes - {channel} && after.interrupted == before.interrupted
    case SendsData(connection, channel, sequence, payload, now) =>
      var side := Sends(before, connection, channel);
      side.Some? && Taken(before, channel, DataArrives(side.value, sequence, payload, now), after)
    case SendsCloseIntent(connection, channel, intent, now) =>
      var side := Sends(before, connection, channel);
      && connection in before.peers && side.Some?
      && Taken(before, channel,
               CloseIntentArrives(side.value, intent, before.peers[connection].memberId, now), after)
    case SendsCheckpoint(connection, channel, checkpoint, finalFlag, now) =>
      var side := Sends(before, connection, channel);
      side.Some? && Taken(before, channel, CheckpointArrives(side.value, checkpoint, finalFlag, now), after)
    case SendsReceipt(connection, channel, receipt, now) =>
      Taken(before, channel, ReceiptArrives(receipt.body.binding.direction, receipt, now), after)
    case Closes(connection, channel) => Closed(before, connection, channel, after)
    case Ticks(now) => after.routes == Ticked(before.routes, now) && after.interrupted == before.interrupted
  }

  // ---- One authorization's view ----

  predicate Serves(routes: map<u32, Route>, channel: u32, id: string) {
    channel in routes && AuthorizationOf(routes[channel]) == Some(id)
  }

  ghost function Live(routes: map<u32, Route>, id: string): Option<Route> {
    if exists channel :: Serves(routes, channel, id)
    then var channel :| Serves(routes, channel, id); Some(routes[channel])
    else None
  }

  function TailOf(interrupted: map<string, Interrupted>, id: string): Option<Interrupted> {
    if id in interrupted then Some(interrupted[id]) else None
  }

  ghost function SessionOf(hub: Tables, id: string): Session {
    Session(TailOf(hub.interrupted, id), Live(hub.routes, id))
  }

  lemma LiveIs(routes: map<u32, Route>, channel: u32, id: string)
    requires OneRouteEach(routes) && Serves(routes, channel, id)
    ensures Live(routes, id) == Some(routes[channel])
  {
  }

  lemma LiveUpdated(routes: map<u32, Route>, channel: u32, route: Route, id: string)
    requires OneRouteEach(routes) && channel in routes && AuthorizationOf(route) == AuthorizationOf(routes[channel])
    ensures Live(routes[channel := route], id)
            == if Serves(routes, channel, id) then Some(route) else Live(routes, id)
  {
    var after := routes[channel := route];
    assert OneRouteEach(after);
    if exists other :: Serves(routes, other, id) {
      var other :| Serves(routes, other, id);
      LiveIs(routes, other, id);
      assert Serves(after, other, id);
      LiveIs(after, other, id);
    } else {
      assert forall other :: Serves(after, other, id) ==> Serves(routes, other, id);
    }
  }

  lemma LiveAdded(routes: map<u32, Route>, channel: u32, route: Route, id: string)
    requires OneRouteEach(routes[channel := route]) && channel !in routes && OneRouteEach(routes)
    ensures Live(routes[channel := route], id)
            == if AuthorizationOf(route) == Some(id) then Some(route) else Live(routes, id)
  {
    var after := routes[channel := route];
    if AuthorizationOf(route) == Some(id) {
      assert Serves(after, channel, id);
      LiveIs(after, channel, id);
    } else if exists other :: Serves(routes, other, id) {
      var other :| Serves(routes, other, id);
      LiveIs(routes, other, id);
      assert Serves(after, other, id);
      LiveIs(after, other, id);
    } else {
      assert forall other :: Serves(after, other, id) ==> Serves(routes, other, id);
    }
  }

  lemma LiveDropped(routes: map<u32, Route>, gone: set<u32>, id: string)
    requires OneRouteEach(routes)
    ensures Live(routes - gone, id)
            == if exists channel :: channel in gone && Serves(routes, channel, id) then None else Live(routes, id)
  {
    var after := routes - gone;
    if exists channel :: Serves(after, channel, id) {
      var channel :| Serves(after, channel, id);
      LiveIs(after, channel, id);
      assert Serves(routes, channel, id);
      LiveIs(routes, channel, id);
      forall other | other in gone ensures !Serves(routes, other, id) {
        assert other != channel;
      }
    } else if exists channel :: Serves(routes, channel, id) {
      var channel :| Serves(routes, channel, id);
      assert !Serves(after, channel, id);
    }
  }

  lemma LiveTicked(routes: map<u32, Route>, now: i64, id: string)
    requires OneRouteEach(routes)
    ensures var live := Live(routes, id);
            Live(Ticked(routes, now), id) == if live.Some? then Some(TickBoth(live.value, now)) else None
  {
    var after := Ticked(routes, now);
    forall channel | channel in routes ensures AuthorizationOf(after[channel]) == AuthorizationOf(routes[channel]) {
      TickKeepsEnds(routes[channel], now);
    }
    assert forall channel :: Serves(after, channel, id) <==> Serves(routes, channel, id);
    if exists channel :: Serves(routes, channel, id) {
      var channel :| Serves(routes, channel, id);
      LiveIs(routes, channel, id);
      LiveIs(after, channel, id);
    }
  }

  // ---- Each call is a run of the session ----

  /** The events lead the authorization's session from one moment to the next. */
  ghost predicate Leads(before: Tables, id: string, events: seq<SessionEvent>, after: Tables) {
    AllEventsLegal(events) && RunSession(SessionOf(before, id), events) == SessionOf(after, id)
  }

  lemma NothingHappens(before: Tables, id: string, after: Tables)
    requires SessionOf(after, id) == SessionOf(before, id)
    ensures Leads(before, id, [], after)
  {
  }

  lemma OneStep(before: Tables, id: string, event: SessionEvent, after: Tables)
    requires event.Legal() && SessionStep(SessionOf(before, id), event) == SessionOf(after, id)
    ensures Leads(before, id, [event], after)
  {
    assert [event][..0] == [];
    assert RunSession(SessionOf(before, id), []) == SessionOf(before, id);
  }

  lemma StepKeepsAuthorization(route: Route, event: RouteEvent)
    requires event.Legal()
    ensures Step(route, event).authorization == route.authorization
    ensures ReceiptAccepted(route, event) ==> route.authorization.Some?
  {
    match event
    case DataArrives(_, _, _, _) =>
    case TimerTicks(_, _) =>
    case CloseIntentArrives(_, _, _, _) =>
    case CheckpointArrives(_, _, _, _) =>
    case ReceiptArrives(_, _, _) =>
    case ChannelAccepted(_) =>
  }

  lemma TakenLeads(before: Tables, channel: u32, event: RouteEvent, after: Tables, id: string)
    returns (events: seq<SessionEvent>)
    requires OneRouteEach(before.routes) && Taken(before, channel, event, after)
    ensures Leads(before, id, events, after) && NeverBegins(events)
  {
    var route := before.routes[channel];
    StepKeepsAuthorization(route, event);
    LiveUpdated(before.routes, channel, Step(route, event), id);
    if Serves(before.routes, channel, id) {
      LiveIs(before.routes, channel, id);
      events := [Frame(event)];
      OneStep(before, id, Frame(event), after);
    } else {
      events := [];
      NothingHappens(before, id, after);
    }
  }

  /** The tail one authorization is left with when a connection goes. */
  lemma KeptTail(routes: map<u32, Route>, connection: u64, before: map<string, Interrupted>,
                 after: map<string, Interrupted>, id: string, channel: u32)
    requires OneRouteEach(routes) && KeptAfter(routes, connection, before, after, true)
    requires Serves(routes, channel, id) && Touches(routes[channel], connection)
    ensures TailOf(after, id) == if Kept(routes[channel]).Some? then Kept(routes[channel]) else TailOf(before, id)
  {
    if Kept(routes[channel]).Some? {
      assert LeavesBehind(routes, channel, connection, id, Kept(routes[channel]).value);
    } else if id in after {
      forall c ensures !LeavesBehind(routes, c, connection, id, after[id]) {
        if c in routes && c != channel {
          assert AuthorizationOf(routes[c]) != AuthorizationOf(routes[channel]);
        }
      }
    }
  }

  lemma OtherTail(routes: map<u32, Route>, connection: u64, before: map<string, Interrupted>,
                  after: map<string, Interrupted>, id: string)
    requires KeptAfter(routes, connection, before, after, true)
    requires forall channel :: channel in ChannelsOf(routes, connection) ==> !Serves(routes, channel, id)
    ensures TailOf(after, id) == TailOf(before, id)
  {
    if id in after {
      forall c ensures !LeavesBehind(routes, c, connection, id, after[id]) {
        assert c in ChannelsOf(routes, connection) ==> !Serves(routes, c, id);
      }
    }
  }

  /** A route that goes with one of its connections leaves its session disconnected. */
  lemma Disconnects(before: Tables, connection: u64, after: Tables, channel: u32, id: string)
    requires OneRouteEach(before.routes) && Unregistered(before, connection, after)
    requires Serves(before.routes, channel, id) && Touches(before.routes[channel], connection)
    ensures Live(before.routes, id) == Some(before.routes[channel])
    ensures SessionOf(after, id) == OnDisconnect(SessionOf(before, id))
  {
    LiveDropped(before.routes, ChannelsOf(before.routes, connection), id);
    assert channel in ChannelsOf(before.routes, connection);
    LiveIs(before.routes, channel, id);
    KeptTail(before.routes, connection, before.interrupted, after.interrupted, id, channel);
  }

  lemma Untouched(before: Tables, connection: u64, after: Tables, id: string)
    requires OneRouteEach(before.routes) && Unregistered(before, connection, after)
    requires forall channel :: channel in ChannelsOf(before.routes, connection) ==> !Serves(before.routes, channel, id)
    ensures SessionOf(after, id) == SessionOf(before, id)
  {
    LiveDropped(before.routes, ChannelsOf(before.routes, connection), id);
    OtherTail(before.routes, connection, before.interrupted, after.interrupted, id);
  }

  lemma UnregisteredLeads(before: Tables, connection: u64, after: Tables, id: string)
    returns (events: seq<SessionEvent>)
    requires OneRouteEach(before.routes) && Unregistered(before, connection, after)
    ensures Leads(before, id, events, after) && NeverBegins(events)
  {
    var gone := ChannelsOf(before.routes, connection);
    if exists channel :: channel in gone && Serves(before.routes, channel, id) {
      var channel :| channel in gone && Serves(before.routes, channel, id);
      Disconnects(before, connection, after, channel, id);
      events := [Disconnect];
      OneStep(before, id, Disconnect, after);
    } else {
      Untouched(before, connection, after, id);
      events := [];
      NothingHappens(before, id, after);
    }
  }

  /** The session event an OPEN of the authorization is. */
  function OpeningOf(route: Route, lookup: OpenLookup): SessionEvent
    requires lookup.authorization.Ok?
  {
    if lookup.held then OpenRecovery(lookup.authorization.value, route.source, route.destination)
    else Begin(lookup.authorization.value, route.source, route.destination)
  }

  lemma OpenedLeads(before: Tables, event: HubEvent, after: Tables, id: string)
    returns (events: seq<SessionEvent>)
    requires Consistent(before) && Consistent(after) && event.Opens?
    requires StoreAgrees(before, event.authorizationId, event.lookup)
    requires Opened(before, event.connection, event.peerId, event.authorizationId, event.lookup, after)
    ensures Leads(before, id, events, after) && (!event.Begins(id) ==> NeverBegins(events))
  {
    var route := RouteFor(before, event.connection, event.peerId, event.authorizationId, event.lookup);
    var channel: u32 :| Added(before, channel, route, after);
    LiveAdded(before.routes, channel, route, id);
    if event.authorizationId == id {
      assert Live(before.routes, id).None?;
      events := [OpeningOf(route, event.lookup)];
      OneStep(before, id, OpeningOf(route, event.lookup), after);
    } else {
      events := [];
      NothingHappens(before, id, after);
    }
  }

  /** One route is gone, and with it perhaps its tail. */
  lemma GoneLeads(before: Tables, channel: u32, event: SessionEvent, after: Tables, id: string)
    returns (events: seq<SessionEvent>)
    requires OneRouteEach(before.routes) && channel in before.routes && after.routes == before.routes - {channel}
    requires event.Legal() && !event.Begin?
    requires Serves(before.routes, channel, id) ==>
               SessionStep(Session(TailOf(before.interrupted, id), Some(before.routes[channel])), event)
               == Session(TailOf(after.interrupted, id), None)
    requires !Serves(before.routes, channel, id) ==> TailOf(after.interrupted, id) == TailOf(before.interrupted, id)
    ensures Leads(before, id, events, after) && NeverBegins(events)
  {
    LiveDropped(before.routes, {channel}, id);
    if Serves(before.routes, channel, id) {
      LiveIs(before.routes, channel, id);
      events := [event];
      OneStep(before, id, event, after);
    } else {
      events := [];
      NothingHappens(before, id, after);
    }
  }

  lemma ClosedLeads(before: Tables, connection: u64, channel: u32, after: Tables, id: string)
    returns (events: seq<SessionEvent>)
    requires OneRouteEach(before.routes) && Closed(before, connection, channel, after)
    ensures Leads(before, id, events, after) && NeverBegins(events)
  {
    var event := if Ends(before.routes[channel], connection).Some? then Close else Drop;
    events := GoneLeads(before, channel, event, after, id);
  }

  lemma TickedLeads(before: Tables, now: i64, after: Tables, id: string) returns (events: seq<SessionEvent>)
    requires OneRouteEach(before.routes)
    requires after.routes == Ticked(before.routes, now) && after.interrupted == before.interrupted
    ensures Leads(before, id, events, after) && NeverBegins(events)
  {
    LiveTicked(before.routes, now, id);
    var first, second := Frame(TimerTicks(SenderToReceiver, now)), Frame(TimerTicks(ReceiverToSender, now));
    events := [first, second];
    var session := SessionOf(before, id);
    assert [first][..0] == [] && events[..1] == [first];
    assert RunSession(session, []) == session;
    assert RunSession(session, [first]) == SessionStep(session, first);
    assert RunSession(session, events) == SessionStep(RunSession(session, [first]), second);
  }

  /** Whatever the hub does is, for each authorization, some steps of its session. */
  lemma HubStepLeads(before: Tables, event: HubEvent, after: Tables, id: string) returns (events: seq<SessionEvent>)
    requires Happens(before, event, after)
    ensures Leads(before, id, events, after) && (!event.Begins(id) ==> NeverBegins(events))
  {
    if !Takes(before, event) {
      events := [];
      NothingHappens(before, id, after);
    } else {
      match event
      case Unregisters(connection) => events := UnregisteredLeads(before, connection, after, id);
      case Opens(_, _, _, _, _) => events := OpenedLeads(before, event, after, id);
      case Accepts(_, channel, now) => events := TakenLeads(before, channel, ChannelAccepted(now), after, id);
      case Rejects(_, channel) => events := GoneLeads(before, channel, Reject, after, id);
      case SendsData(connection, channel, sequence, payload, now) =>
        var side := Sends(before, connection, channel).value;
        events := TakenLeads(before, channel, DataArrives(side, sequence, payload, now), after, id);
      case SendsCloseIntent(connection, channel, intent, now) =>
        var side := Sends(before, connection, channel).value;
        events := TakenLeads(before, channel,
                             CloseIntentArrives(side, intent, before.peers[connection].memberId, now), after, id);
      case SendsCheckpoint(connection, channel, checkpoint, finalFlag, now) =>
        var side := Sends(before, connection, channel).value;
        events := TakenLeads(before, channel, CheckpointArrives(side, checkpoint, finalFlag, now), after, id);
      case SendsReceipt(connection, channel, receipt, now) =>
        events := TakenLeads(before, channel, ReceiptArrives(receipt.body.binding.direction, receipt, now), after, id);
      case Closes(connection, channel) => events := ClosedLeads(before, connection, channel, after, id);
      case Ticks(now) => events := TickedLeads(before, now, after, id);
    }
  }

  // ---- Runs ----

  ghost predicate HubRun(start: Tables, events: seq<HubEvent>, end: Tables)
    decreases |events|
  {
    if events == [] then start == end
    else
      var last := |events| - 1;
      exists before: Tables :: HubRun(start, events[..last], before) && Happens(before, events[last], end)
  }

  lemma {:induction false} RunsConcatenate(session: Session, first: seq<SessionEvent>, second: seq<SessionEvent>)
    requires AllEventsLegal(first) && AllEventsLegal(second)
    ensures AllEventsLegal(first + second)
    ensures RunSession(session, first + second) == RunSession(RunSession(session, first), second)
    decreases |second|
  {
    if second == [] {
      assert first + second == first;
    } else {
      var last := |second| - 1;
      RunsConcatenate(session, first, second[..last]);
      assert (first + second)[..|first| + last] == first + second[..last];
    }
  }

  ghost predicate NoneBegins(events: seq<HubEvent>, id: string) {
    forall i :: 0 <= i < |events| ==> !events[i].Begins(id)
  }

  /** A run of the hub, seen from any one authorization, is a run of its session. */
  lemma {:induction false} HubRunsAreSessionRuns(start: Tables, events: seq<HubEvent>, end: Tables, id: string)
    returns (steps: seq<SessionEvent>)
    requires HubRun(start, events, end)
    ensures AllEventsLegal(steps) && RunSession(SessionOf(start, id), steps) == SessionOf(end, id)
    ensures NoneBegins(events, id) ==> NeverBegins(steps)
    decreases |events|
  {
    if events == [] {
      steps := [];
    } else {
      var last := |events| - 1;
      var before: Tables :| HubRun(start, events[..last], before) && Happens(before, events[last], end);
      var earlier := HubRunsAreSessionRuns(start, events[..last], before, id);
      var more := HubStepLeads(before, events[last], end, id);
      RunsConcatenate(SessionOf(start, id), earlier, more);
      steps := earlier + more;
    }
  }

  /** While the hub keeps a tail, no channel begins its authorization anew. */
  lemma KeptIsNotBegun(before: Tables, event: HubEvent, after: Tables, id: string)
    requires Happens(before, event, after) && id in before.interrupted && event.Begins(id)
    ensures Same(before, after)
  {
  }

  lemma EndHasOneRouteEach(start: Tables, events: seq<HubEvent>, end: Tables)
    requires OneRouteEach(start.routes) && HubRun(start, events, end)
    ensures OneRouteEach(end.routes)
  {
    if events != [] {
      var last := |events| - 1;
      var before: Tables :| HubRun(start, events[..last], before) && Happens(before, events[last], end);
    }
  }

  /** Recovery in the hub: once a connection of a paid channel is gone, then whatever the hub does for any members and
      any authorizations, as long as that authorization is not begun anew, its channel and its tail stay at the prefix
      the disconnect found. */
  lemma HubKeepsThePrefix(before: Tables, connection: u64, after: Tables, events: seq<HubEvent>, end: Tables,
                          channel: u32, id: string, windows: S.Windows)
    requires OneRouteEach(before.routes) && Unregistered(before, connection, after)
    requires S.RoutesGuarded(windows, before.routes)
    requires Serves(before.routes, channel, id) && Touches(before.routes[channel], connection)
    requires !before.routes[channel].FullyFinal()
    requires HubRun(after, events, end) && NoneBegins(events, id)
    ensures id in after.interrupted
    ensures var route, first := before.routes[channel], after.interrupted[id];
            && first.forward.prefix == route.forward.prefix && first.backward.prefix == route.backward.prefix
            && (id in end.interrupted ==>
                  && Continues(first.forward, end.interrupted[id].forward)
                  && Continues(first.backward, end.interrupted[id].backward)
                  && end.interrupted[id].UnsignedBytes() <= first.UnsignedBytes())
            && (forall c :: Serves(end.routes, c, id) ==>
                  && end.routes[c].recovery
                  && Continues(first.forward, end.routes[c].forward)
                  && Continues(first.backward, end.routes[c].backward))
  {
    var route := before.routes[channel];
    Disconnects(before, connection, after, channel, id);
    var steps := HubRunsAreSessionRuns(after, events, end, id);
    assert S.RouteGuarded(windows, route);
    RecoveryKeepsThePrefix(route, steps);
    forall c | Serves(end.routes, c, id) ensures Live(end.routes, id) == Some(end.routes[c]) {
      EndHasOneRouteEach(after, events, end);
      LiveIs(end.routes, c, id);
    }
  }

  // ---- The hub's methods ----

  /** A frame has at most the largest payload, numbers are left for connections and channels, and the store agrees. */
  ghost predicate Callable(hub: Hub, event: HubEvent)
    reads hub
  {
    && event.Legal() && AgreesWithStore(hub.Snapshot(), event)
    && (event.Registers? ==> !(hub.nextConnectionId == U64_MAX && U64_MAX in hub.peers))
    && (event.Opens? ==> |hub.routes| < U32_MAX)
  }

  lemma AcceptIsTaken(before: Tables, event: HubEvent, after: Tables, ok: bool)
    requires Consistent(before) && Consistent(after) && event.Accepts? && after.interrupted == before.interrupted
    requires !ok ==> after.routes == before.routes
    requires ok <==> Takes(before, event)
    requires ok ==> after.routes == before.routes[event.channel :=
                      AcceptChannel(before.routes[event.channel], event.now)]
    ensures Happens(before, event, after)
  {
  }

  lemma DataIsTaken(before: Tables, event: HubEvent, after: Tables, ok: bool)
    requires Consistent(before) && Consistent(after) && event.SendsData? && event.Legal()
    requires ok <==> && event.connection in before.peers && event.channel in before.routes
                     && Ends(before.routes[event.channel], event.connection).Some?
                     && AcceptData(before.routes[event.channel],
                                   Ends(before.routes[event.channel], event.connection).value,
                                   event.sequence, event.payload, event.now).Ok?
    requires after.interrupted == before.interrupted && (!ok ==> after.routes == before.routes)
    requires ok ==>
               var taken := AcceptData(before.routes[event.channel],
                                          Ends(before.routes[event.channel], event.connection).value,
                                          event.sequence, event.payload, event.now);
               after.routes == before.routes[event.channel := taken.value.route]
    ensures Happens(before, event, after)
  {
  }

  lemma CloseIntentIsTaken(before: Tables, event: HubEvent, after: Tables, ok: bool)
    requires Consistent(before) && Consistent(after) && event.SendsCloseIntent?
    requires ok <==> && event.connection in before.peers && event.channel in before.routes
                     && Ends(before.routes[event.channel], event.connection).Some?
                     && AcceptCloseIntent(before.routes[event.channel],
                                          Ends(before.routes[event.channel], event.connection).value,
                                          event.intent, before.peers[event.connection].memberId, event.now).Ok?
    requires after.interrupted == before.interrupted && (!ok ==> after.routes == before.routes)
    requires ok ==>
               var taken := AcceptCloseIntent(before.routes[event.channel],
                                                 Ends(before.routes[event.channel], event.connection).value,
                                                 event.intent, before.peers[event.connection].memberId, event.now);
               after.routes == before.routes[event.channel := taken.value.route]
    ensures Happens(before, event, after)
  {
  }

  lemma CheckpointIsTaken(before: Tables, event: HubEvent, after: Tables, ok: bool)
    requires Consistent(before) && Consistent(after) && event.SendsCheckpoint?
    requires ok <==> && event.connection in before.peers && event.channel in before.routes
                     && Ends(before.routes[event.channel], event.connection).Some?
                     && AcceptCheckpoint(before.routes[event.channel],
                                         Ends(before.routes[event.channel], event.connection).value,
                                         event.checkpoint, event.finalFlag, event.now).Ok?
    requires after.interrupted == before.interrupted && (!ok ==> after.routes == before.routes)
    requires ok ==>
               var taken := AcceptCheckpoint(before.routes[event.channel],
                                                Ends(before.routes[event.channel], event.connection).value,
                                                event.checkpoint, event.finalFlag, event.now);
               after.routes == before.routes[event.channel := taken.value]
    ensures Happens(before, event, after)
  {
  }

  lemma ReceiptIsTaken(before: Tables, event: HubEvent, after: Tables, ok: bool)
    requires Consistent(before) && Consistent(after) && event.SendsReceipt? && (!ok ==> Same(before, after))
    requires ok <==> && event.connection in before.peers && event.channel in before.routes
                     && Receives(before.routes[event.channel], event.connection, event.receipt)
                     && AcceptReceipt(before.routes[event.channel], event.receipt.body.binding.direction,
                                      event.receipt, event.now).Ok?
    requires ok ==>
               var taken := AcceptReceipt(before.routes[event.channel], event.receipt.body.binding.direction,
                                          event.receipt, event.now);
               && after.routes == before.routes[event.channel := taken.value.route]
               && taken.value.route.authorization == before.routes[event.channel].authorization
               && taken.value.route.authorization.Some?
               && after.interrupted == if taken.value.route.FullyFinal()
                                       then before.interrupted - {AuthorizationOf(taken.value.route).value}
                                       else before.interrupted
    ensures Happens(before, event, after)
  {
  }

  lemma OpenHappens(before: Tables, event: HubEvent, after: Tables, channel: Option<u32>)
    requires Consistent(before) && Consistent(after) && event.Opens? && AgreesWithStore(before, event)
    requires after.interrupted == before.interrupted && (channel.None? ==> after.routes == before.routes)
    requires channel.Some? <==> && MayOpen(before, event.connection, event.peerId, event.authorizationId, event.lookup)
                                && event.delivered
    requires channel.Some? ==>
               Added(before, channel.value,
                     RouteFor(before, event.connection, event.peerId, event.authorizationId, event.lookup), after)
    ensures Happens(before, event, after)
  {
  }

  lemma CloseHappens(before: Tables, event: HubEvent, after: Tables, ok: bool)
    requires Consistent(before) && Consistent(after) && event.Closes?
    requires ok <==> event.connection in before.peers && Sends(before, event.connection, event.channel).Some?
    requires after.routes == if event.connection in before.peers then before.routes - {event.channel} else before.routes
    requires after.interrupted == if ok && before.routes[event.channel].FullyFinal()
                                     && before.routes[event.channel].authorization.Some?
                                  then before.interrupted - {AuthorizationOf(before.routes[event.channel]).value}
                                  else before.interrupted
    ensures Happens(before, event, after)
  {
    if event.channel !in before.routes {
      assert before.routes - {event.channel} == before.routes;
    }
  }

  lemma TickHappens(before: Tables, event: HubEvent, after: Tables)
    requires Consistent(before) && Consistent(after) && event.Ticks?
    requires after.routes == Ticked(before.routes, event.now) && after.interrupted == before.interrupted
    ensures Happens(before, event, after)
  {
  }

  method DoRegister(hub: Hub, event: HubEvent)
    requires hub.Valid() && hub.production && event.Registers?
    requires !(hub.nextConnectionId == U64_MAX && U64_MAX in hub.peers)
    modifies hub
    ensures hub.Valid() && Happens(old(hub.Snapshot()), event, hub.Snapshot())
  {
    var _ := hub.Register(event.member, event.maxConnections);
  }

  method DoUnregister(hub: Hub, event: HubEvent)
    requires hub.Valid() && hub.production && event.Unregisters?
    modifies hub
    ensures hub.Valid() && Happens(old(hub.Snapshot()), event, hub.Snapshot())
  {
    hub.Unregister(event.connection);
  }

  method DoOpen(hub: Hub, event: HubEvent)
    requires hub.Valid() && hub.production && event.Opens?
    requires |hub.routes| < U32_MAX && AgreesWithStore(hub.Snapshot(), event)
    modifies hub
    ensures hub.Valid() && Happens(old(hub.Snapshot()), event, hub.Snapshot())
  {
    ghost var before := hub.Snapshot();
    var result := hub.Open(event.connection, event.peerId, event.authorizationId, event.lookup, event.delivered);
    OpenHappens(before, event, hub.Snapshot(), if result.Ok? then Some(result.value) else None);
  }

  method DoAccept(hub: Hub, event: HubEvent)
    requires hub.Valid() && hub.production && event.Accepts?
    modifies hub
    ensures hub.Valid() && Happens(old(hub.Snapshot()), event, hub.Snapshot())
  {
    ghost var before := hub.Snapshot();
    var ok := hub.Accept(event.connection, event.channel, event.now);
    AcceptIsTaken(before, event, hub.Snapshot(), ok);
  }

  method DoReject(hub: Hub, event: HubEvent)
    requires hub.Valid() && hub.production && event.Rejects?
    modifies hub
    ensures hub.Valid() && Happens(old(hub.Snapshot()), event, hub.Snapshot())
  {
    var _ := hub.Reject(event.connection, event.channel);
  }

  method DoData(hub: Hub, event: HubEvent)
    requires hub.Valid() && hub.production && event.SendsData? && event.Legal()
    modifies hub
    ensures hub.Valid() && Happens(old(hub.Snapshot()), event, hub.Snapshot())
  {
    ghost var before := hub.Snapshot();
    var result := hub.Data(event.connection, event.channel, event.sequence, event.payload, event.now);
    DataIsTaken(before, event, hub.Snapshot(), result.Ok?);
  }

  method DoCloseIntent(hub: Hub, event: HubEvent)
    requires hub.Valid() && hub.production && event.SendsCloseIntent?
    modifies hub
    ensures hub.Valid() && Happens(old(hub.Snapshot()), event, hub.Snapshot())
  {
    ghost var before := hub.Snapshot();
    var result := hub.CloseIntent(event.connection, event.channel, event.intent, event.now);
    CloseIntentIsTaken(before, event, hub.Snapshot(), result.Ok?);
  }

  method DoCheckpoint(hub: Hub, event: HubEvent)
    requires hub.Valid() && hub.production && event.SendsCheckpoint?
    modifies hub
    ensures hub.Valid() && Happens(old(hub.Snapshot()), event, hub.Snapshot())
  {
    ghost var before := hub.Snapshot();
    var ok := hub.Checkpoint(event.connection, event.channel, event.checkpoint, event.finalFlag, event.now);
    CheckpointIsTaken(before, event, hub.Snapshot(), ok);
  }

  method DoReceipt(hub: Hub, event: HubEvent)
    requires hub.Valid() && hub.production && event.SendsReceipt?
    modifies hub
    ensures hub.Valid() && Happens(old(hub.Snapshot()), event, hub.Snapshot())
  {
    ghost var before := hub.Snapshot();
    var result := hub.Receipt(event.connection, event.channel, event.receipt, event.now);
    ReceiptIsTaken(before, event, hub.Snapshot(), result.Ok?);
  }

  method DoClose(hub: Hub, event: HubEvent)
    requires hub.Valid() && hub.production && event.Closes?
    modifies hub
    ensures hub.Valid() && Happens(old(hub.Snapshot()), event, hub.Snapshot())
  {
    ghost var before := hub.Snapshot();
    var ok := hub.Close(event.connection, event.channel);
    CloseHappens(before, event, hub.Snapshot(), ok);
  }

  method DoTick(hub: Hub, event: HubEvent)
    requires hub.Valid() && hub.production && event.Ticks?
    modifies hub
    ensures hub.Valid() && Happens(old(hub.Snapshot()), event, hub.Snapshot())
  {
    ghost var before := hub.Snapshot();
    hub.Tick(event.now);
    TickHappens(before, event, hub.Snapshot());
  }

  /** Each call of the hub is the event it stands for. */
  method Do(hub: Hub, event: HubEvent)
    requires hub.Valid() && hub.production && Callable(hub, event)
    modifies hub
    ensures hub.Valid() && Happens(old(hub.Snapshot()), event, hub.Snapshot())
  {
    match event
    case Registers(_, _) => DoRegister(hub, event);
    case Unregisters(_) => DoUnregister(hub, event);
    case ShutsDown => var _ := hub.BeginShutdown();
    case Opens(_, _, _, _, _) => DoOpen(hub, event);
    case Accepts(_, _, _) => DoAccept(hub, event);
    case Rejects(_, _) => DoReject(hub, event);
    case SendsData(_, _, _, _, _) => DoData(hub, event);
    case SendsCloseIntent(_, _, _, _) => DoCloseIntent(hub, event);
    case SendsCheckpoint(_, _, _, _, _) => DoCheckpoint(hub, event);
    case SendsReceipt(_, _, _, _) => DoReceipt(hub, event);
    case Closes(_, _) => DoClose(hub, event);
    case Ticks(_) => DoTick(hub, event);
  }
}
