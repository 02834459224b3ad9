/** The Node's relay hub: connections, routes and interrupted sessions, changed
    in place by each registration, frame, timer tick and disconnect. */
module RelayHub {
  import opened MachineInts
  import opened RelayModel
  import opened NodeRelay
  import opened HubRegistry
  import R = Recovery
  import S = HubSafety

  const MAX_CHANNELS_PER_CONNECTION := 256

  /** What the Node's store and the chain say about an OPEN request. */
  datatype OpenLookup = OpenLookup(
    pendingReceipt: bool,       // a receipt for this authorization awaits settlement
    held: bool,                 // the authorization has an unsettled interrupted session
    otherHeld: bool,            // another session of the network is held
    authorization: RelayResult<View> // the validated authorization
  )

  function Ends(route: Route, connection: u64): Option<Direction> {
    if route.source == connection then Some(SenderToReceiver)
    else if route.destination == connection then Some(ReceiverToSender)
    else None
  }

  /** A receipt for a direction comes from the end that receives it. */
  predicate Receives(route: Route, connection: u64, receipt: ReceiverReceipt) {
    if receipt.body.binding.direction == SenderToReceiver then route.destination == connection
    else route.source == connection
  }

  /** Counting a DATA frame, field by field. */
  method CountData(route: Route, direction: Direction, sequence: u64, payload: seq<byte>, now: i64)
      returns (result: RelayResult<Accepted>)
    requires |payload| <= MAX_FRAME_PAYLOAD
    ensures result == AcceptData(route, direction, sequence, payload, now)
  {
    var state := route.Side(direction);
    if !route.accepted { return Err(NotAccepted); }
    if route.recovery { return Err(RecoveryChannel); }
    var windowBytes, windowSeconds := RELAY_PAYMENT_WINDOW_BYTES, RELAY_PAYMENT_WINDOW_SECONDS;
    if route.authorization.Some? {
      windowBytes := route.authorization.value.authorization.windowBytes;
      windowSeconds := route.authorization.value.authorization.windowSeconds;
    }
    if !AcceptsMoreData(state, windowBytes, windowSeconds, |payload|, now) {
      return Err(WindowExhausted);
    }
    if sequence != SatAdd64(state.prefix.sequence, 1) { return Err(SequenceGap); }
    if route.authorization.None? {
      return Ok(Accepted(route.WithSide(direction, state.(prefix := state.prefix.(sequence := sequence))), None));
    }
    var view := route.authorization.value;
    if now >= view.authorization.validUntil { return Err(AuthorizationExpired); }
    if state.prefix.bytes + |payload| > U64_MAX { return Err(ByteCounterOverflow); }
    var forwardBytes, backwardBytes := route.forward.prefix.bytes, route.backward.prefix.bytes;
    if direction == SenderToReceiver {
      forwardBytes := forwardBytes + |payload|;
    } else {
      backwardBytes := backwardBytes + |payload|;
    }
    if !Affordable(view.authorization, forwardBytes, backwardBytes) {
      return Err(InsufficientReservation);
    }
    if state.windowStartedAt.None? { state := state.(windowStartedAt := Some(now)); }
    state := state.(prefix := Advance(state.prefix, sequence, payload));
    var request := None;
    if state.checkpointRequest.None? && SatSub64(state.prefix.bytes, state.windowStartedBytes) >= windowBytes {
      state := Schedule(view, direction, state, false, now);
      request := state.checkpointRequest;
    }
    return Ok(Accepted(route.WithSide(direction, state), request));
  }

  /** The kept state of a route that loses a connection, if it is paid and not fully receipted. */
  function Kept(route: Route): Option<R.Interrupted> {
    if route.authorization.Some? && !route.FullyFinal()
    then Some(R.Interrupted(ResetForRecovery(route.forward), ResetForRecovery(route.backward)))
    else None
  }

  ghost predicate NoEmptyGroup(groups: Groups) {
    forall member :: member in groups ==> groups[member] != []
  }

  ghost predicate LeavesBehind(routes: map<u32, Route>, channel: u32, connection: u64, id: string,
                               kept: R.Interrupted) {
    && channel in routes && Touches(routes[channel], connection)
    && AuthorizationOf(routes[channel]) == Some(id) && Kept(routes[channel]) == Some(kept)
  }

  /** Exactly the tails of the closed routes are added to what was kept before. */
  ghost predicate KeptAfter(routes: map<u32, Route>, connection: u64, before: map<string, R.Interrupted>,
                            after: map<string, R.Interrupted>, production: bool) {
    && (forall id :: id in before ==> id in after)
    && (forall id :: id in after ==>
          || (exists channel :: production && LeavesBehind(routes, channel, connection, id, after[id]))
          || (id in before && after[id] == before[id]))
    && (production ==>
          forall channel, id, kept :: LeavesBehind(routes, channel, connection, id, kept) ==>
            id in after && after[id] == kept)
  }

  /** What is kept once one more closed route's tail is added. */
  function KeptWith(route: Route, after: map<string, R.Interrupted>, production: bool): map<string, R.Interrupted> {
    if production && Kept(route).Some? then after[AuthorizationOf(route).value := Kept(route).value] else after
  }

  lemma KeptHasASource(done: map<u32, Route>, channel: u32, route: Route, connection: u64,
                       before: map<string, R.Interrupted>,
                       after: map<string, R.Interrupted>, production: bool, id: string)
    requires KeptAfter(done, connection, before, after, production)
    requires channel !in done && Touches(route, connection) && id in KeptWith(route, after, production)
    ensures var all, kept := done[channel := route], KeptWith(route, after, production);
            || (exists c :: production && LeavesBehind(all, c, connection, id, kept[id]))
            || (id in before && kept[id] == before[id])
  {
    var all, kept := done[channel := route], KeptWith(route, after, production);
    if production && Kept(route).Some? && AuthorizationOf(route) == Some(id) {
      assert LeavesBehind(all, channel, connection, id, kept[id]);
    } else if exists c :: production && LeavesBehind(done, c, connection, id, after[id]) {
      var c :| production && LeavesBehind(done, c, connection, id, after[id]);
      assert LeavesBehind(all, c, connection, id, kept[id]);
    }
  }

  lemma KeepOne(done: map<u32, Route>, channel: u32, route: Route, connection: u64, before: map<string, R.Interrupted>,
                after: map<string, R.Interrupted>, production: bool)
    requires KeptAfter(done, connection, before, after, production)
    requires channel !in done && Touches(route, connection) && OneRouteEach(done[channel := route])
    ensures KeptAfter(done[channel := route], connection, before, KeptWith(route, after, production), production)
  {
    var all, kept := done[channel := route], KeptWith(route, after, production);
    forall id | id in kept
      ensures || (exists c :: production && LeavesBehind(all, c, connection, id, kept[id]))
              || (id in before && kept[id] == before[id])
    {
      KeptHasASource(done, channel, route, connection, before, after, production, id);
    }
    forall c, id, k | production && LeavesBehind(all, c, connection, id, k) ensures id in kept && kept[id] == k {
      if c != channel {
        assert LeavesBehind(done, c, connection, id, k) && c in all && channel in all;
      }
    }
  }

  function TickBoth(route: Route, now: i64): Route {
    TickDirection(TickDirection(route, SenderToReceiver, now).route, ReceiverToSender, now).route
  }

  lemma TickKeepsEnds(route: Route, now: i64)
    ensures SameEnds(route, TickBoth(route, now))
  {
  }

  function Ticked(routes: map<u32, Route>, now: i64): map<u32, Route> {
    map channel | channel in routes :: TickBoth(routes[channel], now)
  }

  lemma TickedRoutesJoin(peers: map<u64, Peer>, routes: map<u32, Route>, now: i64)
    requires Joined(peers, routes) && OneRouteEach(routes)
    ensures Joined(peers, Ticked(routes, now)) && OneRouteEach(Ticked(routes, now))
  {
    forall channel | channel in routes
      ensures SameEnds(routes[channel], Ticked(routes, now)[channel])
    {
      TickKeepsEnds(routes[channel], now);
    }
    RoutesUpdated(peers, routes, Ticked(routes, now));
  }

  /** The hub's tables at one moment. */
  datatype Tables = Tables(production: bool, draining: bool, peers: map<u64, Peer>, groups: Groups,
                           routes: map<u32, Route>, interrupted: map<string, R.Interrupted>)

  /** What the store must say before a paid channel opens. */
  predicate PaidMayOpen(interrupted: map<string, R.Interrupted>, authorizationId: string, lookup: OpenLookup) {
    && !lookup.pendingReceipt && !lookup.otherHeld && lookup.authorization.Ok?
    && (lookup.held ==>
          && authorizationId in interrupted
          && var tail, chain := interrupted[authorizationId], lookup.authorization.value.authorization;
             && tail.forward.prefix.sequence >= chain.forward.sequence
             && tail.backward.prefix.sequence >= chain.backward.sequence)
  }

  ghost predicate MayOpen(hub: Tables, connection: u64, peerId: string, authorizationId: string, lookup: OpenLookup) {
    && connection in hub.peers && !hub.draining
    && |ChannelsOf(hub.routes, connection)| < MAX_CHANNELS_PER_CONNECTION
    && (forall channel :: channel in hub.routes ==> AuthorizationOf(hub.routes[channel]) != Some(authorizationId))
    && Peer(hub.peers[connection].networkId, peerId) in hub.groups
    && (hub.production ==> PaidMayOpen(hub.interrupted, authorizationId, lookup))
  }

  /** The route an OPEN asks for, to the first connection of the named member of the caller's network. */
  function RouteFor(hub: Tables, connection: u64, peerId: string, authorizationId: string, lookup: OpenLookup): Route
    requires MayOpen(hub, connection, peerId, authorizationId, lookup) && NoEmptyGroup(hub.groups)
  {
    var destination := hub.groups[Peer(hub.peers[connection].networkId, peerId)][0];
    if !hub.production then Route(connection, destination, false, None, UnpaidDirection(), UnpaidDirection(), false)
    else if lookup.held then
      R.RecoveryRoute(hub.interrupted[authorizationId], lookup.authorization.value, connection, destination)
    else
      R.FreshRoute(lookup.authorization.value, connection, destination)
  }

  /** The tails kept when a connection goes are guarded if the routes were. */
  lemma KeptGuarded(windows: S.Windows, routes: map<u32, Route>, connection: u64, before: map<string, R.Interrupted>,
                    after: map<string, R.Interrupted>, production: bool)
    requires S.Guarded(windows, routes, before) && KeptAfter(routes, connection, before, after, production)
    ensures S.TailsGuarded(windows, after)
  {
    forall id | id in after
      ensures S.TailGuarded(windows(id), after[id])
    {
      if exists channel :: production && LeavesBehind(routes, channel, connection, id, after[id]) {
        var channel :| production && LeavesBehind(routes, channel, connection, id, after[id]);
        S.TailOfGuarded(windows, routes[channel]);
      }
    }
  }

  lemma ReceivedGuarded(windows: S.Windows, routes: map<u32, Route>, interrupted: map<string, R.Interrupted>,
                        channel: u32, receipt: ReceiverReceipt, now: i64)
    requires S.Guarded(windows, routes, interrupted) && channel in routes
    requires AcceptReceipt(routes[channel], receipt.body.binding.direction, receipt, now).Ok?
    ensures var route := AcceptReceipt(routes[channel], receipt.body.binding.direction, receipt, now).value.route;
            && route.authorization.Some? && S.Guarded(windows, routes[channel := route], interrupted)
            && S.Guarded(windows, routes[channel := route], interrupted - {AuthorizationOf(route).value})
  {
    var route := AcceptReceipt(routes[channel], receipt.body.binding.direction, receipt, now).value.route;
    S.ReceiptGuarded(windows, routes, channel, receipt.body.binding.direction, receipt, now);
    S.ForgottenGuarded(windows, interrupted, {AuthorizationOf(route).value});
  }

  lemma DetachedGuarded(windows: S.Windows, routes: map<u32, Route>, connection: u64,
                        before: map<string, R.Interrupted>, after: map<string, R.Interrupted>, production: bool)
    requires S.Guarded(windows, routes, before) && KeptAfter(routes, connection, before, after, production)
    ensures S.Guarded(windows, routes - ChannelsOf(routes, connection), after)
  {
    S.DroppedGuarded(windows, routes, ChannelsOf(routes, connection));
    KeptGuarded(windows, routes, connection, before, after, production);
  }

  lemma TickedRoutesGuarded(windows: S.Windows, routes: map<u32, Route>, now: i64)
    requires S.RoutesGuarded(windows, routes)
    ensures S.RoutesGuarded(windows, Ticked(routes, now))
  {
    forall channel | channel in routes
      ensures S.RouteGuarded(windows, TickBoth(routes[channel], now))
    {
      S.TickedGuarded(windows, routes[channel], now);
    }
  }

  lemma OpenedGuarded(windows: S.Windows, hub: Tables, connection: u64, peerId: string,
                      authorizationId: string, lookup: OpenLookup)
    requires MayOpen(hub, connection, peerId, authorizationId, lookup) && NoEmptyGroup(hub.groups)
    requires lookup.authorization.Ok? ==> lookup.authorization.value.authorization.authorizationId == authorizationId
    requires S.TailsGuarded(windows, hub.interrupted) && KeepsWindow(windows, lookup)
    ensures S.RouteGuarded(windows, RouteFor(hub, connection, peerId, authorizationId, lookup))
  {
    var destination := hub.groups[Peer(hub.peers[connection].networkId, peerId)][0];
    if !hub.production {
      S.UnpaidGuarded(windows, connection, destination);
    } else if lookup.held {
      S.RecoveredGuarded(windows, lookup.authorization.value, hub.interrupted[authorizationId],
                         connection, destination);
    } else {
      S.FreshGuarded(windows, lookup.authorization.value, connection, destination);
    }
  }

  /** The chain answers with the window the authorization was created with. */
  ghost predicate KeepsWindow(windows: S.Windows, lookup: OpenLookup) {
    lookup.authorization.Ok? ==>
      var authorization := lookup.authorization.value.authorization;
      authorization.windowBytes == windows(authorization.authorizationId)
  }

  class Hub {
    /** Whether the hub has a data directory, and so charges for traffic. */
    const production: bool
    ghost const windows: S.Windows
    var nextConnectionId: u64
    var nextChannelId: u32
    var peers: map<u64, Peer>
    var memberConnections: Groups
    var routes: map<u32, Route>
    var interrupted: map<string, R.Interrupted>
    var draining: bool

    ghost predicate Valid()
      reads this
    {
      && Grouped(peers, memberConnections)
      && (forall id :: id in peers ==> 1 <= id <= nextConnectionId)
      && Joined(peers, routes)
      && OneRouteEach(routes)
    }

    /** Every route is within two windows of its authorization, and every kept tail is fit to recover from. */
    ghost predicate Guarded()
      reads this
    {
      S.Guarded(windows, routes, interrupted)
    }

    function Snapshot(): Tables
      reads this
    {
      Tables(production, draining, peers, memberConnections, routes, interrupted)
    }

    constructor (production: bool, ghost windows: S.Windows)
      ensures Valid() && Guarded() && this.production == production && this.windows == windows
      ensures peers == map[] && routes == map[] && interrupted == map[] && !draining
    {
      this.production := production;
      this.windows := windows;
      nextConnectionId, nextChannelId := 0, 0;
      peers, memberConnections, routes, interrupted := map[], map[], map[], map[];
      draining := false;
    }

    /** A new connection of a member. Connection numbers saturate: the hub stays consistent exactly unless the counter
        is exhausted and its last number is still in use. */
    method Register(member: Peer, maxConnections: u32) returns (result: RelayResult<u64>)
      requires Valid()
      modifies this`nextConnectionId, this`peers, this`memberConnections
      ensures result.Ok? <==> !draining && |Enrolled(old(memberConnections), member)| < maxConnections
      ensures result.Err? ==> Valid() && peers == old(peers) && memberConnections == old(memberConnections)
      ensures result.Ok? ==>
                result.value != 0 && result.value == nextConnectionId && peers == old(peers)[result.value := member]
      ensures result.Ok? ==> (Valid() <==> !(old(nextConnectionId) == U64_MAX && U64_MAX in old(peers)))
      ensures result.Ok? && Valid() ==> result.value !in old(peers)
    {
      var current := Enrolled(memberConnections, member);
      if draining { return Err(Draining); }
      if |current| >= maxConnections { return Err(ConnectionLimit); }
      nextConnectionId := SatAdd64(nextConnectionId, 1);
      var id := nextConnectionId;
      EnrollGroups(peers, memberConnections, member, id);
      if id !in peers { RoutesAfterArrival(peers, routes, id, member); }
      peers := peers[id := member];
      memberConnections := memberConnections[member := current + [id]];
      return Ok(id);
    }

    /** Takes down the routes of a connection, keeping each paid route that is not fully receipted for recovery. */
    method CloseRoutesOf(connection: u64)
      requires OneRouteEach(routes)
      modifies this`routes, this`interrupted
      ensures routes == old(routes) - ChannelsOf(old(routes), connection)
      ensures KeptAfter(old(routes), connection, old(interrupted), interrupted, production)
    {
      var was := routes;
      var closed := ChannelsOf(routes, connection);
      while closed != {}
        invariant closed <= ChannelsOf(was, connection)
        invariant routes == was - (ChannelsOf(was, connection) - closed)
        invariant KeptAfter(was - closed, connection, old(interrupted), interrupted, production)
        decreases closed
      {
        var channel :| channel in closed;
        var route := was[channel];
        assert (was - closed)[channel := route] == was - (closed - {channel});
        KeepOne(was - closed, channel, route, connection, old(interrupted), interrupted, production);
        closed := closed - {channel};
        routes := routes - {channel};
        if production && route.authorization.Some? && !route.FullyFinal() {
          var id := route.authorization.value.authorization.authorizationId;
          interrupted := interrupted[id := R.Interrupted(ResetForRecovery(route.forward),
                                                         ResetForRecovery(route.backward))];
        }
      }
      assert was - closed == was;
    }

    /** Strikes a registered connection from the tables, and its routes with it. */
    method Detach(connection: u64)
      requires Valid() && connection in peers
      modifies this`peers, this`memberConnections, this`routes, this`interrupted
      ensures Valid() && peers == old(peers) - {connection}
      ensures routes == old(routes) - ChannelsOf(old(routes), connection)
      ensures KeptAfter(old(routes), connection, old(interrupted), interrupted, production)
    {
      var member := peers[connection];
      DismissGroups(peers, memberConnections, connection);
      RoutesAfterDisconnect(peers, routes, connection);
      peers := peers - {connection};
      memberConnections := Dismissed(memberConnections, member, connection);
      CloseRoutesOf(connection);
    }

    /** A connection is gone, and its routes with it. */
    method Unregister(connection: u64)
      requires Valid()
      modifies this`peers, this`memberConnections, this`routes, this`interrupted
      ensures Valid() && peers == old(peers) - {connection}
      ensures old(Guarded()) ==> Guarded()
      ensures connection in old(peers) ==>
                && routes == old(routes) - ChannelsOf(old(routes), connection)
                && KeptAfter(old(routes), connection, old(interrupted), interrupted, production)
      ensures connection !in old(peers) ==> routes == old(routes) && interrupted == old(interrupted)
    {
      if connection !in peers {
        assert peers == peers - {connection};
        return;
      }
      Detach(connection);
      if old(Guarded()) {
        DetachedGuarded(windows, old(routes), connection, old(interrupted), interrupted, production);
      }
    }

    method BeginShutdown() returns (open: nat)
      requires Valid()
      modifies this`draining
      ensures Valid() && draining
      ensures open == |set channel | channel in routes && !routes[channel].recovery|
    {
      draining := true;
      open := |set channel | channel in routes && !routes[channel].recovery|;
    }

    /** The nearest unused channel number after the last one given out. */
    method NextChannel() returns (channel: u32)
      requires |routes| < U32_MAX
      modifies this`nextChannelId
      ensures channel == nextChannelId && channel != 0 && channel !in routes
      ensures forall other: u32 :: other != 0 && Before(old(nextChannelId), other, channel) ==> other in routes
    {
      FreeChannelExists(routes);
      ghost var free: u32 :| free != 0 && free !in routes;
      nextChannelId := Bump(nextChannelId);
      while nextChannelId in routes
        invariant nextChannelId != 0
        invariant Distance(old(nextChannelId), nextChannelId) <= Distance(old(nextChannelId), free)
        invariant forall other: u32 ::
                    other != 0 && Before(old(nextChannelId), other, nextChannelId) ==> other in routes
        decreases Distance(old(nextChannelId), free) - Distance(old(nextChannelId), nextChannelId)
      {
        nextChannelId := Bump(nextChannelId);
      }
      channel := nextChannelId;
    }

    /** No receipt of the authorization awaits settlement, and no other session stands in the way. */
    method CheckHolds(authorizationId: string, lookup: OpenLookup) returns (refusal: Option<RelayError>)
      ensures refusal.None?
              <==> !production || (!lookup.pendingReceipt && !lookup.otherHeld
                                   && (lookup.held ==> authorizationId in interrupted))
    {
      refusal := None;
      if production {
        if lookup.pendingReceipt { return Some(ReceiptUnsettled); }
        if lookup.held && authorizationId !in interrupted { return Some(RecoveryStateLost); }
        if lookup.otherHeld { return Some(RecoveryRequired); }
      }
    }

    /** The directions a paid channel starts from: the kept tail if the session is held, else the settled
        chain state. */
    method PaidRoute(route: Route, authorizationId: string, lookup: OpenLookup) returns (result: RelayResult<Route>)
      requires lookup.held ==> authorizationId in interrupted
      requires !route.recovery && !route.accepted
      ensures result.Ok? <==> lookup.authorization.Ok?
                              && (lookup.held ==> R.CanRecover(R.Session(Some(interrupted[authorizationId]), None),
                                                               lookup.authorization.value))
      ensures result.Ok? && lookup.held ==>
                result.value == R.RecoveryRoute(interrupted[authorizationId], lookup.authorization.value,
                                                route.source, route.destination)
      ensures result.Ok? && !lookup.held ==>
                result.value == R.FreshRoute(lookup.authorization.value, route.source, route.destination)
    {
      if lookup.authorization.Err? { return Err(lookup.authorization.error); }
      var view := lookup.authorization.value;
      var paid := route.(authorization := Some(view));
      if lookup.held {
        var kept := interrupted[authorizationId];
        if kept.forward.prefix.sequence < view.authorization.forward.sequence
           || kept.backward.prefix.sequence < view.authorization.backward.sequence
        {
          return Err(RecoveryStateOld);
        }
        return Ok(paid.(forward := ResetForRecovery(kept.forward),
                        backward := ResetForRecovery(kept.backward), recovery := true));
      }
      return Ok(paid.(forward := OpenDirection(view, SenderToReceiver),
                      backward := OpenDirection(view, ReceiverToSender)));
    }

    method PrepareRoute(connection: u64, peerId: string, authorizationId: string, lookup: OpenLookup)
        returns (result: RelayResult<Route>)
      requires NoEmptyGroup(memberConnections)
      ensures result.Ok? <==> MayOpen(Snapshot(), connection, peerId, authorizationId, lookup)
      ensures result.Ok? ==> result.value == RouteFor(Snapshot(), connection, peerId, authorizationId, lookup)
    {
      if connection !in peers { return Err(UnknownChannel); }
      if draining { return Err(Draining); }
      if |ChannelsOf(routes, connection)| >= MAX_CHANNELS_PER_CONNECTION { return Err(ConnectionLimit); }
      if exists channel :: channel in routes && AuthorizationOf(routes[channel]) == Some(authorizationId) {
        return Err(AuthorizationActive);
      }
      var refusal := CheckHolds(authorizationId, lookup);
      var member := Peer(peers[connection].networkId, peerId);
      if refusal.Some? || member !in memberConnections {
        return Err(if refusal.Some? then refusal.value else MemberOffline);
      }
      var route := Route(connection, memberConnections[member][0], false, None, UnpaidDirection(),
                         UnpaidDirection(), false);
      if !production { return Ok(route); }
      result := PaidRoute(route, authorizationId, lookup);
    }

    /** Gives a route a fresh channel. */
    method Place(route: Route) returns (channel: u32)
      requires Valid() && |routes| < U32_MAX
      requires route.source in peers && route.destination in peers
      requires peers[route.source].networkId == peers[route.destination].networkId
      requires AuthorizationOf(route).Some? ==> forall c :: c in routes ==>
                 AuthorizationOf(routes[c]) != AuthorizationOf(route)
      modifies this`routes, this`nextChannelId
      ensures Valid() && channel != 0 && channel !in old(routes) && routes == old(routes)[channel := route]
    {
      channel := NextChannel();
      RouteAdded(peers, routes, channel, route);
      routes := routes[channel := route];
    }

    method Withdraw(channel: u32)
      requires Valid()
      modifies this`routes
      ensures Valid() && routes == old(routes) - {channel}
    {
      RouteDropped(peers, routes, channel);
      routes := routes - {channel};
    }

    /** A placed route is withdrawn if the INCOMING notice cannot be delivered. */
    method Install(route: Route, delivered: bool) returns (result: RelayResult<u32>)
      requires Valid() && |routes| < U32_MAX
      requires route.source in peers && route.destination in peers
      requires peers[route.source].networkId == peers[route.destination].networkId
      requires AuthorizationOf(route).Some? ==> forall c :: c in routes ==>
                 AuthorizationOf(routes[c]) != AuthorizationOf(route)
      modifies this`routes, this`nextChannelId
      ensures Valid() && (result.Ok? <==> delivered)
      ensures result.Ok? ==>
                result.value != 0 && result.value !in old(routes) && routes == old(routes)[result.value := route]
      ensures result.Err? ==> routes == old(routes)
    {
      var channel := Place(route);
      if !delivered {
        Withdraw(channel);
        return Err(QueueFull);
      }
      return Ok(channel);
    }

    method InstallGuarded(route: Route, delivered: bool) returns (result: RelayResult<u32>)
      requires Valid() && |routes| < U32_MAX
      requires route.source in peers && route.destination in peers
      requires peers[route.source].networkId == peers[route.destination].networkId
      requires AuthorizationOf(route).Some? ==> forall c :: c in routes ==>
                 AuthorizationOf(routes[c]) != AuthorizationOf(route)
      modifies this`routes, this`nextChannelId
      ensures Valid() && (result.Ok? <==> delivered)
      ensures result.Ok? ==>
                result.value != 0 && result.value !in old(routes) && routes == old(routes)[result.value := route]
      ensures result.Err? ==> routes == old(routes)
      ensures old(Guarded()) && S.RouteGuarded(windows, route) ==> Guarded()
    {
      result := Install(route, delivered);
      if old(Guarded()) && S.RouteGuarded(windows, route) && result.Ok? {
        S.PlacedGuarded(windows, old(routes), result.value, route);
      }
    }

    /** OPEN. */
    method Open(connection: u64, peerId: string, authorizationId: string, lookup: OpenLookup, delivered: bool)
      returns (result: RelayResult<u32>)
      requires Valid() && |routes| < U32_MAX
      requires lookup.authorization.Ok? ==> lookup.authorization.value.authorization.authorizationId == authorizationId
      modifies this`routes, this`nextChannelId
      ensures Valid() && (old(Guarded()) && KeepsWindow(windows, lookup) ==> Guarded())
      ensures result.Ok? <==> MayOpen(old(Snapshot()), connection, peerId, authorizationId, lookup) && delivered
      ensures result.Err? ==> routes == old(routes)
      ensures result.Ok? ==>
                && result.value != 0 && result.value !in old(routes)
                && routes == old(routes)[result.value := RouteFor(old(Snapshot()), connection, peerId,
                                                                  authorizationId, lookup)]
    {
      var prepared := PrepareRoute(connection, peerId, authorizationId, lookup);
      if prepared.Err? { return Err(prepared.error); }
      assert Lists(memberConnections, Peer(peers[connection].networkId, peerId), prepared.value.destination);
      if Guarded() && KeepsWindow(windows, lookup) {
        OpenedGuarded(windows, Snapshot(), connection, peerId, authorizationId, lookup);
      }
      result := InstallGuarded(prepared.value, delivered);
    }

    /** Puts back a route whose ends and authorization have not changed. */
    method PutBack(channel: u32, route: Route)
      requires Valid() && channel in routes && SameEnds(routes[channel], route)
      modifies this`routes
      ensures Valid() && routes == old(routes)[channel := route]
    {
      RouteUpdated(peers, routes, channel, route);
      routes := routes[channel := route];
    }

    /** ACCEPT from the destination; a recovery channel starts its final exchanges at once. */
    method Accept(connection: u64, channel: u32, now: i64) returns (ok: bool)
      requires Valid()
      modifies this`routes
      ensures Valid() && (old(Guarded()) ==> Guarded())
      ensures ok <==> connection in peers && channel in old(routes)
                      && old(routes)[channel].destination == connection && !old(routes)[channel].accepted
      ensures routes == if ok then old(routes)[channel := AcceptChannel(old(routes)[channel], now)] else old(routes)
    {
      if connection !in peers || channel !in routes { return false; }
      var route := routes[channel];
      if route.destination != connection || route.accepted { return false; }
      if Guarded() {
        S.AcceptedGuarded(windows, routes, channel, now);
      }
      route := route.(accepted := true);
      if route.recovery && route.authorization.Some? {
        var view := route.authorization.value;
        if !route.forward.finalReceiptPersisted {
          route := route.(forward := Schedule(view, SenderToReceiver, route.forward, true, now));
        }
        if !route.backward.finalReceiptPersisted {
          route := route.(backward := Schedule(view, ReceiverToSender, route.backward, true, now));
        }
      }
      PutBack(channel, route);
      return true;
    }

    /** REJECT from the destination drops the pending channel. */
    method Reject(connection: u64, channel: u32) returns (ok: bool)
      requires Valid()
      modifies this`routes
      ensures Valid() && (old(Guarded()) ==> Guarded())
      ensures ok <==> connection in peers && channel in old(routes)
                      && old(routes)[channel].destination == connection && !old(routes)[channel].accepted
      ensures routes == if ok then old(routes) - {channel} else old(routes)
    {
      if connection !in peers || channel !in routes { return false; }
      if routes[channel].destination != connection || routes[channel].accepted { return false; }
      Withdraw(channel);
      return true;
    }

    /** DATA from one end: refused without effect, or counted and perhaps answered with a CheckpointRequest. */
    method Data(connection: u64, channel: u32, sequence: u64, payload: seq<byte>, now: i64)
        returns (result: RelayResult<Option<CheckpointRequest>>)
      requires Valid() && |payload| <= MAX_FRAME_PAYLOAD
      modifies this`routes
      ensures Valid() && (old(Guarded()) ==> Guarded())
      ensures result.Ok? <==> connection in peers && channel in old(routes)
                              && Ends(old(routes)[channel], connection).Some?
                              && AcceptData(old(routes)[channel], Ends(old(routes)[channel], connection).value,
                                            sequence, payload, now).Ok?
      ensures result.Err? ==> routes == old(routes)
      ensures result.Ok? ==>
                var accepted := AcceptData(old(routes)[channel], Ends(old(routes)[channel], connection).value,
                                           sequence, payload, now).value;
                routes == old(routes)[channel := accepted.route] && result.value == accepted.request
    {
      if connection !in peers || channel !in routes { return Err(UnknownChannel); }
      var route := routes[channel];
      var side := Ends(route, connection);
      if side.None? { return Err(NotOwner); }
      var accepted := CountData(route, side.value, sequence, payload, now);
      if accepted.Err? { return Err(accepted.error); }
      if Guarded() {
        S.DataGuarded(windows, routes, channel, side.value, sequence, payload, now);
      }
      PutBack(channel, accepted.value.route);
      return Ok(accepted.value.request);
    }

    method TakeCloseIntent(connection: u64, channel: u32, intent: RelayModel.CloseIntent, now: i64)
        returns (result: RelayResult<Option<CheckpointRequest>>)
      requires Valid()
      modifies this`routes
      ensures Valid()
      ensures result.Ok? <==> connection in peers && channel in old(routes)
                              && Ends(old(routes)[channel], connection).Some?
                              && AcceptCloseIntent(old(routes)[channel],
                                                   Ends(old(routes)[channel], connection).value, intent,
                                                   peers[connection].memberId, now).Ok?
      ensures result.Err? ==> routes == old(routes)
      ensures result.Ok? ==>
                var accepted := AcceptCloseIntent(old(routes)[channel],
                                                  Ends(old(routes)[channel], connection).value, intent,
                                                  peers[connection].memberId, now).value;
                routes == old(routes)[channel := accepted.route] && result.value == accepted.request
    {
      if connection !in peers || channel !in routes { return Err(UnknownChannel); }
      var side := Ends(routes[channel], connection);
      if side.None? { return Err(NotOwner); }
      var accepted := AcceptCloseIntent(routes[channel], side.value, intent, peers[connection].memberId, now);
      if accepted.Err? { return Err(accepted.error); }
      PutBack(channel, accepted.value.route);
      return Ok(accepted.value.request);
    }

    method CloseIntent(connection: u64, channel: u32, intent: RelayModel.CloseIntent, now: i64)
        returns (result: RelayResult<Option<CheckpointRequest>>)
      requires Valid()
      modifies this`routes
      ensures Valid() && (old(Guarded()) ==> Guarded())
      ensures result.Ok? <==> connection in peers && channel in old(routes)
                              && Ends(old(routes)[channel], connection).Some?
                              && AcceptCloseIntent(old(routes)[channel],
                                                   Ends(old(routes)[channel], connection).value, intent,
                                                   peers[connection].memberId, now).Ok?
      ensures result.Err? ==> routes == old(routes)
      ensures result.Ok? ==>
                var accepted := AcceptCloseIntent(old(routes)[channel],
                                                  Ends(old(routes)[channel], connection).value, intent,
                                                  peers[connection].memberId, now).value;
                routes == old(routes)[channel := accepted.route] && result.value == accepted.request
    {
      ghost var was := routes;
      result := TakeCloseIntent(connection, channel, intent, now);
      if old(Guarded()) && result.Ok? {
        S.CloseIntentGuarded(windows, was, channel, Ends(was[channel], connection).value, intent,
                             peers[connection].memberId, now);
      }
    }

    method Checkpoint(connection: u64, channel: u32, checkpoint: SenderCheckpoint, finalFlag: bool, now: i64)
        returns (ok: bool)
      requires Valid()
      modifies this`routes
      ensures Valid() && (old(Guarded()) ==> Guarded())
      ensures ok <==> connection in peers && channel in old(routes) && Ends(old(routes)[channel], connection).Some?
                      && AcceptCheckpoint(old(routes)[channel], Ends(old(routes)[channel], connection).value,
                                          checkpoint, finalFlag, now).Ok?
      ensures !ok ==> routes == old(routes)
      ensures ok ==> routes == old(routes)[channel :=
                       AcceptCheckpoint(old(routes)[channel], Ends(old(routes)[channel], connection).value, checkpoint,
                                        finalFlag, now).value]
    {
      if connection !in peers || channel !in routes { return false; }
      var side := Ends(routes[channel], connection);
      if side.None? { return false; }
      var accepted := AcceptCheckpoint(routes[channel], side.value, checkpoint, finalFlag, now);
      if accepted.Err? { return false; }
      if Guarded() {
        S.CheckpointGuarded(windows, routes, channel, side.value, checkpoint, finalFlag, now);
      }
      PutBack(channel, accepted.value);
      return true;
    }

    method TakeReceipt(connection: u64, channel: u32, receipt: ReceiverReceipt, now: i64)
        returns (result: RelayResult<Option<CheckpointRequest>>)
      requires Valid()
      modifies this`routes, this`interrupted
      ensures Valid()
      ensures result.Ok? <==> connection in peers && channel in old(routes)
                              && Receives(old(routes)[channel], connection, receipt)
                              && AcceptReceipt(old(routes)[channel], receipt.body.binding.direction, receipt, now).Ok?
      ensures result.Err? ==> routes == old(routes) && interrupted == old(interrupted)
      ensures result.Ok? ==>
                var accepted := AcceptReceipt(old(routes)[channel], receipt.body.binding.direction, receipt, now).value;
                && routes == old(routes)[channel := accepted.route] && result.value == accepted.request
                && interrupted == if accepted.route.FullyFinal()
                                  then old(interrupted) - {AuthorizationOf(accepted.route).value} else old(interrupted)
    {
      if connection !in peers || channel !in routes { return Err(UnknownChannel); }
      if !Receives(routes[channel], connection, receipt) { return Err(WrongMember); }
      var accepted := AcceptReceipt(routes[channel], receipt.body.binding.direction, receipt, now);
      if accepted.Err? { return Err(accepted.error); }
      PutBack(channel, accepted.value.route);
      if accepted.value.route.FullyFinal() {
        interrupted := interrupted - {accepted.value.route.authorization.value.authorization.authorizationId};
      }
      return Ok(accepted.value.request);
    }

    /** A receipt comes from the receiving end of its direction; the last final one forgets the kept tail. */
    method Receipt(connection: u64, channel: u32, receipt: ReceiverReceipt, now: i64)
        returns (result: RelayResult<Option<CheckpointRequest>>)
      requires Valid()
      modifies this`routes, this`interrupted
      ensures Valid() && (old(Guarded()) ==> Guarded())
      ensures result.Ok? <==> connection in peers && channel in old(routes)
                              && Receives(old(routes)[channel], connection, receipt)
                              && AcceptReceipt(old(routes)[channel], receipt.body.binding.direction, receipt, now).Ok?
      ensures result.Err? ==> routes == old(routes) && interrupted == old(interrupted)
      ensures result.Ok? ==>
                var accepted := AcceptReceipt(old(routes)[channel], receipt.body.binding.direction, receipt, now).value;
                && routes == old(routes)[channel := accepted.route] && result.value == accepted.request
                && interrupted == if accepted.route.FullyFinal()
                                  then old(interrupted) - {AuthorizationOf(accepted.route).value} else old(interrupted)
    {
      ghost var was, kept := routes, interrupted;
      result := TakeReceipt(connection, channel, receipt, now);
      if old(Guarded()) && result.Ok? {
        ReceivedGuarded(windows, was, kept, channel, receipt, now);
      }
    }

    /** CLOSE removes the route first and only then asks whether the connection owned it. */
    method Close(connection: u64, channel: u32) returns (ok: bool)
      requires Valid()
      modifies this`routes, this`interrupted
      ensures Valid() && (old(Guarded()) ==> Guarded())
      ensures ok <==> connection in peers && channel in old(routes) && Ends(old(routes)[channel], connection).Some?
      ensures routes == if connection in peers then old(routes) - {channel} else old(routes)
      ensures interrupted == if ok && production && old(routes)[channel].FullyFinal()
                                && old(routes)[channel].authorization.Some?
                             then old(interrupted) - {AuthorizationOf(old(routes)[channel]).value} else old(interrupted)
    {
      if connection !in peers { return false; }
      if channel !in routes {
        assert routes == routes - {channel};
        return false;
      }
      var route := routes[channel];
      Withdraw(channel);
      if Ends(route, connection).None? { return false; }
      if route.FullyFinal() && production && route.authorization.Some? {
        interrupted := interrupted - {route.authorization.value.authorization.authorizationId};
      }
      return true;
    }

    /** The payment-window timer visits every route once. */
    method Tick(now: i64)
      requires Valid()
      modifies this`routes
      ensures Valid() && routes == Ticked(old(routes), now) && (old(Guarded()) ==> Guarded())
    {
      TickedRoutesJoin(peers, routes, now);
      if Guarded() {
        TickedRoutesGuarded(windows, routes, now);
      }
      TickAll(now);
    }

    method TickAll(now: i64)
      modifies this`routes
      ensures routes == Ticked(old(routes), now)
    {
      var due := routes.Keys;
      ghost var was := routes;
      ghost var ticked := Ticked(was, now);
      while due != {}
        invariant due <= was.Keys && routes.Keys == was.Keys
        invariant forall channel :: channel in due ==> routes[channel] == was[channel]
        invariant forall channel :: channel in was && channel !in due ==> routes[channel] == ticked[channel]
        decreases due
      {
        var channel :| channel in due;
        routes := routes[channel := TickBoth(routes[channel], now)];
        due := due - {channel};
      }
    }
  }
}
