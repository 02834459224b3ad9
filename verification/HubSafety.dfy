/** What keeps a whole hub safe: every route within two windows of its own
    authorization, and every kept tail fit to recover from. */
module HubSafety {
  import opened MachineInts
  import opened RelayModel
  import opened NodeRelay
  import opened Exposure
  import opened Recovery

  /** The window each authorization was created with; the chain never changes it. */
  type Windows = string -> u64

  ghost predicate RouteGuarded(windows: Windows, route: Route) {
    && Safe(route)
    && (route.authorization.Some? ==>
          var authorization := route.authorization.value.authorization;
          authorization.windowBytes == windows(authorization.authorizationId))
  }

  /** A tail with no exchange open and no more than two windows without a receipt. */
  ghost predicate TailGuarded(window: u64, tail: Interrupted) {
    forall direction: Direction ::
      && SideSafe(tail.Side(direction), window)
      && tail.Side(direction).checkpointRequest.None? && tail.Side(direction).pendingCheckpoint.None?
  }

  ghost predicate RoutesGuarded(windows: Windows, routes: map<u32, Route>) {
    forall channel :: channel in routes ==> RouteGuarded(windows, routes[channel])
  }

  ghost predicate TailsGuarded(windows: Windows, interrupted: map<string, Interrupted>) {
    forall id :: id in interrupted ==> TailGuarded(windows(id), interrupted[id])
  }

  ghost predicate Guarded(windows: Windows, routes: map<u32, Route>, interrupted: map<string, Interrupted>) {
    RoutesGuarded(windows, routes) && TailsGuarded(windows, interrupted)
  }

  /** Whatever happens on one route, the hub stays guarded. */
  lemma StepGuarded(windows: Windows, routes: map<u32, Route>, channel: u32, event: RouteEvent)
    requires RoutesGuarded(windows, routes) && channel in routes && event.Legal()
    ensures RoutesGuarded(windows, routes[channel := Step(routes[channel], event)])
  {
    StepSafe(routes[channel], event);
  }

  lemma DataGuarded(windows: Windows, routes: map<u32, Route>, channel: u32, direction: Direction, sequence: u64,
                    payload: seq<byte>, now: i64)
    requires RoutesGuarded(windows, routes) && channel in routes && |payload| <= MAX_FRAME_PAYLOAD
    requires AcceptData(routes[channel], direction, sequence, payload, now).Ok?
    ensures RoutesGuarded(windows,
                          routes[channel := AcceptData(routes[channel], direction, sequence, payload, now).value.route])
  {
    StepGuarded(windows, routes, channel, DataArrives(direction, sequence, payload, now));
  }

  lemma CloseIntentGuarded(windows: Windows, routes: map<u32, Route>, channel: u32,
                           direction: Direction, intent: CloseIntent,
                           member: string, now: i64)
    requires RoutesGuarded(windows, routes) && channel in routes
    requires AcceptCloseIntent(routes[channel], direction, intent, member, now).Ok?
    ensures RoutesGuarded(windows,
                          routes[channel := AcceptCloseIntent(routes[channel], direction, intent,
                                                              member, now).value.route])
  {
    StepGuarded(windows, routes, channel, CloseIntentArrives(direction, intent, member, now));
  }

  lemma CheckpointGuarded(windows: Windows, routes: map<u32, Route>, channel: u32, direction: Direction,
                          checkpoint: SenderCheckpoint, finalFlag: bool, now: i64)
    requires RoutesGuarded(windows, routes) && channel in routes
    requires AcceptCheckpoint(routes[channel], direction, checkpoint, finalFlag, now).Ok?
    ensures RoutesGuarded(windows,
                          routes[channel := AcceptCheckpoint(routes[channel], direction, checkpoint,
                                                             finalFlag, now).value])
  {
    StepGuarded(windows, routes, channel, CheckpointArrives(direction, checkpoint, finalFlag, now));
  }

  lemma ReceiptGuarded(windows: Windows, routes: map<u32, Route>, channel: u32, direction: Direction,
                       receipt: ReceiverReceipt,
                       now: i64)
    requires RoutesGuarded(windows, routes) && channel in routes
    requires AcceptReceipt(routes[channel], direction, receipt, now).Ok?
    ensures RoutesGuarded(windows,
                          routes[channel := AcceptReceipt(routes[channel], direction, receipt, now).value.route])
  {
    StepGuarded(windows, routes, channel, ReceiptArrives(direction, receipt, now));
  }

  lemma AcceptedGuarded(windows: Windows, routes: map<u32, Route>, channel: u32, now: i64)
    requires RoutesGuarded(windows, routes) && channel in routes
    ensures RoutesGuarded(windows, routes[channel := AcceptChannel(routes[channel], now)])
  {
    StepGuarded(windows, routes, channel, ChannelAccepted(now));
  }

  lemma PlacedGuarded(windows: Windows, routes: map<u32, Route>, channel: u32, route: Route)
    requires RoutesGuarded(windows, routes) && RouteGuarded(windows, route)
    ensures RoutesGuarded(windows, routes[channel := route])
  {
  }

  lemma DroppedGuarded(windows: Windows, routes: map<u32, Route>, gone: set<u32>)
    requires RoutesGuarded(windows, routes)
    ensures RoutesGuarded(windows, routes - gone)
  {
  }

  lemma ForgottenGuarded(windows: Windows, interrupted: map<string, Interrupted>, gone: set<string>)
    requires TailsGuarded(windows, interrupted)
    ensures TailsGuarded(windows, interrupted - gone)
  {
  }

  lemma TickedGuarded(windows: Windows, route: Route, now: i64)
    requires RouteGuarded(windows, route)
    ensures var once := TickDirection(route, SenderToReceiver, now).route;
            RouteGuarded(windows, TickDirection(once, ReceiverToSender, now).route)
  {
    StepSafe(route, TimerTicks(SenderToReceiver, now));
    StepSafe(TickDirection(route, SenderToReceiver, now).route, TimerTicks(ReceiverToSender, now));
  }

  /** A route that loses a connection leaves a guarded tail. */
  lemma TailOfGuarded(windows: Windows, route: Route)
    requires RouteGuarded(windows, route) && route.authorization.Some?
    ensures TailGuarded(windows(route.authorization.value.authorization.authorizationId),
                        Interrupted(ResetForRecovery(route.forward), ResetForRecovery(route.backward)))
  {
    var tail := Interrupted(ResetForRecovery(route.forward), ResetForRecovery(route.backward));
    forall direction: Direction
      ensures SideSafe(tail.Side(direction), route.authorization.value.authorization.windowBytes)
    {
      assert SideSafe(route.Side(direction), route.authorization.value.authorization.windowBytes);
    }
  }

  lemma FreshGuarded(windows: Windows, view: View, source: u64, destination: u64)
    requires view.authorization.windowBytes == windows(view.authorization.authorizationId)
    ensures RouteGuarded(windows, FreshRoute(view, source, destination))
  {
    OpenedRouteSafe(FreshRoute(view, source, destination), view);
  }

  /** A guarded tail recovers to a guarded route. */
  lemma RecoveredGuarded(windows: Windows, view: View, tail: Interrupted, source: u64, destination: u64)
    requires view.authorization.windowBytes == windows(view.authorization.authorizationId)
    requires TailGuarded(windows(view.authorization.authorizationId), tail)
    ensures RouteGuarded(windows, RecoveryRoute(tail, view, source, destination))
  {
    assert SideSafe(tail.Side(SenderToReceiver), view.authorization.windowBytes);
    assert SideSafe(tail.Side(ReceiverToSender), view.authorization.windowBytes);
  }

  lemma UnpaidGuarded(windows: Windows, source: u64, destination: u64)
    ensures RouteGuarded(windows, Route(source, destination, false, None, UnpaidDirection(), UnpaidDirection(), false))
  {
  }
}
