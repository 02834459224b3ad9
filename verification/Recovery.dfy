/** An interrupted session: what the Node keeps in memory across a disconnect,
    and what any number of recovery channels can do with it. */
module Recovery {
  import opened MachineInts
  import opened RelayModel
  import opened NodeRelay
  import opened Exposure

  datatype Interrupted = Interrupted(forward: NodeDirection, backward: NodeDirection) {
    function Side(direction: Direction): NodeDirection {
      if direction == SenderToReceiver then forward else backward
    }

    /** The bytes an abandon would give up. */
    function UnsignedBytes(): u64 {
      SatAdd64(SatSub64(forward.prefix.bytes, forward.receiptedBytes),
               SatSub64(backward.prefix.bytes, backward.receiptedBytes))
    }
  }

  /** One authorization as the hub sees it: the tail it kept, and the channel serving it, if any. */
  datatype Session = Session(kept: Option<Interrupted>, live: Option<Route>)

  datatype SessionEvent =
    | Begin(view: View, source: u64, destination: u64) // a first channel, from the settled chain state
    | Disconnect
    | OpenRecovery(view: View, source: u64, destination: u64)
    | Reject
    | Close
    | Drop // a CLOSE from a connection that does not own the channel
    | Frame(event: RouteEvent)
  {
    predicate Legal() {
      Frame? ==> event.Legal()
    }
  }

  function OnDisconnect(session: Session): Session
    requires session.live.Some?
  {
    var route := session.live.value;
    if route.FullyFinal() then session.(live := None)
    else Session(Some(Interrupted(ResetForRecovery(route.forward), ResetForRecovery(route.backward))), None)
  }

  function RecoveryRoute(kept: Interrupted, view: View, source: u64, destination: u64): Route {
    Route(source, destination, false, Some(view), ResetForRecovery(kept.forward), ResetForRecovery(kept.backward), true)
  }

  function FreshRoute(view: View, source: u64, destination: u64): Route {
    Route(source, destination, false, Some(view), OpenDirection(view, SenderToReceiver),
          OpenDirection(view, ReceiverToSender), false)
  }

  predicate CanRecover(session: Session, view: View) {
    && session.live.None?
    && session.kept.Some?
    && session.kept.value.forward.prefix.sequence >= view.authorization.forward.sequence
    && session.kept.value.backward.prefix.sequence >= view.authorization.backward.sequence
  }

  predicate ReceiptAccepted(route: Route, event: RouteEvent) {
    event.ReceiptArrives? && AcceptReceipt(route, event.direction, event.receipt, event.now).Ok?
  }

  function SessionStep(session: Session, event: SessionEvent): Session
    requires event.Legal()
  {
    match event
    case Begin(view, source, destination) =>
      if session == Session(None, None) then session.(live := Some(FreshRoute(view, source, destination))) else session
    case Disconnect => if session.live.Some? then OnDisconnect(session) else session
    case OpenRecovery(view, source, destination) =>
      if CanRecover(session, view)
      then session.(live := Some(RecoveryRoute(session.kept.value, view, source, destination)))
      else session
    case Reject =>
      if session.live.Some? && !session.live.value.accepted then session.(live := None) else session
    case Close =>
      if session.live.Some? then
        Session(if session.live.value.FullyFinal() then None else session.kept, None)
      else session
    case Drop => session.(live := None)
    case Frame(event) =>
      if session.live.Some? then
        var route := Step(session.live.value, event);
        Session(if ReceiptAccepted(session.live.value, event) && route.FullyFinal() then None
                else session.kept, Some(route))
      else session
  }

  predicate AllEventsLegal(events: seq<SessionEvent>) {
    forall i :: 0 <= i < |events| ==> events[i].Legal()
  }

  predicate NeverBegins(events: seq<SessionEvent>) {
    forall i :: 0 <= i < |events| ==> !events[i].Begin?
  }

  function RunSession(session: Session, events: seq<SessionEvent>): Session
    requires AllEventsLegal(events)
  {
    if events == [] then session else SessionStep(RunSession(session, events[..|events| - 1]), events[|events| - 1])
  }

  /** The same carried prefix with at least as much of it receipted, and nothing beyond it asked for. */
  ghost predicate Continues(first: NodeDirection, state: NodeDirection) {
    && state.prefix == first.prefix
    && first.receiptedBytes <= state.receiptedBytes <= state.prefix.bytes
    && FinalOnly(state)
  }

  ghost predicate KeepsPrefix(first: Interrupted, session: Session) {
    && (session.kept.Some? ==>
          Continues(first.forward, session.kept.value.forward)
            && Continues(first.backward, session.kept.value.backward))
    && (session.live.Some? ==>
          && session.live.value.recovery
          && Continues(first.forward, session.live.value.forward)
          && Continues(first.backward, session.live.value.backward))
  }

  lemma FrameContinues(first: NodeDirection, route: Route, event: RouteEvent, direction: Direction)
    requires route.recovery && event.Legal() && Continues(first, route.Side(direction))
    ensures Step(route, event).recovery && Continues(first, Step(route, event).Side(direction))
  {
    match event
    case DataArrives(_, _, _, _) =>
    case TimerTicks(_, _) =>
    case CloseIntentArrives(_, _, _, _) =>
    case CheckpointArrives(_, _, _, _) =>
    case ReceiptArrives(_, _, _) =>
    case ChannelAccepted(_) =>
  }

  lemma SessionStepKeepsPrefix(first: Interrupted, session: Session, event: SessionEvent)
    requires KeepsPrefix(first, session) && event.Legal() && !event.Begin?
    ensures KeepsPrefix(first, SessionStep(session, event))
  {
    if event.Frame? && session.live.Some? {
      FrameContinues(first.forward, session.live.value, event.event, SenderToReceiver);
      FrameContinues(first.backward, session.live.value, event.event, ReceiverToSender);
    }
  }

  /** Recovery keeps the prefix: after a first disconnect, over any further disconnects, recovery channels,
      answers, closes and frames, as long as the authorization is not begun anew, every direction stays at the
      sequence number, byte count and transcript of that disconnect, every request made on a recovery channel is
      final and for exactly that prefix, and the bytes an abandon would give up never exceed those of the first
      disconnect. */
  lemma {:induction false} RecoveryKeepsThePrefix(route: Route, events: seq<SessionEvent>)
    requires Safe(route) && route.authorization.Some? && !route.FullyFinal()
    requires AllEventsLegal(events) && NeverBegins(events)
    ensures var first := OnDisconnect(Session(None, Some(route))).kept.value;
            var session := RunSession(OnDisconnect(Session(None, Some(route))), events);
            && KeepsPrefix(first, session)
            && first.forward.prefix == route.forward.prefix && first.backward.prefix == route.backward.prefix
            && (session.kept.Some? ==> session.kept.value.UnsignedBytes() <= first.UnsignedBytes())
  {
    var start := OnDisconnect(Session(None, Some(route)));
    if events != [] {
      var last := |events| - 1;
      RecoveryKeepsThePrefix(route, events[..last]);
      SessionStepKeepsPrefix(start.kept.value, RunSession(start, events[..last]), events[last]);
    }
  }

  /** One recovery receipt clears its direction: the whole carried prefix is then receipted and final. */
  lemma RecoveryReceiptClears(first: NodeDirection, route: Route, direction: Direction,
                              receipt: ReceiverReceipt, now: i64)
    requires route.recovery && Continues(first, route.Side(direction))
    requires AcceptReceipt(route, direction, receipt, now).Ok?
    ensures var state := AcceptReceipt(route, direction, receipt, now).value.route.Side(direction);
            && Unreceipted(state) == 0 && state.finalReceiptPersisted
            && receipt.body.prefix == first.prefix
  {
  }
}
