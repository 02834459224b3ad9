/** The two-window limit: however frames, timers and closes interleave, and
    whatever the members put in their frames, a paid direction never carries
    more than two payment windows without a receipt. */
module Exposure {
  import opened MachineInts
  import opened RelayModel
  import opened NodeRelay

  /** Bytes counted but not yet covered by a receipt. */
  function Unreceipted(state: NodeDirection): int {
    state.prefix.bytes - state.receiptedBytes
  }

  ghost predicate WithinTwoWindows(state: NodeDirection, windowBytes: u64) {
    && state.receiptedBytes <= state.windowStartedBytes <= state.prefix.bytes
    && state.prefix.bytes - state.windowStartedBytes <= windowBytes
    && Unreceipted(state) <= 2 * windowBytes
  }

  /** At most one exchange is open, and its checkpoint is where the window starts. */
  ghost predicate OneExchange(state: NodeDirection) {
    && (state.awaitingReceipt <==> state.pendingCheckpoint.Some?)
    && (state.awaitingReceipt ==>
          && state.checkpointRequest.Some?
          && state.pendingCheckpoint.value.body.prefix.bytes == state.windowStartedBytes
          && state.pendingCheckpoint.value.body.final == state.checkpointRequest.value.final)
  }

  ghost predicate SideSafe(state: NodeDirection, windowBytes: u64) {
    WithinTwoWindows(state, windowBytes) && OneExchange(state)
  }

  /** On a recovery channel only the final checkpoint of the whole carried prefix is ever asked for or pending. */
  ghost predicate FinalOnly(state: NodeDirection) {
    && (state.checkpointRequest.Some? ==>
          state.checkpointRequest.value.final && state.checkpointRequest.value.prefix == state.prefix)
    && (state.pendingCheckpoint.Some? ==>
          state.pendingCheckpoint.value.body.final && state.pendingCheckpoint.value.body.prefix == state.prefix)
  }

  ghost predicate Safe(route: Route) {
    && (route.recovery ==> FinalOnly(route.forward) && FinalOnly(route.backward))
    && (route.authorization.Some? ==>
          && SideSafe(route.forward, route.authorization.value.authorization.windowBytes)
          && SideSafe(route.backward, route.authorization.value.authorization.windowBytes))
  }

  lemma OpenedRouteSafe(route: Route, view: View)
    requires route.authorization == Some(view) && !route.recovery
    requires route.forward == OpenDirection(view, SenderToReceiver)
    requires route.backward == OpenDirection(view, ReceiverToSender)
    ensures Safe(route)
  {
  }

  lemma ScheduleSafe(view: View, direction: Direction, state: NodeDirection, final: bool, now: i64)
    requires state.receiptedBytes <= state.prefix.bytes
    requires Unreceipted(state) <= 2 * view.authorization.windowBytes
    requires !state.awaitingReceipt && state.pendingCheckpoint.None?
    ensures SideSafe(Schedule(view, direction, state, final, now), view.authorization.windowBytes)
  {
  }

  lemma DataSafe(route: Route, direction: Direction, sequence: u64, payload: seq<byte>, now: i64)
    requires Safe(route) && |payload| <= MAX_FRAME_PAYLOAD
    requires AcceptData(route, direction, sequence, payload, now).Ok?
    ensures Safe(AcceptData(route, direction, sequence, payload, now).value.route)
  {
    if route.authorization.Some? {
      var view := route.authorization.value;
      var state := route.Side(direction);
      var counted := state.(prefix := Advance(state.prefix, sequence, payload),
                            windowStartedAt := if state.windowStartedAt.Some?
                              then state.windowStartedAt else Some(now));
      assert SideSafe(state, view.authorization.windowBytes);
      if counted.checkpointRequest.None?
         && SatSub64(counted.prefix.bytes, counted.windowStartedBytes) >= view.authorization.windowBytes {
        ScheduleSafe(view, direction, counted, false, now);
      } else {
        assert SideSafe(counted, view.authorization.windowBytes);
      }
    }
  }

  lemma SideReplaced(route: Route, direction: Direction, state: NodeDirection)
    requires Safe(route) && route.authorization.Some?
    requires SideSafe(state, route.authorization.value.authorization.windowBytes)
    requires route.recovery ==> FinalOnly(state)
    ensures Safe(route.WithSide(direction, state))
  {
  }

  lemma ClosePendingSafe(state: NodeDirection, windowBytes: u64)
    ensures SideSafe(state, windowBytes) ==> SideSafe(state.(closePending := true), windowBytes)
    ensures FinalOnly(state) ==> FinalOnly(state.(closePending := true))
  {
  }

  lemma FinalScheduleSafe(view: View, direction: Direction, state: NodeDirection, now: i64)
    requires SideSafe(state, view.authorization.windowBytes) && !state.awaitingReceipt && state.checkpointRequest.None?
    ensures SideSafe(Schedule(view, direction, state, true, now), view.authorization.windowBytes)
    ensures FinalOnly(state) ==> FinalOnly(Schedule(view, direction, state, true, now))
  {
  }

  lemma CloseIntentSafe(route: Route, direction: Direction, intent: CloseIntent, member: string, now: i64)
    requires Safe(route)
    requires AcceptCloseIntent(route, direction, intent, member, now).Ok?
    ensures Safe(AcceptCloseIntent(route, direction, intent, member, now).value.route)
  {
    var view, state := route.authorization.value, route.Side(direction);
    assert SideSafe(state, view.authorization.windowBytes) && (route.recovery ==> FinalOnly(state));
    if state.awaitingReceipt || (state.checkpointRequest.Some? && !state.checkpointRequest.value.final) {
      ClosePendingSafe(state, view.authorization.windowBytes);
      SideReplaced(route, direction, state.(closePending := true));
    } else if state.checkpointRequest.None? {
      FinalScheduleSafe(view, direction, state, now);
      SideReplaced(route, direction, Schedule(view, direction, state, true, now));
    }
  }

  lemma CheckpointSafe(route: Route, direction: Direction, checkpoint: SenderCheckpoint, finalFlag: bool, now: i64)
    requires Safe(route)
    requires AcceptCheckpoint(route, direction, checkpoint, finalFlag, now).Ok?
    ensures Safe(AcceptCheckpoint(route, direction, checkpoint, finalFlag, now).value)
  {
  }

  lemma ReceiptSafe(route: Route, direction: Direction, receipt: ReceiverReceipt, now: i64)
    requires Safe(route)
    requires AcceptReceipt(route, direction, receipt, now).Ok?
    ensures Safe(AcceptReceipt(route, direction, receipt, now).value.route)
  {
    assert SideSafe(route.Side(direction), route.authorization.value.authorization.windowBytes);
  }

  lemma AcceptChannelSafe(route: Route, now: i64)
    requires Safe(route)
    ensures Safe(AcceptChannel(route, now))
  {
  }

  /** A step keeps the invariant and the terms of the authorization. */
  ghost predicate KeepsSafe(route: Route, event: RouteEvent)
    requires event.Legal()
  {
    Safe(Step(route, event)) && Step(route, event).authorization == route.authorization
  }

  lemma DataStepSafe(route: Route, direction: Direction, sequence: u64, payload: seq<byte>, now: i64)
    requires Safe(route) && DataArrives(direction, sequence, payload, now).Legal()
    ensures KeepsSafe(route, DataArrives(direction, sequence, payload, now))
  {
    if AcceptData(route, direction, sequence, payload, now).Ok? {
      DataSafe(route, direction, sequence, payload, now);
    }
  }

  lemma TimerStepSafe(route: Route, direction: Direction, now: i64)
    requires Safe(route)
    ensures KeepsSafe(route, TimerTicks(direction, now))
  {
  }

  lemma CloseIntentStepSafe(route: Route, direction: Direction, intent: CloseIntent, member: string, now: i64)
    requires Safe(route)
    ensures KeepsSafe(route, CloseIntentArrives(direction, intent, member, now))
  {
    if AcceptCloseIntent(route, direction, intent, member, now).Ok? {
      CloseIntentSafe(route, direction, intent, member, now);
    }
  }

  lemma CheckpointStepSafe(route: Route, direction: Direction, checkpoint: SenderCheckpoint, finalFlag: bool, now: i64)
    requires Safe(route)
    ensures KeepsSafe(route, CheckpointArrives(direction, checkpoint, finalFlag, now))
  {
    if AcceptCheckpoint(route, direction, checkpoint, finalFlag, now).Ok? {
      CheckpointSafe(route, direction, checkpoint, finalFlag, now);
    }
  }

  lemma ReceiptStepSafe(route: Route, direction: Direction, receipt: ReceiverReceipt, now: i64)
    requires Safe(route)
    ensures KeepsSafe(route, ReceiptArrives(direction, receipt, now))
  {
    if AcceptReceipt(route, direction, receipt, now).Ok? {
      ReceiptSafe(route, direction, receipt, now);
    }
  }

  lemma StepSafe(route: Route, event: RouteEvent)
    requires Safe(route) && event.Legal()
    ensures Safe(Step(route, event))
    ensures Step(route, event).authorization == route.authorization
  {
    match event
    case DataArrives(direction, sequence, payload, now) => DataStepSafe(route, direction, sequence, payload, now);
    case TimerTicks(direction, now) => TimerStepSafe(route, direction, now);
    case CloseIntentArrives(direction, intent, member, now) =>
      CloseIntentStepSafe(route, direction, intent, member, now);
    case CheckpointArrives(direction, checkpoint, finalFlag, now) =>
      CheckpointStepSafe(route, direction, checkpoint, finalFlag, now);
    case ReceiptArrives(direction, receipt, now) => ReceiptStepSafe(route, direction, receipt, now);
    case ChannelAccepted(now) => AcceptChannelSafe(route, now);
  }

  /** Two-window exposure over every run. */
  lemma {:induction false} TwoWindowExposure(route: Route, events: seq<RouteEvent>)
    requires Safe(route) && AllLegal(events)
    ensures Safe(Run(route, events))
    ensures Run(route, events).authorization == route.authorization
  {
    if events != [] {
      var last := |events| - 1;
      TwoWindowExposure(route, events[..last]);
      StepSafe(Run(route, events[..last]), events[last]);
    }
  }

  /** A payment boundary is never passed silently: after every accepted DATA frame the direction either
      has a request outstanding or is still short of a full window. */
  lemma BytesReachABoundary(route: Route, direction: Direction, sequence: u64, payload: seq<byte>, now: i64)
    requires Safe(route) && |payload| <= MAX_FRAME_PAYLOAD && route.authorization.Some?
    requires AcceptData(route, direction, sequence, payload, now).Ok?
    ensures var accepted := AcceptData(route, direction, sequence, payload, now).value;
            var state := accepted.route.Side(direction);
            && state.prefix == Advance(route.Side(direction).prefix, sequence, payload)
            && (state.checkpointRequest.None? ==>
                  state.prefix.bytes - state.windowStartedBytes < route.authorization.value.authorization.windowBytes)
            && (accepted.request.Some? ==>
                  accepted.request == state.checkpointRequest && accepted.request.value.prefix == state.prefix)
  {
    assert SideSafe(route.Side(direction), route.authorization.value.authorization.windowBytes);
  }

  /** The timer leaves no direction with an elapsed window that holds unrequested bytes. */
  lemma TimerServesElapsedWindows(route: Route, direction: Direction, now: i64)
    requires route.authorization.Some? && !route.recovery
    ensures !WindowElapsed(route.authorization.value, TickDirection(route, direction, now).route.Side(direction), now)
    ensures WindowElapsed(route.authorization.value, route.Side(direction), now)
            <==> TickDirection(route, direction, now).request.Some?
  {
  }
}
