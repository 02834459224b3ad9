/** What the Relay Node does to one route for each frame it handles: the
    per-direction payment-window state and the tests guarding it. */
module NodeRelay {
  import opened MachineInts
  import opened RelayModel

  datatype NodeDirection = NodeDirection(
    prefix: Prefix,
    windowStartedAt: Option<i64>,
    windowStartedBytes: u64,
    receiptedBytes: u64,
    checkpointDue: bool,
    awaitingReceipt: bool,
    pendingCheckpoint: Option<SenderCheckpoint>,
    checkpointRequest: Option<CheckpointRequest>,
    closePending: bool,
    finalReceiptPersisted: bool)

  datatype Route = Route(
    source: u64, destination: u64, accepted: bool,
    authorization: Option<View>,
    forward: NodeDirection, backward: NodeDirection,
    recovery: bool)
  {
    function Side(direction: Direction): NodeDirection {
      if direction == SenderToReceiver then forward else backward
    }

    function WithSide(direction: Direction, state: NodeDirection): Route {
      if direction == SenderToReceiver then this.(forward := state) else this.(backward := state)
    }

    function FullyFinal(): bool {
      forward.finalReceiptPersisted && backward.finalReceiptPersisted
    }

    function Deadline(): i64
      requires authorization.Some?
    {
      if recovery then authorization.value.authorization.claimUntil
      else authorization.value.authorization.validUntil
    }
  }

  /** The direction state of a channel opened from the settled chain state. */
  function OpenDirection(view: View, direction: Direction): NodeDirection {
    var settled := view.authorization.SettledIn(direction);
    NodeDirection(view.StartingPrefix(direction), None, settled.bytes, settled.bytes,
                  false, false, None, None, false, settled.finalized)
  }

  function UnpaidDirection(): NodeDirection {
    NodeDirection(Prefix(0, 0, Initial("", 0, "", "", SenderToReceiver)), None, 0, 0, false, false,
                  None, None, false, false)
  }

  function Schedule(view: View, direction: Direction, state: NodeDirection, final: bool, now: i64): NodeDirection {
    var request := CheckpointRequest(view.authorization.authorizationId, view.authorization.sessionId, direction,
                                     state.prefix, now, final);
    state.(checkpointDue := true, checkpointRequest := Some(request),
           windowStartedAt := None, windowStartedBytes := state.prefix.bytes)
  }

  function ResetForRecovery(state: NodeDirection): NodeDirection {
    state.(windowStartedAt := None, checkpointDue := false, awaitingReceipt := false,
           pendingCheckpoint := None, checkpointRequest := None, closePending := false)
  }

  predicate CheckpointCoversRequest(checkpoint: CheckpointBody, request: CheckpointRequest) {
    || checkpoint.prefix == request.prefix
    || (!request.final && checkpoint.prefix.sequence > request.prefix.sequence
        && checkpoint.prefix.bytes > request.prefix.bytes)
  }

  predicate WindowTimedOut(state: NodeDirection, windowSeconds: i64, now: i64) {
    state.windowStartedAt.Some? && SatSubI64(now, state.windowStartedAt.value) >= windowSeconds
  }

  predicate AcceptsMoreData(state: NodeDirection, windowBytes: u64, windowSeconds: i64, payloadBytes: u64, now: i64) {
    if state.checkpointRequest.Some? && state.checkpointRequest.value.final then false
    else
      var next := SatAdd64(state.prefix.bytes, payloadBytes);
      if SatSub64(next, state.receiptedBytes) > SatDouble64(windowBytes) then false
      else if !(state.awaitingReceipt || state.checkpointRequest.Some?) then true
      else SatSub64(next, state.windowStartedBytes) <= windowBytes && !WindowTimedOut(state, windowSeconds, now)
  }

  const GIB := 1024 * 1024 * 1024

  /** The ceiling of the proportional price, or None where the 128-bit product overflows. */
  function RelayPrice(payloadBytes: u64, pricePerGib: u128): Option<u128> {
    if payloadBytes == 0 || pricePerGib == 0 then Some(0)
    else
      var rounded := payloadBytes * pricePerGib + (GIB - 1);
      if 0 <= rounded <= U128_MAX then Some(rounded / GIB) else None
  }

  /** What the two byte counts still cost beyond what was settled when the view was taken. */
  function Required(authorization: Authorization, forwardBytes: u64, backwardBytes: u64): Option<u128> {
    var forward := RelayPrice(forwardBytes, authorization.pricePerGib);
    var backward := RelayPrice(backwardBytes, authorization.pricePerGib);
    if forward.None? || backward.None? then None
    else
      var total := SatSub128(forward.value, authorization.forward.amount)
                   + SatSub128(backward.value, authorization.backward.amount);
      if total > U128_MAX then None else Some(total)
  }

  predicate Affordable(authorization: Authorization, forwardBytes: u64, backwardBytes: u64) {
    var required := Required(authorization, forwardBytes, backwardBytes);
    required.Some? && required.value <= authorization.reservedRemaining
  }

  /** The state after an accepted frame, and the CheckpointRequest sent to the direction's sender, if any. */
  datatype Accepted = Accepted(route: Route, request: Option<CheckpointRequest>)

  function AcceptData(route: Route, direction: Direction, sequence: u64, payload: seq<byte>,
                      now: i64): RelayResult<Accepted>
    requires |payload| <= MAX_FRAME_PAYLOAD
  {
    var state := route.Side(direction);
    if !route.accepted then Err(NotAccepted)
    else if route.recovery then Err(RecoveryChannel)
    else if !AcceptsMoreData(state,
                             if route.authorization.Some? then route.authorization.value.authorization.windowBytes
                             else RELAY_PAYMENT_WINDOW_BYTES,
                             if route.authorization.Some? then route.authorization.value.authorization.windowSeconds
                             else RELAY_PAYMENT_WINDOW_SECONDS,
                             |payload|, now) then
      Err(WindowExhausted)
    else if sequence != SatAdd64(state.prefix.sequence, 1) then
      Err(SequenceGap)
    else if route.authorization.None? then
      Ok(Accepted(route.WithSide(direction, state.(prefix := state.prefix.(sequence := sequence))), None))
    else
      var view := route.authorization.value;
      var more := |payload|;
      if now >= view.authorization.validUntil then Err(AuthorizationExpired)
      else if state.prefix.bytes + more > U64_MAX then Err(ByteCounterOverflow)
      else if !Affordable(view.authorization,
                          route.forward.prefix.bytes + (if direction == SenderToReceiver then more else 0),
                          route.backward.prefix.bytes + (if direction == SenderToReceiver then 0 else more)) then
        Err(InsufficientReservation)
      else
        var counted := state.(prefix := Advance(state.prefix, sequence, payload),
                              windowStartedAt := if state.windowStartedAt.Some?
                                then state.windowStartedAt else Some(now));
        if counted.checkpointRequest.None?
           && SatSub64(counted.prefix.bytes, counted.windowStartedBytes) >= view.authorization.windowBytes then
          var due := Schedule(view, direction, counted, false, now);
          Ok(Accepted(route.WithSide(direction, due), due.checkpointRequest))
        else
          Ok(Accepted(route.WithSide(direction, counted), None))
  }

  predicate WindowElapsed(view: View, state: NodeDirection, now: i64) {
    && WindowTimedOut(state, view.authorization.windowSeconds, now)
    && state.prefix.bytes > state.windowStartedBytes
    && state.checkpointRequest.None?
    && !state.awaitingReceipt
  }

  /** One direction's turn in the payment-window timer. */
  function TickDirection(route: Route, direction: Direction, now: i64): Accepted {
    if route.recovery || route.authorization.None? then Accepted(route, None)
    else
      var view := route.authorization.value;
      var state := route.Side(direction);
      if WindowElapsed(view, state, now) then
        var due := Schedule(view, direction, state, false, now);
        Accepted(route.WithSide(direction, due), due.checkpointRequest)
      else Accepted(route, None)
  }

  function AcceptCloseIntent(route: Route, direction: Direction, intent: CloseIntent, member: string,
                             now: i64): RelayResult<Accepted> {
    if route.authorization.None? then Err(Unpaid)
    else
      var view := route.authorization.value;
      var state := route.Side(direction);
      if || intent.authorizationId != view.authorization.authorizationId
         || intent.sessionId != view.authorization.sessionId
         || intent.direction != direction
         || intent.prefix != state.prefix
         || intent.requestedAt > SatAddI64(now, CLOCK_SLACK_SECONDS)
         || view.Sender(direction) != member
      then Err(InvalidCloseIntent)
      else if state.awaitingReceipt || (state.checkpointRequest.Some? && !state.checkpointRequest.value.final) then
        Ok(Accepted(route.WithSide(direction, state.(closePending := true)), None))
      else if state.checkpointRequest.Some? then
        Ok(Accepted(route, state.checkpointRequest))
      else
        var due := Schedule(view, direction, state, true, now);
        Ok(Accepted(route.WithSide(direction, due), due.checkpointRequest))
  }

  predicate ValidCheckpoint(route: Route, direction: Direction, checkpoint: SenderCheckpoint, finalFlag: bool, now: i64)
    requires route.authorization.Some? && route.Side(direction).checkpointRequest.Some?
  {
    var view := route.authorization.value;
    var state := route.Side(direction);
    var request := state.checkpointRequest.value;
    var body := checkpoint.body;
    && !state.awaitingReceipt
    && body.binding == view.BindingFor(direction)
    && body.senderMember == view.Sender(direction)
    && body.prefix == state.prefix
    && CheckpointCoversRequest(body, request)
    && body.final == request.final
    && body.checkpointAt >= request.requestedAt
    && body.checkpointAt >= view.authorization.createdAt
    && body.checkpointAt <= route.Deadline()
    && body.checkpointAt <= SatAddI64(now, CLOCK_SLACK_SECONDS)
    && body.final == finalFlag
    && checkpoint.signature == CheckpointSignature(view.SenderKey(direction), body)
  }

  /** A checkpoint in the state it leaves is forwarded to the receiver unchanged. */
  function AcceptCheckpoint(route: Route, direction: Direction, checkpoint: SenderCheckpoint, finalFlag: bool,
                            now: i64): RelayResult<Route> {
    if route.authorization.None? then Err(Unpaid)
    else
      var state := route.Side(direction);
      if state.checkpointRequest.None? then Err(NotRequested)
      else if !ValidCheckpoint(route, direction, checkpoint, finalFlag, now) then
        Err(InvalidCheckpoint)
      else
        Ok(route.WithSide(direction, state.(windowStartedAt := None,
                                            windowStartedBytes := checkpoint.body.prefix.bytes,
                                            awaitingReceipt := true,
                                            pendingCheckpoint := Some(checkpoint))))
  }

  predicate ValidReceipt(route: Route, direction: Direction, receipt: ReceiverReceipt)
    requires route.authorization.Some? && route.Side(direction).pendingCheckpoint.Some?
  {
    var view := route.authorization.value;
    var checkpoint := route.Side(direction).pendingCheckpoint.value;
    var body := receipt.body;
    && body.receiverMember == view.Receiver(direction)
    && body.binding.ledgerId == view.ledgerId
    && body.binding.protocolVersion == PROTOCOL_VERSION
    && body.binding.authorizationId == checkpoint.body.binding.authorizationId
    && body.binding.sessionId == checkpoint.body.binding.sessionId
    && body.binding.nodeId == checkpoint.body.binding.nodeId
    && body.binding.direction == direction
    && body.prefix == checkpoint.body.prefix
    && body.checkpointDigest == checkpoint
    && body.receivedAt >= checkpoint.body.checkpointAt
    && SatSubI64(body.receivedAt, checkpoint.body.checkpointAt) <= CLOCK_SLACK_SECONDS
    && body.receivedAt <= route.Deadline()
    && receipt.signature == ReceiptSignature(view.ReceiverKey(direction), body)
  }

  /** A receipt settles the pending checkpoint; a close that was waiting for it is then requested. */
  function AcceptReceipt(route: Route, direction: Direction, receipt: ReceiverReceipt,
                         now: i64): RelayResult<Accepted> {
    if route.authorization.None? then Err(Unpaid)
    else
      var view := route.authorization.value;
      var state := route.Side(direction);
      if state.pendingCheckpoint.None? then Err(NothingPending)
      else if !ValidReceipt(route, direction, receipt) then Err(InvalidReceipt)
      else
        var checkpoint := state.pendingCheckpoint.value;
        var settled := state.(finalReceiptPersisted := checkpoint.body.final,
                              receiptedBytes := checkpoint.body.prefix.bytes,
                              checkpointDue := false, awaitingReceipt := false,
                              pendingCheckpoint := None, checkpointRequest := None);
        if settled.closePending && !checkpoint.body.final then
          var due := Schedule(view, direction, settled.(closePending := false), true, now);
          Ok(Accepted(route.WithSide(direction, due), due.checkpointRequest))
        else
          Ok(Accepted(route.WithSide(direction, settled), None))
  }

  /** Accepting a channel; a recovery channel then asks each unfinished direction for its final checkpoint. */
  function AcceptChannel(route: Route, now: i64): Route {
    var accepted := route.(accepted := true);
    if !route.recovery || route.authorization.None? then accepted
    else
      var view := route.authorization.value;
      var once := if route.forward.finalReceiptPersisted then accepted
                  else accepted.(forward := Schedule(view, SenderToReceiver, route.forward, true, now));
      if route.backward.finalReceiptPersisted then once
      else once.(backward := Schedule(view, ReceiverToSender, route.backward, true, now))
  }

  /** Everything that can happen to a live route. A refused frame leaves it as it was. */
  datatype RouteEvent =
    | DataArrives(direction: Direction, sequence: u64, payload: seq<byte>, now: i64)
    | TimerTicks(direction: Direction, now: i64)
    | CloseIntentArrives(direction: Direction, intent: CloseIntent, member: string, now: i64)
    | CheckpointArrives(direction: Direction, checkpoint: SenderCheckpoint, finalFlag: bool, now: i64)
    | ReceiptArrives(direction: Direction, receipt: ReceiverReceipt, now: i64)
    | ChannelAccepted(now: i64)
  {
    predicate Legal() {
      DataArrives? ==> |payload| <= MAX_FRAME_PAYLOAD
    }
  }

  function Step(route: Route, event: RouteEvent): Route
    requires event.Legal()
  {
    match event
    case DataArrives(direction, sequence, payload, now) =>
      var result := AcceptData(route, direction, sequence, payload, now);
      if result.Ok? then result.value.route else route
    case TimerTicks(direction, now) => TickDirection(route, direction, now).route
    case CloseIntentArrives(direction, intent, member, now) =>
      var result := AcceptCloseIntent(route, direction, intent, member, now);
      if result.Ok? then result.value.route else route
    case CheckpointArrives(direction, checkpoint, finalFlag, now) =>
      var result := AcceptCheckpoint(route, direction, checkpoint, finalFlag, now);
      if result.Ok? then result.value else route
    case ReceiptArrives(direction, receipt, now) =>
      var result := AcceptReceipt(route, direction, receipt, now);
      if result.Ok? then result.value.route else route
    case ChannelAccepted(now) =>
      if route.accepted then route else AcceptChannel(route, now)
  }

  predicate AllLegal(events: seq<RouteEvent>) {
    forall i :: 0 <= i < |events| ==> events[i].Legal()
  }

  function Run(route: Route, events: seq<RouteEvent>): Route
    requires AllLegal(events)
  {
    if events == [] then route else Step(Run(route, events[..|events| - 1]), events[|events| - 1])
  }
}
