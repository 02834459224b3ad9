/** Sender, Node and receiver of a paid channel as one state machine over FIFO
    links, with both directions running at once. Every step carries the time its
    party reads on its own clock; nothing relates one reading to another. */
module Agreement {
  import opened MachineInts
  import opened RelayModel
  import opened NodeRelay
  import opened StreamChannel

  /** One direction: its two endpoints, the bytes sent before FIN, and the frames in flight on its four links. */
  datatype Lane = Lane(
    sender: StreamDirection, localFin: bool, dataBytes: u64, receiver: StreamDirection,
    toNode: seq<Frame>, toReceiver: seq<Frame>, fromReceiver: seq<Frame>, toSender: seq<Frame>)

  /** The route and both lanes, and whether each member is past the key handshake. */
  datatype World = World(route: Route, forward: Lane, backward: Lane, initiatorReady: bool, responderReady: bool) {
    function LaneIn(direction: Direction): Lane {
      if direction == SenderToReceiver then forward else backward
    }

    function WithLane(direction: Direction, lane: Lane): World {
      if direction == SenderToReceiver then this.(forward := lane) else this.(backward := lane)
    }

    predicate SenderReady(direction: Direction) {
      if direction == SenderToReceiver then initiatorReady else responderReady
    }

    predicate ReceiverReady(direction: Direction) {
      if direction == SenderToReceiver then responderReady else initiatorReady
    }
  }

  datatype Action =
    | SendRecord(direction: Direction, payload: seq<byte>, now: i64)
    | SendFin(direction: Direction, payload: seq<byte>, now: i64)
    | NodeReads(direction: Direction, now: i64)
    | NodeTicks(direction: Direction, now: i64)
    | ReceiverReads(direction: Direction, now: i64)
    | NodeReadsReceipt(direction: Direction, now: i64)
    | SenderReads(direction: Direction, now: i64)
    | Establishes(initiator: bool)

  function Asked(request: Option<CheckpointRequest>): seq<Frame> {
    if request.Some? then [RequestFrame(request.value)] else []
  }

  predicate CanSend(lane: Lane, payload: seq<byte>, now: i64) {
    && !lane.localFin
    && 0 < |payload| <= MAX_FRAME_PAYLOAD
    && AdvanceOutgoing(lane.sender, payload, now).Ok?
  }

  predicate Enabled(world: World, action: Action) {
    match action
    case SendRecord(direction, payload, now) => CanSend(world.LaneIn(direction), payload, now)
    case SendFin(direction, payload, now) =>
      && CanSend(world.LaneIn(direction), payload, now) && !world.LaneIn(direction).sender.awaitingReceipt
      && world.SenderReady(direction)
    case NodeReads(direction, _) => world.LaneIn(direction).toNode != []
    case NodeTicks(_, _) => true
    case ReceiverReads(direction, _) => world.LaneIn(direction).toReceiver != []
    case NodeReadsReceipt(direction, _) => world.LaneIn(direction).fromReceiver != []
    case SenderReads(direction, _) => world.LaneIn(direction).toSender != []
    case Establishes(_) => true
  }

  /** What the Node does with the next frame from a direction's sender. */
  function NodeTakes(view: View, route: Route, direction: Direction, frame: Frame, now: i64): RelayResult<Accepted> {
    match frame
    case DataFrame(sequence, payload) =>
      if |payload| > MAX_FRAME_PAYLOAD then Err(PayloadTooLarge)
      else AcceptData(route, direction, sequence, payload, now)
    case CheckpointFrame(_, checkpoint, finalFlag) =>
      var result := AcceptCheckpoint(route, direction, checkpoint, finalFlag, now);
      if result.Ok? then Ok(Accepted(result.value, None)) else Err(result.error)
    case IntentFrame(intent) => AcceptCloseIntent(route, direction, intent, view.Sender(direction), now)
    case RequestFrame(_) => Err(UnexpectedFrame)
    case ReceiptFrame(_) => Err(WrongMember)
  }

  /** Forwarded to the receiver as it came; a CloseIntent stops at the Node. */
  function Forwarded(frame: Frame): seq<Frame> {
    if frame.IntentFrame? then [] else [frame]
  }

  datatype Read = Read(state: StreamDirection, reply: seq<Frame>)

  /** During the handshake a member takes DATA only. */
  function ReceiverTakes(view: View, direction: Direction, ready: bool, state: StreamDirection, frame: Frame, now: i64)
    : RelayResult<Read>
  {
    match frame
    case DataFrame(sequence, payload) =>
      var result := AdvanceIncoming(state, sequence, payload, now);
      if result.Ok? then Ok(Read(result.value, [])) else Err(result.error)
    case CheckpointFrame(sequence, checkpoint, _) =>
      if !ready then Err(UnexpectedFrame)
      else
        var result := TakeCheckpoint(view, direction, state, checkpoint, sequence, now);
        if result.Ok? then Ok(Read(result.value.state, [ReceiptFrame(result.value.receipt)])) else Err(result.error)
    case _ => Err(UnexpectedFrame)
  }

  function SenderTakes(view: View, direction: Direction, ready: bool, state: StreamDirection, frame: Frame, now: i64)
    : RelayResult<Read>
  {
    if !ready then Err(UnexpectedFrame)
    else
      match frame
      case RequestFrame(request) =>
        var result := AnswerRequest(view, direction, state, request, now);
        if result.Ok?
        then Ok(Read(result.value.state,
                     [CheckpointFrame(result.value.checkpoint.body.prefix.sequence,
                                      result.value.checkpoint, request.final)]))
        else Err(result.error)
      case ReceiptFrame(receipt) =>
        var result := TakeReceipt(view, direction, state, receipt);
        if result.Ok? then Ok(Read(result.value, [])) else Err(result.error)
      case _ => Err(UnexpectedFrame)
  }

  /** One step of an honest run; Err means some party refused a frame. */
  function Next(world: World, action: Action): RelayResult<World>
    requires world.route.authorization.Some? && Enabled(world, action)
  {
    var view := world.route.authorization.value;
    match action
    case SendRecord(direction, payload, now) =>
      var lane := world.LaneIn(direction);
      var sender := AdvanceOutgoing(lane.sender, payload, now).value;
      Ok(world.WithLane(direction, lane.(sender := sender, dataBytes := sender.prefix.bytes,
                                         toNode := lane.toNode + [DataFrame(sender.prefix.sequence, payload)])))
    case SendFin(direction, payload, now) =>
      var lane := world.LaneIn(direction);
      var sender := AdvanceOutgoing(lane.sender, payload, now).value;
      var intent := IntentFor(view, direction, sender, now);
      Ok(world.WithLane(direction, lane.(sender := sender, localFin := true,
                                         toNode := lane.toNode
                                           + [DataFrame(sender.prefix.sequence, payload), IntentFrame(intent)])))
    case NodeReads(direction, now) =>
      var lane := world.LaneIn(direction);
      var result := NodeTakes(view, world.route, direction, lane.toNode[0], now);
      if result.Err? then Err(result.error)
      else Ok(world.(route := result.value.route)
              .WithLane(direction, lane.(toNode := lane.toNode[1..],
                                         toReceiver := lane.toReceiver + Forwarded(lane.toNode[0]),
                                         toSender := lane.toSender + Asked(result.value.request))))
    case NodeTicks(direction, now) =>
      var lane := world.LaneIn(direction);
      var ticked := TickDirection(world.route, direction, now);
      Ok(world.(route := ticked.route)
         .WithLane(direction, lane.(toSender := lane.toSender + Asked(ticked.request))))
    case ReceiverReads(direction, now) =>
      var lane := world.LaneIn(direction);
      var result := ReceiverTakes(view, direction, world.ReceiverReady(direction), lane.receiver,
                                  lane.toReceiver[0], now);
      if result.Err? then Err(result.error)
      else Ok(world.WithLane(direction, lane.(receiver := result.value.state, toReceiver := lane.toReceiver[1..],
                                              fromReceiver := lane.fromReceiver + result.value.reply)))
    case NodeReadsReceipt(direction, now) =>
      var lane := world.LaneIn(direction);
      if !lane.fromReceiver[0].ReceiptFrame? then Err(WrongMember)
      else
        var result := AcceptReceipt(world.route, direction, lane.fromReceiver[0].receipt, now);
        if result.Err? then Err(result.error)
        else Ok(world.(route := result.value.route)
                .WithLane(direction, lane.(fromReceiver := lane.fromReceiver[1..],
                                           toSender := lane.toSender + [lane.fromReceiver[0]]
                                             + Asked(result.value.request))))
    case SenderReads(direction, now) =>
      var lane := world.LaneIn(direction);
      var result := SenderTakes(view, direction, world.SenderReady(direction), lane.sender, lane.toSender[0], now);
      if result.Err? then Err(result.error)
      else Ok(world.WithLane(direction, lane.(sender := result.value.state, toSender := lane.toSender[1..],
                                              toNode := lane.toNode + result.value.reply)))
    case Establishes(initiator) =>
      Ok(if initiator then world.(initiatorReady := true) else world.(responderReady := true))
  }

  function FreshLane(view: View, direction: Direction): Lane {
    var initial := InitialDirection(view, direction);
    Lane(initial, false, initial.prefix.bytes, initial, [], [], [], [])
  }

  /** A channel just accepted, opened by all three parties from the same view, the handshake still to come. */
  ghost predicate Start(world: World, view: View) {
    && world.route.authorization == Some(view)
    && world.route.accepted && !world.route.recovery
    && world.route.forward == OpenDirection(view, SenderToReceiver)
    && world.route.backward == OpenDirection(view, ReceiverToSender)
    && world.forward == FreshLane(view, SenderToReceiver)
    && world.backward == FreshLane(view, ReceiverToSender)
    && !world.initiatorReady && !world.responderReady
  }

  // ---- Frames in flight ----

  /** The frames of `link`, in order, are exactly what takes a party that has counted `from` to the count `to`:
      DATA in sequence, and every checkpoint or intent signing for the prefix at its own place in the link. */
  ghost predicate Leads(from: Prefix, link: seq<Frame>, to: Prefix)
    decreases |link|
  {
    if link == [] then from == to
    else
      match link[0]
      case DataFrame(sequence, payload) =>
        && from.sequence < U64_MAX && sequence == from.sequence + 1
        && 0 < |payload| <= MAX_FRAME_PAYLOAD && from.bytes + |payload| <= U64_MAX
        && Leads(Advance(from, sequence, payload), link[1..], to)
      case CheckpointFrame(sequence, checkpoint, finalFlag) =>
        && checkpoint.body.prefix == from && sequence == from.sequence && finalFlag == checkpoint.body.final
        && Leads(from, link[1..], to)
      case IntentFrame(intent) => intent.prefix == from && Leads(from, link[1..], to)
      case _ => false
  }

  lemma {:induction false} LeadsAppend(from: Prefix, link: seq<Frame>, mid: Prefix, frame: Frame, to: Prefix)
    requires Leads(from, link, mid) && Leads(mid, [frame], to)
    ensures Leads(from, link + [frame], to)
    decreases |link|
  {
    if link == [] {
      assert link + [frame] == [frame];
    } else {
      assert (link + [frame])[1..] == link[1..] + [frame];
      match link[0]
      case DataFrame(sequence, payload) => LeadsAppend(Advance(from, sequence, payload), link[1..], mid, frame, to);
      case CheckpointFrame(_, _, _) => LeadsAppend(from, link[1..], mid, frame, to);
      case IntentFrame(_) => LeadsAppend(from, link[1..], mid, frame, to);
    }
  }

  predicate NoData(link: seq<Frame>) {
    forall frame :: frame in link ==> !frame.DataFrame?
  }

  predicate NoIntent(link: seq<Frame>) {
    forall frame :: frame in link ==> !frame.IntentFrame?
  }

  lemma {:induction false} LeadsLater(from: Prefix, link: seq<Frame>, to: Prefix)
    requires Leads(from, link, to)
    ensures SameOrLater(from, to)
    ensures NoData(link) ==> from == to
    decreases |link|
  {
    if link != [] {
      match link[0]
      case DataFrame(sequence, payload) =>
        LeadsLater(Advance(from, sequence, payload), link[1..], to);
        assert link[0] in link;
      case CheckpointFrame(_, _, _) => LeadsLater(from, link[1..], to);
      case IntentFrame(_) => LeadsLater(from, link[1..], to);
    }
  }

  function CheckpointOf(frame: Frame): seq<SenderCheckpoint> {
    if frame.CheckpointFrame? then [frame.checkpoint] else []
  }

  function Checkpoints(link: seq<Frame>): seq<SenderCheckpoint> {
    if link == [] then [] else CheckpointOf(link[0]) + Checkpoints(link[1..])
  }

  lemma {:induction false} CheckpointsAppend(link: seq<Frame>, frame: Frame)
    ensures Checkpoints(link + [frame]) == Checkpoints(link) + CheckpointOf(frame)
  {
    if link == [] {
      assert link + [frame] == [frame] && Checkpoints([frame][1..]) == [];
      assert Checkpoints([frame]) == CheckpointOf(frame);
    } else {
      assert (link + [frame])[1..] == link[1..] + [frame];
      CheckpointsAppend(link[1..], frame);
      calc {
        Checkpoints(link + [frame]);
        CheckpointOf(link[0]) + (Checkpoints(link[1..]) + CheckpointOf(frame));
        CheckpointOf(link[0]) + Checkpoints(link[1..]) + CheckpointOf(frame);
        Checkpoints(link) + CheckpointOf(frame);
      }
    }
  }
}
