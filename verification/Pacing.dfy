/** When the Node's window test and the sender's own allowance disagree. A
    sender that stays within its allowance can be refused: DATA it sent before
    a timer-raised request reached it may run past the requested prefix by
    more than one window. These results say exactly when that happens. */
module Pacing {
  import opened MachineInts
  import opened RelayModel
  import opened NodeRelay
  import opened StreamChannel
  import opened Agreement
  import opened Exposure
  import H = HonestRuns

  predicate PacedAction(world: World, view: View, action: Action) {
    action.SendRecord? ==>
      |action.payload| <= OutgoingWriteAllowance(world.LaneIn(action.direction).sender, view.authorization.windowBytes,
                                                 view.authorization.windowSeconds, action.now)
  }

  /** No DATA follows FIN, so none is behind a checkpoint signed after it. */
  ghost predicate FinLast(lane: Lane, node: NodeDirection) {
    lane.localFin ==>
      && (forall i, j :: 0 <= i < j < |lane.toNode| && lane.toNode[i].CheckpointFrame? ==> !lane.toNode[j].DataFrame?)
      && (node.awaitingReceipt ==> NoData(lane.toNode))
  }

  /** How a paced sender's counters stand to the Node's. FIN is not counted against the allowance. */
  ghost predicate InStep(lane: Lane, node: NodeDirection, windowBytes: u64) {
    var sender := lane.sender;
    && sender.receiptedBytes <= node.receiptedBytes
    && sender.receiptedBytes <= sender.prefix.bytes
    && lane.dataBytes <= sender.prefix.bytes && (!lane.localFin ==> lane.dataBytes == sender.prefix.bytes)
    && lane.dataBytes - sender.receiptedBytes <= 2 * windowBytes
    && (node.checkpointRequest.Some? && !node.awaitingReceipt ==>
          node.windowStartedBytes == node.checkpointRequest.value.prefix.bytes)
    && (sender.awaitingReceipt ==>
          && sender.pendingCheckpoint.Some?
          && sender.windowStartedBytes == sender.pendingCheckpoint.value.body.prefix.bytes <= sender.prefix.bytes
          && lane.dataBytes - sender.windowStartedBytes <= windowBytes
          && (lane.toSender != [] ==> sender.windowStartedBytes <= node.receiptedBytes))
  }

  /** A request before the final one was raised by a full window of bytes, not by the timer. */
  ghost predicate RaisedByBytes(node: NodeDirection, windowBytes: u64) {
    node.checkpointRequest.Some? && !node.awaitingReceipt && !node.checkpointRequest.value.final ==>
      node.checkpointRequest.value.prefix.bytes >= node.receiptedBytes + windowBytes
  }

  ghost predicate Paced(world: World, view: View) {
    && H.Inv(world, view)
    && Safe(world.route)
    && FinLast(world.forward, world.route.forward) && FinLast(world.backward, world.route.backward)
    && InStep(world.forward, world.route.forward, view.authorization.windowBytes)
    && InStep(world.backward, world.route.backward, view.authorization.windowBytes)
  }

  ghost predicate ByBytes(world: World, view: View) {
    && RaisedByBytes(world.route.forward, view.authorization.windowBytes)
    && RaisedByBytes(world.route.backward, view.authorization.windowBytes)
  }

  /** A request is out, and the window of DATA behind it has run out of bytes or of time. The byte half is possible
      only until the Node has the sender's checkpoint. */
  predicate WindowShut(node: NodeDirection, windowBytes: u64, windowSeconds: i64, more: nat, now: i64) {
    && node.checkpointRequest.Some?
    && (|| WindowTimedOut(node, windowSeconds, now)
        || (!node.awaitingReceipt
            && node.prefix.bytes + more - node.checkpointRequest.value.prefix.bytes > windowBytes))
  }

  /** The frame leaves at most two windows without a receipt. */
  predicate WithinRisk(node: NodeDirection, windowBytes: u64, more: nat) {
    node.prefix.bytes + more - node.receiptedBytes <= 2 * windowBytes
  }

  /** While DATA is still on its way, no final request is out, and a checkpoint at the Node is the sender's pending
      one. */
  ghost predicate StillSending(lane: Lane, node: NodeDirection) {
    && (node.checkpointRequest.Some? ==> !node.checkpointRequest.value.final)
    && (node.awaitingReceipt ==>
          !lane.localFin && lane.sender.awaitingReceipt && node.pendingCheckpoint == lane.sender.pendingCheckpoint)
  }

  lemma DataAtHead(view: View, direction: Direction, lane: Lane, node: NodeDirection)
    requires H.LaneInv(view, direction, lane, node) && FinLast(lane, node)
    requires lane.toNode != [] && lane.toNode[0].DataFrame?
    ensures |lane.toNode[0].payload| <= MAX_FRAME_PAYLOAD && StillSending(lane, node)
    ensures node.prefix.bytes + |lane.toNode[0].payload| <= lane.sender.prefix.bytes
  {
    var frame := lane.toNode[0];
    assert frame in lane.toNode;
    H.DataForwarded(view, direction, lane, node.prefix, frame);
    LeadsLater(Advance(node.prefix, frame.sequence, frame.payload), lane.toNode[1..], lane.sender.prefix);
  }

  lemma WindowArithmetic(lane: Lane, node: NodeDirection, windowBytes: u64, windowSeconds: i64, more: nat, now: i64)
    requires SideSafe(node, windowBytes) && InStep(lane, node, windowBytes) && StillSending(lane, node)
    requires more <= MAX_FRAME_PAYLOAD && node.prefix.bytes + more <= lane.sender.prefix.bytes
    ensures AcceptsMoreData(node, windowBytes, windowSeconds, more, now)
            <==> !WindowShut(node, windowBytes, windowSeconds, more, now) && WithinRisk(node, windowBytes, more)
    ensures node.prefix.bytes + more <= lane.dataBytes ==> WithinRisk(node, windowBytes, more)
  {
  }

  /** The Node's window test refuses a paced sender's next DATA frame exactly when the window is shut or the frame
      passes two windows, and only FIN can do the latter. */
  lemma WindowVerdict(view: View, direction: Direction, lane: Lane, node: NodeDirection, now: i64)
    requires H.LaneInv(view, direction, lane, node) && SideSafe(node, view.authorization.windowBytes)
    requires InStep(lane, node, view.authorization.windowBytes) && FinLast(lane, node)
    requires lane.toNode != [] && lane.toNode[0].DataFrame?
    ensures var more := |lane.toNode[0].payload|;
            && more <= MAX_FRAME_PAYLOAD
            && (AcceptsMoreData(node, view.authorization.windowBytes, view.authorization.windowSeconds, more, now)
                <==> && !WindowShut(node, view.authorization.windowBytes, view.authorization.windowSeconds, more, now)
                     && WithinRisk(node, view.authorization.windowBytes, more))
            && (node.prefix.bytes + more <= lane.dataBytes ==> WithinRisk(node, view.authorization.windowBytes, more))
  {
    DataAtHead(view, direction, lane, node);
    WindowArithmetic(lane, node, view.authorization.windowBytes, view.authorization.windowSeconds,
                     |lane.toNode[0].payload|, now);
  }

  /** With requests raised only by bytes, the byte half of the window never shuts on a paced sender. */
  lemma ByteWindowsNeverShut(view: View, direction: Direction, lane: Lane, node: NodeDirection, now: i64)
    requires H.LaneInv(view, direction, lane, node) && SideSafe(node, view.authorization.windowBytes)
    requires InStep(lane, node, view.authorization.windowBytes) && FinLast(lane, node)
    requires RaisedByBytes(node, view.authorization.windowBytes)
    requires lane.toNode != [] && lane.toNode[0].DataFrame?
    ensures var more := |lane.toNode[0].payload|;
            && more <= MAX_FRAME_PAYLOAD
            && (AcceptsMoreData(node, view.authorization.windowBytes, view.authorization.windowSeconds, more, now)
                <==> && !(node.checkpointRequest.Some? && WindowTimedOut(node, view.authorization.windowSeconds, now))
                     && WithinRisk(node, view.authorization.windowBytes, more))
  {
    assert lane.toNode[0] in lane.toNode;
    WindowVerdict(view, direction, lane, node, now);
  }

  // ---- Every step of a paced run keeps the counters in step ----

  lemma SendInStep(view: View, lane: Lane, node: NodeDirection, now: i64, payload: seq<byte>, after: Lane)
    requires InStep(lane, node, view.authorization.windowBytes) && CanSend(lane, payload, now)
    requires |payload| <= OutgoingWriteAllowance(lane.sender, view.authorization.windowBytes,
                                                 view.authorization.windowSeconds, now)
    requires after.sender == AdvanceOutgoing(lane.sender, payload, now).value && after.toSender == lane.toSender
    requires after.dataBytes == after.sender.prefix.bytes
    ensures InStep(after, node, view.authorization.windowBytes)
  {
  }

  lemma FinInStep(view: View, lane: Lane, node: NodeDirection, now: i64, payload: seq<byte>, after: Lane)
    requires InStep(lane, node, view.authorization.windowBytes) && CanSend(lane, payload, now)
    requires after.sender == AdvanceOutgoing(lane.sender, payload, now).value && after.toSender == lane.toSender
    requires after.dataBytes == lane.dataBytes && after.localFin
    ensures InStep(after, node, view.authorization.windowBytes)
  {
  }

  lemma SenderReadsInStep(view: View, direction: Direction, lane: Lane, node: NodeDirection, now: i64)
    requires H.LaneInv(view, direction, lane, node) && InStep(lane, node, view.authorization.windowBytes)
    requires lane.toSender != [] && SenderTakes(view, direction, true, lane.sender, lane.toSender[0], now).Ok?
    ensures var result := SenderTakes(view, direction, true, lane.sender, lane.toSender[0], now).value;
            InStep(lane.(sender := result.state, toSender := lane.toSender[1..], toNode := lane.toNode + result.reply),
                   node, view.authorization.windowBytes)
  {
    if lane.toSender[0].RequestFrame? {
      H.RequestMatched(view, direction, lane, node, now);
    }
  }

  /** Reading a frame never touches what is receipted, and raises a request only when none is open. */
  ghost predicate Steady(node: NodeDirection, accepted: Accepted, direction: Direction) {
    var later := accepted.route.Side(direction);
    && later.receiptedBytes == node.receiptedBytes
    && (accepted.request.Some? ==> node.checkpointRequest.None?)
    && (later.checkpointRequest.Some? && !later.awaitingReceipt ==>
          || (later.checkpointRequest == node.checkpointRequest && !node.awaitingReceipt
              && later.windowStartedBytes == node.windowStartedBytes)
          || later.windowStartedBytes == later.checkpointRequest.value.prefix.bytes)
  }

  lemma DataSteady(view: View, direction: Direction, route: Route, frame: Frame, now: i64)
    requires route.authorization == Some(view) && frame.DataFrame? && NodeTakes(view, route, direction, frame, now).Ok?
    ensures Steady(route.Side(direction), NodeTakes(view, route, direction, frame, now).value, direction)
  {
    H.AcceptedDataIsCounted(view, direction, route, frame, now);
  }

  lemma FrameSteady(view: View, direction: Direction, lane: Lane, route: Route, now: i64)
    requires route.authorization == Some(view) && H.LaneInv(view, direction, lane, route.Side(direction))
    requires lane.toNode != [] && NodeTakes(view, route, direction, lane.toNode[0], now).Ok?
    ensures Steady(route.Side(direction), NodeTakes(view, route, direction, lane.toNode[0], now).value, direction)
  {
    if lane.toNode[0].DataFrame? {
      DataSteady(view, direction, route, lane.toNode[0], now);
    } else if lane.toNode[0].IntentFrame? {
      assert lane.toNode[0] in lane.toNode && !H.Closed(lane);
    }
  }

  lemma NodeReadsInStep(view: View, direction: Direction, lane: Lane, node: NodeDirection, accepted: Accepted,
                        after: Lane, now: i64)
    requires H.LaneInv(view, direction, lane, node) && InStep(lane, node, view.authorization.windowBytes)
    requires Steady(node, accepted, direction)
    requires after.sender == lane.sender && after.localFin == lane.localFin && after.dataBytes == lane.dataBytes
    requires after.toSender == lane.toSender + Asked(accepted.request)
    ensures InStep(after, accepted.route.Side(direction), view.authorization.windowBytes)
  {
  }

  lemma ReceiptInStep(view: View, direction: Direction, lane: Lane, route: Route, now: i64)
    requires route.authorization == Some(view) && H.LaneInv(view, direction, lane, route.Side(direction))
    requires SideSafe(route.Side(direction), view.authorization.windowBytes)
    requires InStep(lane, route.Side(direction), view.authorization.windowBytes)
    requires lane.fromReceiver != [] && lane.fromReceiver[0].ReceiptFrame?
    requires AcceptReceipt(route, direction, lane.fromReceiver[0].receipt, now).Ok?
    ensures var accepted := AcceptReceipt(route, direction, lane.fromReceiver[0].receipt, now).value;
            InStep(lane.(fromReceiver := lane.fromReceiver[1..],
                         toSender := lane.toSender + [lane.fromReceiver[0]] + Asked(accepted.request)),
                   accepted.route.Side(direction), view.authorization.windowBytes)
  {
  }

  lemma TickInStep(view: View, direction: Direction, lane: Lane, route: Route, now: i64)
    requires route.authorization == Some(view) && H.LaneInv(view, direction, lane, route.Side(direction))
    requires InStep(lane, route.Side(direction), view.authorization.windowBytes)
    ensures var ticked := TickDirection(route, direction, now);
            InStep(lane.(toSender := lane.toSender + Asked(ticked.request)), ticked.route.Side(direction),
                   view.authorization.windowBytes)
  {
  }

  // ---- FIN stays last ----

  lemma {:induction false} NoCheckpointFrames(link: seq<Frame>)
    requires Checkpoints(link) == []
    ensures forall frame :: frame in link ==> !frame.CheckpointFrame?
  {
    if link != [] {
      assert Checkpoints(link) == CheckpointOf(link[0]) + Checkpoints(link[1..]);
      NoCheckpointFrames(link[1..]);
    }
  }

  lemma SendFinLast(view: View, direction: Direction, lane: Lane, node: NodeDirection, after: Lane, frames: seq<Frame>)
    requires H.LaneInv(view, direction, lane, node) && !lane.sender.awaitingReceipt
    requires after.toNode == lane.toNode + frames && forall frame :: frame in frames ==> !frame.CheckpointFrame?
    ensures FinLast(after, node)
  {
    NoCheckpointFrames(lane.toNode);
  }

  lemma ReplyLast(lane: Lane, node: NodeDirection, after: Lane, reply: seq<Frame>)
    requires FinLast(lane, node) && after.localFin == lane.localFin && after.toNode == lane.toNode + reply
    requires |reply| <= 1 && NoData(reply)
    ensures FinLast(after, node)
  {
  }

  lemma ReadLast(lane: Lane, node: NodeDirection, after: Lane, later: NodeDirection)
    requires FinLast(lane, node) && lane.toNode != [] && after.localFin == lane.localFin
    requires after.toNode == lane.toNode[1..]
    requires later.awaitingReceipt == (node.awaitingReceipt || lane.toNode[0].CheckpointFrame?)
    ensures FinLast(after, later)
  {
    forall i, j | 0 <= i < j < |after.toNode| && after.toNode[i].CheckpointFrame? && lane.localFin
      ensures !after.toNode[j].DataFrame?
    {
      assert after.toNode[i] == lane.toNode[i + 1] && after.toNode[j] == lane.toNode[j + 1];
    }
    if later.awaitingReceipt && lane.localFin {
      forall frame | frame in after.toNode
        ensures !frame.DataFrame?
      {
        var j :| 0 <= j < |after.toNode| && after.toNode[j] == frame;
        assert frame == lane.toNode[j + 1] && frame in lane.toNode;
      }
    }
  }

  lemma DataAwaits(view: View, direction: Direction, route: Route, frame: Frame, now: i64)
    requires route.authorization == Some(view) && frame.DataFrame? && NodeTakes(view, route, direction, frame, now).Ok?
    ensures NodeTakes(view, route, direction, frame, now).value.route.Side(direction).awaitingReceipt
            == route.Side(direction).awaitingReceipt
  {
    H.AcceptedDataIsCounted(view, direction, route, frame, now);
  }

  lemma FrameAwaits(view: View, direction: Direction, route: Route, frame: Frame, now: i64)
    requires route.authorization == Some(view) && NodeTakes(view, route, direction, frame, now).Ok?
    ensures NodeTakes(view, route, direction, frame, now).value.route.Side(direction).awaitingReceipt
            == (route.Side(direction).awaitingReceipt || frame.CheckpointFrame?)
  {
    if frame.DataFrame? {
      DataAwaits(view, direction, route, frame, now);
    }
  }

  lemma NodeReadsLast(world: World, view: View, direction: Direction, now: i64)
    requires world.route.authorization == Some(view) && world.LaneIn(direction).toNode != []
    requires FinLast(world.LaneIn(direction), world.route.Side(direction)) && Next(world, NodeReads(direction, now)).Ok?
    ensures var after := Next(world, NodeReads(direction, now)).value;
            FinLast(after.LaneIn(direction), after.route.Side(direction))
  {
    var lane := world.LaneIn(direction);
    var after := Next(world, NodeReads(direction, now)).value;
    FrameAwaits(view, direction, world.route, lane.toNode[0], now);
    ReadLast(lane, world.route.Side(direction), after.LaneIn(direction), after.route.Side(direction));
  }

  lemma SenderReadsLast(world: World, view: View, direction: Direction, now: i64)
    requires world.route.authorization == Some(view) && world.LaneIn(direction).toSender != []
    requires FinLast(world.LaneIn(direction), world.route.Side(direction))
    requires Next(world, SenderReads(direction, now)).Ok?
    ensures var after := Next(world, SenderReads(direction, now)).value;
            FinLast(after.LaneIn(direction), after.route.Side(direction))
  {
    var lane := world.LaneIn(direction);
    var read := SenderTakes(view, direction, world.SenderReady(direction), lane.sender, lane.toSender[0], now).value;
    ReplyLast(lane, world.route.Side(direction),
              Next(world, SenderReads(direction, now)).value.LaneIn(direction), read.reply);
  }

  lemma SendsLast(world: World, view: View, direction: Direction, payload: seq<byte>, now: i64)
    requires H.Inv(world, view) && Enabled(world, SendFin(direction, payload, now))
    ensures var after := Next(world, SendFin(direction, payload, now)).value;
            FinLast(after.LaneIn(direction), after.route.Side(direction))
  {
    var lane := world.LaneIn(direction);
    var sender := AdvanceOutgoing(lane.sender, payload, now).value;
    H.LaneHolds(world, view, direction);
    SendFinLast(view, direction, lane, world.route.Side(direction),
                Next(world, SendFin(direction, payload, now)).value.LaneIn(direction),
                [DataFrame(sender.prefix.sequence, payload), IntentFrame(IntentFor(view, direction, sender, now))]);
  }

  lemma TicksLast(world: World, view: View, direction: Direction, now: i64)
    requires world.route.authorization == Some(view) && FinLast(world.LaneIn(direction), world.route.Side(direction))
    ensures var after := Next(world, NodeTicks(direction, now)).value;
            FinLast(after.LaneIn(direction), after.route.Side(direction))
  {
  }

  lemma ReceiverLast(world: World, view: View, direction: Direction, now: i64)
    requires world.route.authorization == Some(view) && world.LaneIn(direction).toReceiver != []
    requires FinLast(world.LaneIn(direction), world.route.Side(direction))
    requires Next(world, ReceiverReads(direction, now)).Ok?
    ensures var after := Next(world, ReceiverReads(direction, now)).value;
            FinLast(after.LaneIn(direction), after.route.Side(direction))
  {
    H.ReceiverNext(world, view, direction, now);
  }

  lemma ReceiptLast(world: World, view: View, direction: Direction, now: i64)
    requires world.route.authorization == Some(view) && world.LaneIn(direction).fromReceiver != []
    requires FinLast(world.LaneIn(direction), world.route.Side(direction))
    requires Next(world, NodeReadsReceipt(direction, now)).Ok?
    ensures var after := Next(world, NodeReadsReceipt(direction, now)).value;
            FinLast(after.LaneIn(direction), after.route.Side(direction))
  {
  }

  lemma StepLast(world: World, view: View, action: Action)
    requires H.Inv(world, view) && Enabled(world, action) && Next(world, action).Ok? && !action.Establishes?
    requires FinLast(world.LaneIn(action.direction), world.route.Side(action.direction))
    ensures var after := Next(world, action).value;
            FinLast(after.LaneIn(action.direction), after.route.Side(action.direction))
  {
    match action
    case NodeReads(direction, now) => NodeReadsLast(world, view, direction, now);
    case SenderReads(direction, now) => SenderReadsLast(world, view, direction, now);
    case SendFin(direction, payload, now) => SendsLast(world, view, direction, payload, now);
    case SendRecord(direction, payload, now) =>
    case NodeTicks(direction, now) => TicksLast(world, view, direction, now);
    case ReceiverReads(direction, now) => ReceiverLast(world, view, direction, now);
    case NodeReadsReceipt(direction, now) => ReceiptLast(world, view, direction, now);
  }

  // ---- Runs ----

  lemma NextSafe(world: World, view: View, action: Action)
    requires world.route.authorization == Some(view) && Enabled(world, action) && Next(world, action).Ok?
    requires Safe(world.route)
    ensures Safe(Next(world, action).value.route)
  {
    match action
    case NodeReads(direction, now) =>
      var frame := world.LaneIn(direction).toNode[0];
      match frame {
        case DataFrame(sequence, payload) => DataSafe(world.route, direction, sequence, payload, now);
        case CheckpointFrame(_, checkpoint, finalFlag) =>
          CheckpointSafe(world.route, direction, checkpoint, finalFlag, now);
        case IntentFrame(intent) => CloseIntentSafe(world.route, direction, intent, view.Sender(direction), now);
      }
    case NodeTicks(direction, now) => StepSafe(world.route, TimerTicks(direction, now));
    case NodeReadsReceipt(direction, now) =>
      ReceiptSafe(world.route, direction, world.LaneIn(direction).fromReceiver[0].receipt, now);
    case _ =>
  }

  lemma SenderStepInStep(world: World, view: View, direction: Direction, now: i64)
    requires Paced(world, view) && world.LaneIn(direction).toSender != []
    requires Next(world, SenderReads(direction, now)).Ok?
    ensures var after := Next(world, SenderReads(direction, now)).value;
            InStep(after.LaneIn(direction), after.route.Side(direction), view.authorization.windowBytes)
  {
    H.LaneHolds(world, view, direction);
    H.SenderNext(world, view, direction, now);
    SenderReadsInStep(view, direction, world.LaneIn(direction), world.route.Side(direction), now);
  }

  lemma SendRecordInStep(world: World, view: View, direction: Direction, payload: seq<byte>, now: i64)
    requires Paced(world, view) && Enabled(world, SendRecord(direction, payload, now))
    requires PacedAction(world, view, SendRecord(direction, payload, now))
    ensures var after := Next(world, SendRecord(direction, payload, now)).value;
            InStep(after.LaneIn(direction), after.route.Side(direction), view.authorization.windowBytes)
  {
    SendInStep(view, world.LaneIn(direction), world.route.Side(direction), now, payload,
               Next(world, SendRecord(direction, payload, now)).value.LaneIn(direction));
  }

  lemma SendFinInStep(world: World, view: View, direction: Direction, payload: seq<byte>, now: i64)
    requires Paced(world, view) && Enabled(world, SendFin(direction, payload, now))
    ensures var after := Next(world, SendFin(direction, payload, now)).value;
            InStep(after.LaneIn(direction), after.route.Side(direction), view.authorization.windowBytes)
  {
    FinInStep(view, world.LaneIn(direction), world.route.Side(direction), now, payload,
              Next(world, SendFin(direction, payload, now)).value.LaneIn(direction));
  }

  lemma PacedLane(world: World, view: View, direction: Direction)
    requires Paced(world, view)
    ensures InStep(world.LaneIn(direction), world.route.Side(direction), view.authorization.windowBytes)
  {
  }

  lemma ReceiverLeavesSender(world: World, view: View, direction: Direction, now: i64)
    requires world.route.authorization == Some(view) && world.LaneIn(direction).toReceiver != []
    requires Next(world, ReceiverReads(direction, now)).Ok?
    ensures var lane, after := world.LaneIn(direction), Next(world, ReceiverReads(direction, now)).value;
            && after.route == world.route && after.LaneIn(direction).sender == lane.sender
            && after.LaneIn(direction).localFin == lane.localFin && after.LaneIn(direction).dataBytes == lane.dataBytes
            && after.LaneIn(direction).toSender == lane.toSender
  {
    H.ReceiverNext(world, view, direction, now);
  }

  lemma SameSender(lane: Lane, after: Lane, node: NodeDirection, windowBytes: u64)
    requires InStep(lane, node, windowBytes) && after.sender == lane.sender && after.localFin == lane.localFin
    requires after.dataBytes == lane.dataBytes && after.toSender == lane.toSender
    ensures InStep(after, node, windowBytes)
  {
  }

  lemma ReceiverStepInStep(world: World, view: View, direction: Direction, now: i64)
    requires Paced(world, view) && world.LaneIn(direction).toReceiver != []
    requires Next(world, ReceiverReads(direction, now)).Ok?
    ensures var after := Next(world, ReceiverReads(direction, now)).value;
            InStep(after.LaneIn(direction), after.route.Side(direction), view.authorization.windowBytes)
  {
    PacedLane(world, view, direction);
    ReceiverLeavesSender(world, view, direction, now);
    SameSender(world.LaneIn(direction), Next(world, ReceiverReads(direction, now)).value.LaneIn(direction),
               world.route.Side(direction), view.authorization.windowBytes);
  }

  lemma FrameInStep(world: World, view: View, direction: Direction, now: i64)
    requires Paced(world, view) && world.LaneIn(direction).toNode != [] && Next(world, NodeReads(direction, now)).Ok?
    ensures var after := Next(world, NodeReads(direction, now)).value;
            InStep(after.LaneIn(direction), after.route.Side(direction), view.authorization.windowBytes)
  {
    var lane := world.LaneIn(direction);
    H.LaneHolds(world, view, direction);
    FrameSteady(view, direction, lane, world.route, now);
    NodeReadsInStep(view, direction, lane, world.route.Side(direction),
                    NodeTakes(view, world.route, direction, lane.toNode[0], now).value,
                    Next(world, NodeReads(direction, now)).value.LaneIn(direction), now);
  }

  lemma TimerInStep(world: World, view: View, direction: Direction, now: i64)
    requires Paced(world, view)
    ensures var after := Next(world, NodeTicks(direction, now)).value;
            InStep(after.LaneIn(direction), after.route.Side(direction), view.authorization.windowBytes)
  {
    H.LaneHolds(world, view, direction);
    TickInStep(view, direction, world.LaneIn(direction), world.route, now);
  }

  lemma ReceiptStepInStep(world: World, view: View, direction: Direction, now: i64)
    requires Paced(world, view) && world.LaneIn(direction).fromReceiver != []
    requires Next(world, NodeReadsReceipt(direction, now)).Ok?
    ensures var after := Next(world, NodeReadsReceipt(direction, now)).value;
            InStep(after.LaneIn(direction), after.route.Side(direction), view.authorization.windowBytes)
  {
    H.LaneHolds(world, view, direction);
    assert SideSafe(world.route.Side(direction), view.authorization.windowBytes);
    ReceiptInStep(view, direction, world.LaneIn(direction), world.route, now);
  }

  lemma ActionStaysInLane(world: World, view: View, action: Action)
    requires world.route.authorization == Some(view) && Enabled(world, action) && !action.Establishes?
    requires Next(world, action).Ok?
    ensures H.OnlySide(world.route, Next(world, action).value.route, action.direction)
    ensures Next(world, action).value.LaneIn(H.Opposite(action.direction)) == world.LaneIn(H.Opposite(action.direction))
  {
    var direction := action.direction;
    match action
    case NodeReads(_, now) => H.FrameStaysInLane(view, world.route, direction, world.LaneIn(direction).toNode[0], now);
    case NodeReadsReceipt(_, now) =>
      H.ReceiptStaysInLane(world.route, direction, world.LaneIn(direction).fromReceiver[0].receipt, now);
    case _ =>
  }

  lemma PacedHolds(before: World, after: World, view: View, direction: Direction)
    requires Paced(before, view) && H.Inv(after, view) && Safe(after.route)
    requires H.OnlySide(before.route, after.route, direction)
    requires after.LaneIn(H.Opposite(direction)) == before.LaneIn(H.Opposite(direction))
    requires InStep(after.LaneIn(direction), after.route.Side(direction), view.authorization.windowBytes)
    requires FinLast(after.LaneIn(direction), after.route.Side(direction))
    ensures Paced(after, view)
  {
  }

  /** The acting direction of a paced step stays in step. */
  lemma ActingDirection(world: World, view: View, action: Action)
    requires Paced(world, view) && Enabled(world, action) && PacedAction(world, view, action)
    requires Next(world, action).Ok? && !action.Establishes?
    ensures var after := Next(world, action).value;
            InStep(after.LaneIn(action.direction), after.route.Side(action.direction), view.authorization.windowBytes)
  {
    match action
    case SendRecord(direction, payload, now) => SendRecordInStep(world, view, direction, payload, now);
    case SendFin(direction, payload, now) => SendFinInStep(world, view, direction, payload, now);
    case NodeReads(direction, now) => FrameInStep(world, view, direction, now);
    case NodeTicks(direction, now) => TimerInStep(world, view, direction, now);
    case ReceiverReads(direction, now) => ReceiverStepInStep(world, view, direction, now);
    case NodeReadsReceipt(direction, now) => ReceiptStepInStep(world, view, direction, now);
    case SenderReads(direction, now) => SenderStepInStep(world, view, direction, now);
  }

  lemma PacedStep(world: World, view: View, action: Action)
    requires Paced(world, view) && Enabled(world, action) && PacedAction(world, view, action) && Next(world, action).Ok?
    ensures Paced(Next(world, action).value, view)
  {
    H.StepKeeps(world, view, action);
    NextSafe(world, view, action);
    if !action.Establishes? {
      ActingDirection(world, view, action);
      StepLast(world, view, action);
      ActionStaysInLane(world, view, action);
      PacedHolds(world, Next(world, action).value, view, action.direction);
    }
  }

  lemma BytesRaiseData(view: View, direction: Direction, route: Route, frame: Frame, now: i64)
    requires route.authorization == Some(view) && SideSafe(route.Side(direction), view.authorization.windowBytes)
    requires RaisedByBytes(route.Side(direction), view.authorization.windowBytes)
    requires frame.DataFrame? && NodeTakes(view, route, direction, frame, now).Ok?
    ensures RaisedByBytes(NodeTakes(view, route, direction, frame, now).value.route.Side(direction),
                          view.authorization.windowBytes)
  {
    H.AcceptedDataIsCounted(view, direction, route, frame, now);
  }

  lemma BytesRaiseOther(view: View, direction: Direction, route: Route, frame: Frame, now: i64)
    requires route.authorization == Some(view) && RaisedByBytes(route.Side(direction), view.authorization.windowBytes)
    requires !frame.DataFrame? && NodeTakes(view, route, direction, frame, now).Ok?
    ensures RaisedByBytes(NodeTakes(view, route, direction, frame, now).value.route.Side(direction),
                          view.authorization.windowBytes)
  {
  }

  lemma BytesRaiseNode(world: World, view: View, direction: Direction, now: i64)
    requires Paced(world, view) && ByBytes(world, view)
    requires world.LaneIn(direction).toNode != [] && Next(world, NodeReads(direction, now)).Ok?
    ensures var after := Next(world, NodeReads(direction, now)).value;
            RaisedByBytes(after.route.Side(direction), view.authorization.windowBytes)
  {
    var lane := world.LaneIn(direction);
    H.LaneHolds(world, view, direction);
    if lane.toNode[0].DataFrame? {
      BytesRaiseData(view, direction, world.route, lane.toNode[0], now);
    } else {
      BytesRaiseOther(view, direction, world.route, lane.toNode[0], now);
    }
  }

  /** After a receipt only a final request can be out. */
  lemma ReceiptRaisesFinal(route: Route, direction: Direction, receipt: ReceiverReceipt, now: i64, windowBytes: u64)
    requires AcceptReceipt(route, direction, receipt, now).Ok?
    ensures RaisedByBytes(AcceptReceipt(route, direction, receipt, now).value.route.Side(direction), windowBytes)
  {
  }

  lemma BytesRaiseReceipt(world: World, view: View, direction: Direction, now: i64)
    requires Paced(world, view) && ByBytes(world, view)
    requires world.LaneIn(direction).fromReceiver != [] && Next(world, NodeReadsReceipt(direction, now)).Ok?
    ensures var after := Next(world, NodeReadsReceipt(direction, now)).value;
            RaisedByBytes(after.route.Side(direction), view.authorization.windowBytes)
  {
    ReceiptRaisesFinal(world.route, direction, world.LaneIn(direction).fromReceiver[0].receipt, now,
                       view.authorization.windowBytes);
  }

  /** The members' own steps leave the Node's requests as they are. */
  lemma BytesRaiseMember(world: World, view: View, action: Action)
    requires world.route.authorization == Some(view) && ByBytes(world, view) && Enabled(world, action)
    requires Next(world, action).Ok?
    requires action.SendRecord? || action.SendFin? || action.ReceiverReads? || action.SenderReads?
    ensures ByBytes(Next(world, action).value, view)
  {
  }

  lemma BytesHold(before: World, after: World, view: View, direction: Direction)
    requires ByBytes(before, view) && H.OnlySide(before.route, after.route, direction)
    requires after.LaneIn(H.Opposite(direction)) == before.LaneIn(H.Opposite(direction))
    requires RaisedByBytes(after.route.Side(direction), view.authorization.windowBytes)
    ensures ByBytes(after, view)
  {
  }

  lemma BytesRaiseStep(world: World, view: View, action: Action)
    requires Paced(world, view) && ByBytes(world, view) && Enabled(world, action) && Next(world, action).Ok?
    requires !action.NodeTicks?
    ensures ByBytes(Next(world, action).value, view)
  {
    if action.NodeReads? || action.NodeReadsReceipt? {
      ActionStaysInLane(world, view, action);
      if action.NodeReads? {
        BytesRaiseNode(world, view, action.direction, action.now);
      } else {
        BytesRaiseReceipt(world, view, action.direction, action.now);
      }
      BytesHold(world, Next(world, action).value, view, action.direction);
    } else if !action.Establishes? {
      BytesRaiseMember(world, view, action);
    }
  }

  /** A run whose senders keep to their allowance; `timed` says whether the timer may raise requests. */
  ghost predicate PacedRun(start: World, view: View, actions: seq<Action>, timed: bool, end: World)
    decreases |actions|
  {
    if actions == [] then start == end
    else
      var last := |actions| - 1;
      exists before: World ::
        && PacedRun(start, view, actions[..last], timed, before)
        && before.route.authorization.Some? && Enabled(before, actions[last])
        && PacedAction(before, view, actions[last]) && (actions[last].NodeTicks? ==> timed)
        && Next(before, actions[last]) == Ok(end)
  }

  lemma {:induction false} PacedRunsStayInStep(start: World, view: View, actions: seq<Action>, timed: bool, end: World)
    requires Start(start, view) && PacedRun(start, view, actions, timed, end)
    ensures Paced(end, view) && (!timed ==> ByBytes(end, view))
    decreases |actions|
  {
    if actions == [] {
      H.StartInv(start, view);
      OpenedRouteSafe(start.route, view);
    } else {
      var last := |actions| - 1;
      var before: World :| && PacedRun(start, view, actions[..last], timed, before)
                           && before.route.authorization.Some? && Enabled(before, actions[last])
                           && PacedAction(before, view, actions[last]) && (actions[last].NodeTicks? ==> timed)
                           && Next(before, actions[last]) == Ok(end);
      PacedRunsStayInStep(start, view, actions[..last], timed, before);
      PacedStep(before, view, actions[last]);
      if !timed {
        BytesRaiseStep(before, view, actions[last]);
      }
    }
  }

  /** When a sender within its allowance is refused. At any point of any paced run the Node's window test turns away
      the next DATA frame exactly when a request is outstanding and either the second window has timed out or, with the
      sender's checkpoint not yet at the Node, the frame runs more than one window past the requested prefix; or when
      the frame is FIN and passes two windows. Where requests are raised only by bytes, the byte case never arises. */
  lemma PacedWindowVerdict(start: World, view: View, actions: seq<Action>, timed: bool, world: World,
                           direction: Direction,
                           now: i64)
    requires Start(start, view) && PacedRun(start, view, actions, timed, world)
    requires var lane := world.LaneIn(direction); lane.toNode != [] && lane.toNode[0].DataFrame?
    ensures var node := world.route.Side(direction);
            var more := |world.LaneIn(direction).toNode[0].payload|;
            && more <= MAX_FRAME_PAYLOAD
            && (AcceptsMoreData(node, view.authorization.windowBytes, view.authorization.windowSeconds, more, now)
                <==> && !WindowShut(node, view.authorization.windowBytes, view.authorization.windowSeconds, more, now)
                     && WithinRisk(node, view.authorization.windowBytes, more))
            && (node.prefix.bytes + more <= world.LaneIn(direction).dataBytes ==>
                  WithinRisk(node, view.authorization.windowBytes, more))
            && (!timed ==>
                  (AcceptsMoreData(node, view.authorization.windowBytes, view.authorization.windowSeconds, more, now)
                   <==> && !(node.checkpointRequest.Some?
                             && WindowTimedOut(node, view.authorization.windowSeconds, now))
                        && WithinRisk(node, view.authorization.windowBytes, more)))
  {
    PacedRunsStayInStep(start, view, actions, timed, world);
    H.LaneHolds(world, view, direction);
    WindowVerdict(view, direction, world.LaneIn(direction), world.route.Side(direction), now);
    if !timed {
      ByteWindowsNeverShut(view, direction, world.LaneIn(direction), world.route.Side(direction), now);
    }
  }

  // ---- The handshake ----

  /** Until a member is past its handshake it has had no receipt and signed nothing, and each record is one frame. */
  ghost predicate Greeting(world: World, view: View, direction: Direction) {
    var sender, settled := world.LaneIn(direction).sender, view.authorization.SettledIn(direction);
    !world.SenderReady(direction) ==>
      && sender.receiptedBytes == settled.bytes && !sender.awaitingReceipt && settled.sequence <= sender.prefix.sequence
      && sender.prefix.bytes - settled.bytes <= (sender.prefix.sequence - settled.sequence) * MAX_FRAME_PAYLOAD
  }

  lemma RecordGreets(before: StreamDirection, payload: seq<byte>, now: i64, settled: Settled)
    requires AdvanceOutgoing(before, payload, now).Ok? && |payload| <= MAX_FRAME_PAYLOAD
    requires settled.sequence <= before.prefix.sequence
    requires before.prefix.bytes - settled.bytes <= (before.prefix.sequence - settled.sequence) * MAX_FRAME_PAYLOAD
    ensures var after := AdvanceOutgoing(before, payload, now).value;
            after.prefix.bytes - settled.bytes <= (after.prefix.sequence - settled.sequence) * MAX_FRAME_PAYLOAD
  {
  }

  lemma SenderStays(world: World, view: View, action: Action, direction: Direction)
    requires world.route.authorization == Some(view) && Enabled(world, action) && Next(world, action).Ok?
    requires !Next(world, action).value.SenderReady(direction)
    requires !(action.SendRecord? && action.direction == direction)
    ensures !world.SenderReady(direction)
    ensures Next(world, action).value.LaneIn(direction).sender == world.LaneIn(direction).sender
  {
    if action.SenderReads? {
      H.SenderNext(world, view, action.direction, action.now);
    }
  }

  lemma GreetingStep(world: World, view: View, action: Action, direction: Direction)
    requires world.route.authorization == Some(view) && Enabled(world, action) && Next(world, action).Ok?
    requires Greeting(world, view, direction)
    ensures Greeting(Next(world, action).value, view, direction)
  {
    if !Next(world, action).value.SenderReady(direction) {
      if action.SendRecord? && action.direction == direction {
        RecordGreets(world.LaneIn(direction).sender, action.payload, action.now,
                     view.authorization.SettledIn(direction));
      } else {
        SenderStays(world, view, action, direction);
      }
    }
  }

  lemma {:induction false} GreetingHolds(start: World, view: View, actions: seq<Action>, timed: bool, end: World,
                                         direction: Direction)
    requires Start(start, view) && PacedRun(start, view, actions, timed, end)
    ensures Greeting(end, view, direction) && end.route.authorization == Some(view)
    decreases |actions|
  {
    if actions != [] {
      var last := |actions| - 1;
      var before: World :| && PacedRun(start, view, actions[..last], timed, before)
                           && before.route.authorization.Some? && Enabled(before, actions[last])
                           && PacedAction(before, view, actions[last]) && (actions[last].NodeTicks? ==> timed)
                           && Next(before, actions[last]) == Ok(end);
      GreetingHolds(start, view, actions[..last], timed, before, direction);
      GreetingStep(before, view, actions[last], direction);
      PacedRunsStayInStep(start, view, actions, timed, end);
    }
  }

  /** Before its first receipt a member may always add one frame to one frame. */
  lemma FirstFramesAllowed(sender: StreamDirection, windowBytes: u64, windowSeconds: i64, now: i64)
    requires !sender.awaitingReceipt && sender.prefix.bytes - sender.receiptedBytes <= MAX_FRAME_PAYLOAD <= windowBytes
    ensures MAX_FRAME_PAYLOAD <= OutgoingWriteAllowance(sender, windowBytes, windowSeconds, now)
  {
  }

  lemma GreetingAllows(world: World, view: View, direction: Direction, payload: seq<byte>, now: i64)
    requires Greeting(world, view, direction) && !world.SenderReady(direction) && |payload| <= MAX_FRAME_PAYLOAD
    requires world.LaneIn(direction).sender.prefix.sequence <= view.authorization.SettledIn(direction).sequence + 1
    requires view.authorization.windowBytes >= MAX_FRAME_PAYLOAD
    ensures PacedAction(world, view, SendRecord(direction, payload, now))
  {
    FirstFramesAllowed(world.LaneIn(direction).sender, view.authorization.windowBytes,
                       view.authorization.windowSeconds, now);
  }

  /** The two records a member sends before it is past its handshake are within the allowance by themselves, since a
      window is never smaller than a frame. So nothing is asked of the handshake by asking it to be paced. */
  lemma HandshakeIsPaced(start: World, view: View, actions: seq<Action>, timed: bool, world: World,
                         direction: Direction, payload: seq<byte>, now: i64)
    requires Start(start, view) && PacedRun(start, view, actions, timed, world)
    requires !world.SenderReady(direction) && |payload| <= MAX_FRAME_PAYLOAD
    requires world.LaneIn(direction).sender.prefix.sequence <= view.authorization.SettledIn(direction).sequence + 1
    requires view.authorization.windowBytes >= MAX_FRAME_PAYLOAD
    ensures PacedAction(world, view, SendRecord(direction, payload, now))
  {
    GreetingHolds(start, view, actions, timed, world, direction);
    GreetingAllows(world, view, direction, payload, now);
  }
}
