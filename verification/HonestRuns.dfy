/** What every run of honest parties keeps, and exactly which frames can still
    be refused. */
module HonestRuns {
  import opened MachineInts
  import opened RelayModel
  import opened NodeRelay
  import opened StreamChannel
  import opened Agreement

  ghost predicate HonestCheckpoint(view: View, direction: Direction, checkpoint: SenderCheckpoint) {
    && checkpoint.body.binding == view.BindingFor(direction)
    && checkpoint.body.senderMember == view.Sender(direction)
    && checkpoint.signature == CheckpointSignature(view.SenderKey(direction), checkpoint.body)
  }

  ghost predicate HonestReceipt(view: View, direction: Direction, receipt: ReceiverReceipt,
                                checkpoint: SenderCheckpoint) {
    receipt == SignReceipt(view, direction, checkpoint, receipt.body.receivedAt)
  }

  /** The receiver signed no earlier than the sender, and within the slack. */
  predicate Prompt(receipt: ReceiverReceipt, checkpoint: SenderCheckpoint) {
    && receipt.body.receivedAt >= checkpoint.body.checkpointAt
    && SatSubI64(receipt.body.receivedAt, checkpoint.body.checkpointAt) <= CLOCK_SLACK_SECONDS
  }

  /** Dated no more than the slack ahead of a clock. */
  predicate NotAhead(at: i64, now: i64) {
    at <= SatAddI64(now, CLOCK_SLACK_SECONDS)
  }

  /** FIN has been counted and its CloseIntent handled. */
  ghost predicate Closed(lane: Lane) {
    lane.localFin && NoIntent(lane.toNode)
  }

  ghost predicate OpenRequest(view: View, direction: Direction, request: CheckpointRequest,
                              counted: Prefix, lane: Lane) {
    && request.authorizationId == view.authorization.authorizationId
    && request.sessionId == view.authorization.sessionId
    && request.direction == direction
    && SameOrLater(request.prefix, counted)
    && (request.final ==> request.prefix == counted && Closed(lane))
  }

  ghost predicate NothingAfterIntent(link: seq<Frame>) {
    forall i, j :: 0 <= i < j < |link| && link[i].IntentFrame? ==> !link[j].DataFrame? && !link[j].IntentFrame?
  }

  ghost predicate HonestIntent(view: View, direction: Direction, intent: CloseIntent) {
    && intent.authorizationId == view.authorization.authorizationId
    && intent.sessionId == view.authorization.sessionId
    && intent.direction == direction
  }

  /** A sender that has sent FIN is done, and says so once, after all its DATA. */
  ghost predicate Closing(view: View, direction: Direction, lane: Lane) {
    && (forall frame :: frame in lane.toNode && frame.IntentFrame? ==> HonestIntent(view, direction, frame.intent))
    && (!lane.localFin ==> NoIntent(lane.toNode))
    && (Closed(lane) ==> NoData(lane.toNode))
    && NothingAfterIntent(lane.toNode)
  }

  /** Two parties agree up to the frames between them. */
  ghost predicate Agree(lane: Lane, counted: Prefix) {
    && Leads(counted, lane.toNode, lane.sender.prefix)
    && Leads(lane.receiver.prefix, lane.toReceiver, counted)
    && NoIntent(lane.toReceiver)
  }

  /** Toward the sender travel at most the receipt it awaits and then `rest`. */
  ghost predicate Owed(view: View, direction: Direction, lane: Lane, rest: seq<Frame>) {
    if lane.sender.awaitingReceipt then
      && lane.sender.pendingCheckpoint.Some?
      && lane.toSender != [] && lane.toSender == [lane.toSender[0]] + rest
      && lane.toSender[0].ReceiptFrame?
      && HonestCheckpoint(view, direction, lane.sender.pendingCheckpoint.value)
      && HonestReceipt(view, direction, lane.toSender[0].receipt, lane.sender.pendingCheckpoint.value)
      && Prompt(lane.toSender[0].receipt, lane.sender.pendingCheckpoint.value)
    else lane.toSender == rest
  }

  ghost predicate NoneInFlight(lane: Lane, node: NodeDirection) {
    && !node.awaitingReceipt && node.pendingCheckpoint.None?
    && Checkpoints(lane.toNode) == [] && Checkpoints(lane.toReceiver) == [] && lane.fromReceiver == []
  }

  ghost predicate Idle(view: View, direction: Direction, lane: Lane, node: NodeDirection) {
    && node.checkpointRequest.None? && NoneInFlight(lane, node) && Owed(view, direction, lane, [])
  }

  ghost predicate Requested(view: View, direction: Direction, lane: Lane, node: NodeDirection) {
    && node.checkpointRequest.Some? && NoneInFlight(lane, node)
    && Owed(view, direction, lane, [RequestFrame(node.checkpointRequest.value)])
  }

  /** The sender's checkpoint answers the open request. */
  ghost predicate Answering(view: View, direction: Direction, lane: Lane, node: NodeDirection) {
    && node.checkpointRequest.Some?
    && lane.sender.awaitingReceipt && lane.sender.pendingCheckpoint.Some? && lane.toSender == []
    && var checkpoint := lane.sender.pendingCheckpoint.value;
       && HonestCheckpoint(view, direction, checkpoint)
       && checkpoint.body.final == node.checkpointRequest.value.final
  }

  ghost predicate Signed(view: View, direction: Direction, lane: Lane, node: NodeDirection) {
    && Answering(view, direction, lane, node)
    && !node.awaitingReceipt && node.pendingCheckpoint.None?
    && Checkpoints(lane.toNode) == [lane.sender.pendingCheckpoint.value]
    && Checkpoints(lane.toReceiver) == [] && lane.fromReceiver == []
  }

  ghost predicate AtReceiver(view: View, direction: Direction, lane: Lane, node: NodeDirection) {
    && Answering(view, direction, lane, node)
    && node.awaitingReceipt && node.pendingCheckpoint == lane.sender.pendingCheckpoint
    && Checkpoints(lane.toNode) == []
    && Checkpoints(lane.toReceiver) == [lane.sender.pendingCheckpoint.value] && lane.fromReceiver == []
  }

  ghost predicate Countersigned(view: View, direction: Direction, lane: Lane, node: NodeDirection) {
    && Answering(view, direction, lane, node)
    && node.awaitingReceipt && node.pendingCheckpoint == lane.sender.pendingCheckpoint
    && Checkpoints(lane.toNode) == [] && Checkpoints(lane.toReceiver) == []
    && |lane.fromReceiver| == 1 && lane.fromReceiver[0].ReceiptFrame?
    && HonestReceipt(view, direction, lane.fromReceiver[0].receipt, lane.sender.pendingCheckpoint.value)
  }

  /** One exchange at a time, at one of five places. */
  ghost predicate OneExchange(view: View, direction: Direction, lane: Lane, node: NodeDirection) {
    || Idle(view, direction, lane, node)
    || Requested(view, direction, lane, node)
    || Signed(view, direction, lane, node)
    || AtReceiver(view, direction, lane, node)
    || Countersigned(view, direction, lane, node)
  }

  ghost predicate LaneInv(view: View, direction: Direction, lane: Lane, node: NodeDirection) {
    && Agree(lane, node.prefix)
    && Closing(view, direction, lane)
    && (node.closePending ==> Closed(lane))
    && (node.checkpointRequest.Some? ==> OpenRequest(view, direction, node.checkpointRequest.value, node.prefix, lane))
    && OneExchange(view, direction, lane, node)
  }

  ghost predicate Inv(world: World, view: View) {
    && world.route.authorization == Some(view)
    && world.route.accepted && !world.route.recovery
    && LaneInv(view, SenderToReceiver, world.forward, world.route.forward)
    && LaneInv(view, ReceiverToSender, world.backward, world.route.backward)
  }

  lemma StartInv(world: World, view: View)
    requires Start(world, view)
    ensures Inv(world, view)
  {
  }

  /** An exchange stays where it is while only DATA and intents move. */
  lemma ExchangeStays(view: View, direction: Direction, lane: Lane, after: Lane, node: NodeDirection,
                      later: NodeDirection)
    requires OneExchange(view, direction, lane, node)
    requires later.checkpointRequest == node.checkpointRequest
    requires later.awaitingReceipt == node.awaitingReceipt && later.pendingCheckpoint == node.pendingCheckpoint
    requires after.sender.awaitingReceipt == lane.sender.awaitingReceipt
    requires after.sender.pendingCheckpoint == lane.sender.pendingCheckpoint
    requires after.toSender == lane.toSender && after.fromReceiver == lane.fromReceiver
    requires Checkpoints(after.toNode) == Checkpoints(lane.toNode)
    requires Checkpoints(after.toReceiver) == Checkpoints(lane.toReceiver)
    ensures OneExchange(view, direction, after, later)
    ensures Idle(view, direction, lane, node) ==> Idle(view, direction, after, later)
  {
  }

  // ---- The sender ----

  lemma DataKeepsClosing(view: View, direction: Direction, lane: Lane, frame: Frame, after: Lane)
    requires Closing(view, direction, lane) && frame.DataFrame? && !lane.localFin
    requires after.toNode == lane.toNode + [frame] && !after.localFin
    ensures Closing(view, direction, after)
  {
  }

  lemma SendKeeps(view: View, direction: Direction, lane: Lane, node: NodeDirection, now: i64, payload: seq<byte>)
    requires LaneInv(view, direction, lane, node) && CanSend(lane, payload, now)
    ensures var sender := AdvanceOutgoing(lane.sender, payload, now).value;
            LaneInv(view, direction,
                    lane.(sender := sender, dataBytes := sender.prefix.bytes,
                          toNode := lane.toNode + [DataFrame(sender.prefix.sequence, payload)]), node)
  {
    var sender := AdvanceOutgoing(lane.sender, payload, now).value;
    var frame := DataFrame(sender.prefix.sequence, payload);
    assert Leads(sender.prefix, [frame][1..], sender.prefix);
    LeadsAppend(node.prefix, lane.toNode, lane.sender.prefix, frame, sender.prefix);
    CheckpointsAppend(lane.toNode, frame);
    var after := lane.(sender := sender, dataBytes := sender.prefix.bytes, toNode := lane.toNode + [frame]);
    ExchangeStays(view, direction, lane, after, node, node);
    DataKeepsClosing(view, direction, lane, frame, after);
  }

  lemma IntentKeeps(view: View, direction: Direction, lane: Lane, node: NodeDirection, now: i64)
    requires LaneInv(view, direction, lane, node) && !lane.localFin
    ensures var intent := IntentFrame(IntentFor(view, direction, lane.sender, now));
            LaneInv(view, direction, lane.(localFin := true, toNode := lane.toNode + [intent]), node)
  {
    var intent := IntentFrame(IntentFor(view, direction, lane.sender, now));
    var after := lane.(localFin := true, toNode := lane.toNode + [intent]);
    assert Leads(lane.sender.prefix, [intent][1..], lane.sender.prefix);
    LeadsAppend(node.prefix, lane.toNode, lane.sender.prefix, intent, lane.sender.prefix);
    CheckpointsAppend(lane.toNode, intent);
    assert intent in after.toNode;
    assert forall f :: f in after.toNode <==> f in lane.toNode || f == intent;
    assert Closing(view, direction, after);
    ExchangeStays(view, direction, lane, after, node, node);
  }

  /** The count of bytes before FIN is no part of the agreement. */
  lemma SameLane(view: View, direction: Direction, lane: Lane, node: NodeDirection, dataBytes: u64)
    requires LaneInv(view, direction, lane, node)
    ensures LaneInv(view, direction, lane.(dataBytes := dataBytes), node)
  {
  }

  lemma SendFinKeeps(view: View, direction: Direction, lane: Lane, node: NodeDirection, now: i64, payload: seq<byte>)
    requires LaneInv(view, direction, lane, node) && CanSend(lane, payload, now)
    ensures var sender := AdvanceOutgoing(lane.sender, payload, now).value;
            LaneInv(view, direction,
                    lane.(sender := sender, localFin := true,
                          toNode := lane.toNode + [DataFrame(sender.prefix.sequence, payload),
                                                   IntentFrame(IntentFor(view, direction, sender, now))]), node)
  {
    var sender := AdvanceOutgoing(lane.sender, payload, now).value;
    var data := DataFrame(sender.prefix.sequence, payload);
    var intent := IntentFrame(IntentFor(view, direction, sender, now));
    SendKeeps(view, direction, lane, node, now, payload);
    var sent := lane.(sender := sender, dataBytes := sender.prefix.bytes, toNode := lane.toNode + [data]);
    IntentKeeps(view, direction, sent, node, now);
    assert lane.toNode + [data, intent] == lane.toNode + [data] + [intent];
    SameLane(view, direction, sent.(localFin := true, toNode := sent.toNode + [intent]), node, lane.dataBytes);
  }

  lemma CheckpointKeepsClosing(view: View, direction: Direction, lane: Lane, frame: Frame, after: Lane)
    requires Closing(view, direction, lane) && frame.CheckpointFrame?
    requires after.toNode == lane.toNode + [frame] && after.localFin == lane.localFin
    ensures Closing(view, direction, after) && (Closed(after) <==> Closed(lane))
  {
  }

  /** A request in flight always matches what the sender has sent. */
  lemma RequestMatched(view: View, direction: Direction, lane: Lane, node: NodeDirection, now: i64)
    requires LaneInv(view, direction, lane, node) && lane.toSender != [] && lane.toSender[0].RequestFrame?
    ensures Requested(view, direction, lane, node) && !lane.sender.awaitingReceipt
    ensures lane.toSender == [RequestFrame(node.checkpointRequest.value)]
    ensures AnswerRequest(view, direction, lane.sender, node.checkpointRequest.value, now).Ok?
  {
    LeadsLater(node.prefix, lane.toNode, lane.sender.prefix);
  }

  lemma RequestAnswered(view: View, direction: Direction, lane: Lane, node: NodeDirection, now: i64)
    requires LaneInv(view, direction, lane, node) && lane.toSender != [] && lane.toSender[0].RequestFrame?
    ensures var result := SenderTakes(view, direction, true, lane.sender, lane.toSender[0], now);
            && result.Ok?
            && LaneInv(view, direction, lane.(sender := result.value.state, toSender := lane.toSender[1..],
                                              toNode := lane.toNode + result.value.reply), node)
  {
    RequestMatched(view, direction, lane, node, now);
    var result := SenderTakes(view, direction, true, lane.sender, lane.toSender[0], now).value;
    var frame := result.reply[0];
    var after := lane.(sender := result.state, toSender := [], toNode := lane.toNode + [frame]);
    assert after.toSender == lane.toSender[1..];
    assert Leads(lane.sender.prefix, [frame][1..], lane.sender.prefix);
    LeadsAppend(node.prefix, lane.toNode, lane.sender.prefix, frame, lane.sender.prefix);
    assert Agree(after, node.prefix);
    CheckpointsAppend(lane.toNode, frame);
    assert Signed(view, direction, after, node);
    CheckpointKeepsClosing(view, direction, lane, frame, after);
  }

  lemma ReceiptTaken(view: View, direction: Direction, lane: Lane, node: NodeDirection, now: i64)
    requires LaneInv(view, direction, lane, node) && lane.toSender != [] && !lane.toSender[0].RequestFrame?
    ensures var result := SenderTakes(view, direction, true, lane.sender, lane.toSender[0], now);
            && result.Ok?
            && LaneInv(view, direction, lane.(sender := result.value.state, toSender := lane.toSender[1..],
                                              toNode := lane.toNode + result.value.reply), node)
  {
    assert lane.sender.awaitingReceipt;
    var result := SenderTakes(view, direction, true, lane.sender, lane.toSender[0], now).value;
    assert lane.toNode + [] == lane.toNode;
    var after := lane.(sender := result.state, toSender := lane.toSender[1..]);
    if Idle(view, direction, lane, node) {
      assert Idle(view, direction, after, node);
    } else {
      assert Requested(view, direction, lane, node);
      assert after.toSender == [RequestFrame(node.checkpointRequest.value)];
      assert Requested(view, direction, after, node);
    }
  }

  // ---- The receiver ----

  lemma DataReceived(view: View, direction: Direction, ready: bool, lane: Lane, node: NodeDirection, now: i64)
    requires LaneInv(view, direction, lane, node) && lane.toReceiver != [] && lane.toReceiver[0].DataFrame?
    ensures var result := ReceiverTakes(view, direction, ready, lane.receiver, lane.toReceiver[0], now);
            && result.Ok? && result.value.reply == []
            && LaneInv(view, direction, lane.(receiver := result.value.state, toReceiver := lane.toReceiver[1..]), node)
  {
    assert Checkpoints(lane.toReceiver) == Checkpoints(lane.toReceiver[1..]);
    var after := lane.(receiver := ReceiverTakes(view, direction, ready, lane.receiver,
                                                 lane.toReceiver[0], now).value.state,
                       toReceiver := lane.toReceiver[1..]);
    assert Agree(after, node.prefix);
    ExchangeStays(view, direction, lane, after, node, node);
  }

  /** An honest checkpoint is countersigned exactly when the handshake is over and it is dated no more than the slack
      ahead of the receiver's clock. */
  lemma CheckpointReceived(view: View, direction: Direction, ready: bool, lane: Lane, node: NodeDirection, now: i64)
    requires LaneInv(view, direction, lane, node) && lane.toReceiver != [] && lane.toReceiver[0].CheckpointFrame?
    ensures ReceiverTakes(view, direction, ready, lane.receiver, lane.toReceiver[0], now).Ok?
            <==> ready && NotAhead(lane.toReceiver[0].checkpoint.body.checkpointAt, now)
    ensures var result := ReceiverTakes(view, direction, ready, lane.receiver, lane.toReceiver[0], now);
            result.Ok? ==>
              LaneInv(view, direction, lane.(receiver := result.value.state, toReceiver := lane.toReceiver[1..],
                                             fromReceiver := lane.fromReceiver + result.value.reply), node)
  {
    var frame := lane.toReceiver[0];
    assert Checkpoints(lane.toReceiver) == [frame.checkpoint] + Checkpoints(lane.toReceiver[1..]);
    assert AtReceiver(view, direction, lane, node);
    assert Checkpoints(lane.toReceiver)[0] == frame.checkpoint;
    if ReceiverTakes(view, direction, ready, lane.receiver, frame, now).Ok? {
      var result := ReceiverTakes(view, direction, ready, lane.receiver, frame, now).value;
      var after := lane.(receiver := result.state, toReceiver := lane.toReceiver[1..], fromReceiver := result.reply);
      assert lane.fromReceiver + result.reply == result.reply;
      assert Agree(after, node.prefix);
      assert Countersigned(view, direction, after, node);
    }
  }

  lemma ReceiverAgrees(view: View, direction: Direction, ready: bool, lane: Lane, node: NodeDirection, now: i64)
    requires LaneInv(view, direction, lane, node) && lane.toReceiver != []
    ensures ReceiverTakes(view, direction, ready, lane.receiver, lane.toReceiver[0], now).Ok?
            <==> (lane.toReceiver[0].CheckpointFrame? ==>
                    ready && NotAhead(lane.toReceiver[0].checkpoint.body.checkpointAt, now))
    ensures var result := ReceiverTakes(view, direction, ready, lane.receiver, lane.toReceiver[0], now);
            result.Ok? ==>
              LaneInv(view, direction, lane.(receiver := result.value.state, toReceiver := lane.toReceiver[1..],
                                             fromReceiver := lane.fromReceiver + result.value.reply), node)
  {
    assert lane.toReceiver[0] in lane.toReceiver;
    if lane.toReceiver[0].CheckpointFrame? {
      CheckpointReceived(view, direction, ready, lane, node, now);
    } else {
      DataReceived(view, direction, ready, lane, node, now);
      assert lane.fromReceiver + [] == lane.fromReceiver;
    }
  }

  // ---- The Node ----

  /** Raising a request from rest opens the one exchange. */
  lemma RequestRaised(view: View, direction: Direction, lane: Lane, node: NodeDirection, final: bool, now: i64)
    requires Idle(view, direction, lane, node)
    ensures var due := Schedule(view, direction, node, final, now);
            Requested(view, direction, lane.(toSender := lane.toSender + Asked(due.checkpointRequest)), due)
  {
  }

  lemma TickKeeps(view: View, direction: Direction, lane: Lane, route: Route, now: i64)
    requires route.authorization == Some(view) && LaneInv(view, direction, lane, route.Side(direction))
    ensures var ticked := TickDirection(route, direction, now);
            LaneInv(view, direction, lane.(toSender := lane.toSender + Asked(ticked.request)),
                    ticked.route.Side(direction))
  {
    var ticked := TickDirection(route, direction, now);
    var node := route.Side(direction);
    if ticked.request.Some? {
      RequestRaised(view, direction, lane, node, false, now);
    } else {
      assert lane.toSender + [] == lane.toSender;
    }
  }

  /** Taking a frame off the sender's link keeps what is said about closing. */
  lemma TailKeepsClosing(view: View, direction: Direction, lane: Lane, after: Lane)
    requires Closing(view, direction, lane) && lane.toNode != []
    requires after.toNode == lane.toNode[1..] && after.localFin == lane.localFin
    ensures Closing(view, direction, after)
    ensures lane.toNode[0].IntentFrame? ==> Closed(after) && NoData(after.toNode)
    ensures Closed(lane) ==> Closed(after)
  {
  }

  lemma DataForwarded(view: View, direction: Direction, lane: Lane, counted: Prefix, frame: Frame)
    requires Agree(lane, counted) && lane.toNode != [] && frame == lane.toNode[0] && frame.DataFrame?
    ensures counted.bytes + |frame.payload| <= U64_MAX && counted.sequence < U64_MAX
    ensures frame.sequence == counted.sequence + 1
    ensures var next := Advance(counted, frame.sequence, frame.payload);
            && Leads(next, lane.toNode[1..], lane.sender.prefix)
            && Leads(lane.receiver.prefix, lane.toReceiver + [frame], next)
            && NoIntent(lane.toReceiver + [frame])
            && Checkpoints(lane.toReceiver + [frame]) == Checkpoints(lane.toReceiver)
            && Checkpoints(lane.toNode[1..]) == Checkpoints(lane.toNode)
            && SameOrLater(counted, next)
  {
    var next := Advance(counted, frame.sequence, frame.payload);
    assert Leads(next, [frame][1..], next);
    LeadsAppend(lane.receiver.prefix, lane.toReceiver, counted, frame, next);
    CheckpointsAppend(lane.toReceiver, frame);
    assert Checkpoints(lane.toNode) == [] + Checkpoints(lane.toNode[1..]);
  }

  function Counted(node: NodeDirection, frame: Frame, now: i64): NodeDirection
    requires frame.DataFrame? && node.prefix.bytes + |frame.payload| <= U64_MAX
  {
    node.(prefix := Advance(node.prefix, frame.sequence, frame.payload),
          windowStartedAt := if node.windowStartedAt.Some? then node.windowStartedAt else Some(now))
  }

  lemma AcceptedDataIsCounted(view: View, direction: Direction, route: Route, frame: Frame, now: i64)
    requires route.authorization == Some(view) && frame.DataFrame? && NodeTakes(view, route, direction, frame, now).Ok?
    ensures route.Side(direction).prefix.bytes + |frame.payload| <= U64_MAX
    ensures var accepted := NodeTakes(view, route, direction, frame, now).value;
            var counted := Counted(route.Side(direction), frame, now);
            if accepted.request.None? then accepted.route.Side(direction) == counted
            else
              && counted.checkpointRequest.None?
              && accepted.route.Side(direction) == Schedule(view, direction, counted, false, now)
              && accepted.request == accepted.route.Side(direction).checkpointRequest
  {
  }

  lemma DataCounted(view: View, direction: Direction, lane: Lane, node: NodeDirection, now: i64)
    requires LaneInv(view, direction, lane, node) && lane.toNode != [] && lane.toNode[0].DataFrame?
    requires node.prefix.bytes + |lane.toNode[0].payload| <= U64_MAX
    ensures LaneInv(view, direction,
                    lane.(toNode := lane.toNode[1..], toReceiver := lane.toReceiver + [lane.toNode[0]]),
                    Counted(node, lane.toNode[0], now))
    ensures node.checkpointRequest.None? ==>
              Idle(view, direction, lane.(toNode := lane.toNode[1..], toReceiver := lane.toReceiver + [lane.toNode[0]]),
                   Counted(node, lane.toNode[0], now))
  {
    var frame := lane.toNode[0];
    assert frame in lane.toNode;
    assert !Closed(lane);
    DataForwarded(view, direction, lane, node.prefix, frame);
    var moved := lane.(toNode := lane.toNode[1..], toReceiver := lane.toReceiver + [frame]);
    TailKeepsClosing(view, direction, lane, moved);
    ExchangeStays(view, direction, lane, moved, node, Counted(node, frame, now));
  }

  lemma CountedThenAsked(view: View, direction: Direction, lane: Lane, node: NodeDirection, later: NodeDirection,
                         request: Option<CheckpointRequest>, now: i64)
    requires LaneInv(view, direction, lane, node) && lane.toNode != [] && lane.toNode[0].DataFrame?
    requires node.prefix.bytes + |lane.toNode[0].payload| <= U64_MAX
    requires var counted := Counted(node, lane.toNode[0], now);
             if request.None? then later == counted
             else node.checkpointRequest.None? && later == Schedule(view, direction, counted, false, now)
                  && request == later.checkpointRequest
    ensures LaneInv(view, direction, lane.(toNode := lane.toNode[1..], toReceiver := lane.toReceiver + [lane.toNode[0]],
                                           toSender := lane.toSender + Asked(request)), later)
  {
    DataCounted(view, direction, lane, node, now);
    var moved := lane.(toNode := lane.toNode[1..], toReceiver := lane.toReceiver + [lane.toNode[0]]);
    if request.Some? {
      RequestRaised(view, direction, moved, Counted(node, lane.toNode[0], now), false, now);
    } else {
      assert moved.toSender + [] == moved.toSender;
    }
  }

  lemma DataKeeps(view: View, direction: Direction, lane: Lane, route: Route, now: i64)
    requires route.authorization == Some(view) && LaneInv(view, direction, lane, route.Side(direction))
    requires lane.toNode != [] && lane.toNode[0].DataFrame?
    requires NodeTakes(view, route, direction, lane.toNode[0], now).Ok?
    ensures var accepted := NodeTakes(view, route, direction, lane.toNode[0], now).value;
            LaneInv(view, direction, lane.(toNode := lane.toNode[1..], toReceiver := lane.toReceiver + [lane.toNode[0]],
                                           toSender := lane.toSender + Asked(accepted.request)),
                    accepted.route.Side(direction))
  {
    AcceptedDataIsCounted(view, direction, route, lane.toNode[0], now);
    var accepted := NodeTakes(view, route, direction, lane.toNode[0], now).value;
    CountedThenAsked(view, direction, lane, route.Side(direction), accepted.route.Side(direction),
                     accepted.request, now);
  }

  /** The Node has window, time and reservation left for a payload. */
  predicate Admissible(view: View, route: Route, direction: Direction, payload: seq<byte>, now: i64) {
    var more := |payload|;
    && more <= MAX_FRAME_PAYLOAD && route.Side(direction).prefix.bytes + more <= U64_MAX
    && AcceptsMoreData(route.Side(direction), view.authorization.windowBytes,
                       view.authorization.windowSeconds, more, now)
    && now < view.authorization.validUntil
    && Affordable(view.authorization,
                  route.forward.prefix.bytes + (if direction == SenderToReceiver then more else 0),
                  route.backward.prefix.bytes + (if direction == SenderToReceiver then 0 else more))
  }

  /** An honest DATA frame is always in sequence: it is refused only for want of window, time or reservation. */
  lemma DataVerdict(view: View, direction: Direction, lane: Lane, route: Route, now: i64)
    requires route.authorization == Some(view) && route.accepted && !route.recovery
    requires LaneInv(view, direction, lane, route.Side(direction))
    requires lane.toNode != [] && lane.toNode[0].DataFrame?
    ensures NodeTakes(view, route, direction, lane.toNode[0], now).Ok?
            <==> Admissible(view, route, direction, lane.toNode[0].payload, now)
  {
  }

  /** An honest CloseIntent is accepted exactly when it is dated no more than the slack ahead of the Node's clock. */
  lemma IntentVerdict(view: View, direction: Direction, lane: Lane, route: Route, now: i64)
    requires route.authorization == Some(view) && LaneInv(view, direction, lane, route.Side(direction))
    requires lane.toNode != [] && lane.toNode[0].IntentFrame?
    ensures NodeTakes(view, route, direction, lane.toNode[0], now).Ok?
            <==> NotAhead(lane.toNode[0].intent.requestedAt, now)
  {
    assert lane.toNode[0] in lane.toNode;
  }

  lemma IntentHandled(view: View, direction: Direction, lane: Lane, route: Route, now: i64)
    requires route.authorization == Some(view) && LaneInv(view, direction, lane, route.Side(direction))
    requires lane.toNode != [] && lane.toNode[0].IntentFrame?
    requires NodeTakes(view, route, direction, lane.toNode[0], now).Ok?
    ensures var accepted := NodeTakes(view, route, direction, lane.toNode[0], now).value;
            LaneInv(view, direction,
                    lane.(toNode := lane.toNode[1..], toSender := lane.toSender + Asked(accepted.request)),
                    accepted.route.Side(direction))
  {
    var frame := lane.toNode[0];
    var node := route.Side(direction);
    assert frame in lane.toNode;
    assert !Closed(lane);
    var accepted := NodeTakes(view, route, direction, frame, now).value;
    var moved := lane.(toNode := lane.toNode[1..]);
    TailKeepsClosing(view, direction, lane, moved);
    assert Checkpoints(lane.toNode) == [] + Checkpoints(lane.toNode[1..]);
    var after := accepted.route.Side(direction);
    if accepted.request.None? {
      ExchangeStays(view, direction, lane, moved, node, after);
      assert lane.toSender + [] == lane.toSender;
    } else {
      ExchangeStays(view, direction, lane, moved, node, node);
      RequestRaised(view, direction, moved, node, true, now);
    }
  }

  lemma CheckpointLanded(view: View, direction: Direction, lane: Lane, node: NodeDirection)
    requires LaneInv(view, direction, lane, node)
    requires lane.toNode != [] && lane.toNode[0].CheckpointFrame?
    ensures Signed(view, direction, lane, node)
    ensures lane.toNode[0].checkpoint == lane.sender.pendingCheckpoint.value && Checkpoints(lane.toNode[1..]) == []
    ensures lane.toNode[0].checkpoint.body.prefix == node.prefix
    ensures lane.toNode[0].finalFlag == lane.toNode[0].checkpoint.body.final
    ensures Leads(node.prefix, lane.toNode[1..], lane.sender.prefix)
  {
    assert Checkpoints(lane.toNode) == [lane.toNode[0].checkpoint] + Checkpoints(lane.toNode[1..]);
    assert Checkpoints(lane.toNode)[0] == lane.toNode[0].checkpoint;
  }

  /** The dates the Node accepts on a checkpoint that answers a request: not before the request or the authorization,
      not after the authorization expires, and not ahead of the Node's clock. */
  predicate InTime(view: View, request: CheckpointRequest, checkpointAt: i64, now: i64) {
    && request.requestedAt <= checkpointAt && view.authorization.createdAt <= checkpointAt
    && checkpointAt <= view.authorization.validUntil && NotAhead(checkpointAt, now)
  }

  /** An honest checkpoint is accepted exactly when it is dated in time. */
  lemma CheckpointVerdict(view: View, direction: Direction, lane: Lane, route: Route, now: i64)
    requires route.authorization == Some(view) && !route.recovery
    requires LaneInv(view, direction, lane, route.Side(direction))
    requires lane.toNode != [] && lane.toNode[0].CheckpointFrame?
    ensures route.Side(direction).checkpointRequest.Some?
    ensures NodeTakes(view, route, direction, lane.toNode[0], now).Ok?
            <==> InTime(view, route.Side(direction).checkpointRequest.value,
                        lane.toNode[0].checkpoint.body.checkpointAt, now)
  {
    CheckpointLanded(view, direction, lane, route.Side(direction));
  }

  lemma CheckpointForwarded(lane: Lane, node: NodeDirection, after: Lane)
    requires Agree(lane, node.prefix) && lane.toNode != [] && lane.toNode[0].CheckpointFrame?
    requires Leads(node.prefix, lane.toNode[1..], lane.sender.prefix)
    requires lane.toNode[0].checkpoint.body.prefix == node.prefix
    requires after == lane.(toNode := lane.toNode[1..], toReceiver := lane.toReceiver + [lane.toNode[0]])
    ensures Agree(after, node.prefix)
  {
    var frame := lane.toNode[0];
    assert Leads(node.prefix, [frame][1..], node.prefix);
    LeadsAppend(lane.receiver.prefix, lane.toReceiver, node.prefix, frame, node.prefix);
  }

  lemma CheckpointKeeps(view: View, direction: Direction, lane: Lane, route: Route, now: i64)
    requires route.authorization == Some(view) && LaneInv(view, direction, lane, route.Side(direction))
    requires lane.toNode != [] && lane.toNode[0].CheckpointFrame?
    requires NodeTakes(view, route, direction, lane.toNode[0], now).Ok?
    ensures var accepted := NodeTakes(view, route, direction, lane.toNode[0], now).value;
            && accepted.request.None?
            && LaneInv(view, direction,
                       lane.(toNode := lane.toNode[1..], toReceiver := lane.toReceiver + [lane.toNode[0]]),
                       accepted.route.Side(direction))
  {
    var frame := lane.toNode[0];
    var node := route.Side(direction);
    CheckpointLanded(view, direction, lane, node);
    var after := lane.(toNode := lane.toNode[1..], toReceiver := lane.toReceiver + [frame]);
    CheckpointForwarded(lane, node, after);
    CheckpointsAppend(lane.toReceiver, frame);
    TailKeepsClosing(view, direction, lane, after);
    var later := NodeTakes(view, route, direction, frame, now).value.route.Side(direction);
    assert AtReceiver(view, direction, after, later);
  }

  /** An honest receipt is accepted exactly when it is dated after its checkpoint, within the slack, and before the
      authorization expired. */
  lemma ReceiptVerdict(view: View, direction: Direction, lane: Lane, route: Route, now: i64)
    requires route.authorization == Some(view) && !route.recovery
    requires LaneInv(view, direction, lane, route.Side(direction))
    requires lane.fromReceiver != []
    ensures lane.fromReceiver[0].ReceiptFrame? && route.Side(direction).pendingCheckpoint.Some?
    ensures var receipt := lane.fromReceiver[0].receipt;
            AcceptReceipt(route, direction, receipt, now).Ok?
            <==> Prompt(receipt, route.Side(direction).pendingCheckpoint.value)
                 && receipt.body.receivedAt <= view.authorization.validUntil
  {
  }

  /** The Node's side of a direction once its exchange is receipted. */
  function SettledSide(node: NodeDirection): NodeDirection
    requires node.pendingCheckpoint.Some?
  {
    node.(finalReceiptPersisted := node.pendingCheckpoint.value.body.final,
          receiptedBytes := node.pendingCheckpoint.value.body.prefix.bytes,
          checkpointDue := false, awaitingReceipt := false, pendingCheckpoint := None, checkpointRequest := None)
  }

  lemma ReceiptPasses(view: View, direction: Direction, lane: Lane, node: NodeDirection, paid: Lane)
    requires LaneInv(view, direction, lane, node) && node.pendingCheckpoint.Some?
    requires lane.fromReceiver != [] && lane.fromReceiver[0].ReceiptFrame?
    requires Prompt(lane.fromReceiver[0].receipt, node.pendingCheckpoint.value)
    requires lane.fromReceiver[0].receipt.body.receivedAt <= view.authorization.validUntil
    requires paid == lane.(fromReceiver := [], toSender := [lane.fromReceiver[0]])
    ensures lane.fromReceiver[1..] == [] && lane.toSender + [lane.fromReceiver[0]] == paid.toSender
    ensures Idle(view, direction, paid, SettledSide(node))
  {
    assert Countersigned(view, direction, lane, node);
    assert lane.fromReceiver[1..] == [] && lane.toSender + [lane.fromReceiver[0]] == paid.toSender;
    assert paid.toSender == [paid.toSender[0]] + [];
  }

  lemma ReceiptKeeps(view: View, direction: Direction, lane: Lane, route: Route, now: i64)
    requires route.authorization == Some(view) && !route.recovery
    requires LaneInv(view, direction, lane, route.Side(direction))
    requires lane.fromReceiver != [] && lane.fromReceiver[0].ReceiptFrame?
    requires AcceptReceipt(route, direction, lane.fromReceiver[0].receipt, now).Ok?
    ensures var accepted := AcceptReceipt(route, direction, lane.fromReceiver[0].receipt, now).value;
            LaneInv(view, direction, lane.(fromReceiver := lane.fromReceiver[1..],
                                           toSender := lane.toSender + [lane.fromReceiver[0]]
                                             + Asked(accepted.request)),
                    accepted.route.Side(direction))
  {
    ReceiptVerdict(view, direction, lane, route, now);
    var node := route.Side(direction);
    var settled := SettledSide(node);
    var paid := lane.(fromReceiver := [], toSender := [lane.fromReceiver[0]]);
    ReceiptPasses(view, direction, lane, node, paid);
    var accepted := AcceptReceipt(route, direction, lane.fromReceiver[0].receipt, now).value;
    if accepted.request.Some? {
      var waiting := settled.(closePending := false);
      assert Idle(view, direction, paid, waiting);
      RequestRaised(view, direction, paid, waiting, true, now);
    } else {
      assert paid.toSender + [] == paid.toSender;
    }
  }

  // ---- Both directions, every step, every run ----

  function Opposite(direction: Direction): Direction {
    if direction == SenderToReceiver then ReceiverToSender else SenderToReceiver
  }

  /** A step of one direction leaves the rest of the route alone. */
  ghost predicate OnlySide(before: Route, after: Route, direction: Direction) {
    && after.authorization == before.authorization
    && after.accepted == before.accepted && after.recovery == before.recovery
    && after.Side(Opposite(direction)) == before.Side(Opposite(direction))
  }

  lemma FrameStaysInLane(view: View, route: Route, direction: Direction, frame: Frame, now: i64)
    requires NodeTakes(view, route, direction, frame, now).Ok?
    ensures OnlySide(route, NodeTakes(view, route, direction, frame, now).value.route, direction)
  {
  }

  lemma ReceiptStaysInLane(route: Route, direction: Direction, receipt: ReceiverReceipt, now: i64)
    requires AcceptReceipt(route, direction, receipt, now).Ok?
    ensures OnlySide(route, AcceptReceipt(route, direction, receipt, now).value.route, direction)
  {
  }

  lemma LaneHolds(world: World, view: View, direction: Direction)
    requires Inv(world, view)
    ensures LaneInv(view, direction, world.LaneIn(direction), world.route.Side(direction))
  {
  }

  /** The invariant after a step that only moved one direction. */
  lemma WorldHolds(before: World, after: World, view: View, direction: Direction)
    requires Inv(before, view) && OnlySide(before.route, after.route, direction)
    requires after.LaneIn(Opposite(direction)) == before.LaneIn(Opposite(direction))
    requires LaneInv(view, direction, after.LaneIn(direction), after.route.Side(direction))
    ensures Inv(after, view)
  {
  }

  /** One lane and its side of the route change. */
  lemma LaneMoves(world: World, route: Route, lane: Lane, view: View, direction: Direction)
    requires Inv(world, view) && OnlySide(world.route, route, direction)
    requires LaneInv(view, direction, lane, route.Side(direction))
    ensures Inv(world.(route := route).WithLane(direction, lane), view)
  {
    WorldHolds(world, world.(route := route).WithLane(direction, lane), view, direction);
  }

  /** The lane after the Node has read its sender's next frame. */
  function LaneForwarded(lane: Lane, request: Option<CheckpointRequest>): Lane
    requires lane.toNode != []
  {
    lane.(toNode := lane.toNode[1..], toReceiver := lane.toReceiver + Forwarded(lane.toNode[0]),
          toSender := lane.toSender + Asked(request))
  }

  lemma FrameKeeps(view: View, direction: Direction, lane: Lane, route: Route, now: i64)
    requires route.authorization == Some(view) && LaneInv(view, direction, lane, route.Side(direction))
    requires lane.toNode != [] && NodeTakes(view, route, direction, lane.toNode[0], now).Ok?
    ensures var accepted := NodeTakes(view, route, direction, lane.toNode[0], now).value;
            LaneInv(view, direction, LaneForwarded(lane, accepted.request), accepted.route.Side(direction))
  {
    match lane.toNode[0]
    case DataFrame(_, _) => DataKeeps(view, direction, lane, route, now);
    case CheckpointFrame(_, _, _) =>
      CheckpointKeeps(view, direction, lane, route, now);
      assert lane.toSender + [] == lane.toSender;
    case IntentFrame(_) =>
      IntentHandled(view, direction, lane, route, now);
      assert lane.toReceiver + [] == lane.toReceiver;
  }

  lemma NodeReadsKeeps(world: World, view: View, direction: Direction, now: i64)
    requires Inv(world, view) && world.LaneIn(direction).toNode != []
    requires Next(world, NodeReads(direction, now)).Ok?
    ensures Inv(Next(world, NodeReads(direction, now)).value, view)
  {
    var lane := world.LaneIn(direction);
    var frame := lane.toNode[0];
    var accepted := NodeTakes(view, world.route, direction, frame, now).value;
    LaneHolds(world, view, direction);
    FrameStaysInLane(view, world.route, direction, frame, now);
    FrameKeeps(view, direction, lane, world.route, now);
    LaneMoves(world, accepted.route, LaneForwarded(lane, accepted.request), view, direction);
  }

  lemma SenderSends(world: World, view: View, direction: Direction, payload: seq<byte>, now: i64)
    requires Inv(world, view) && Enabled(world, SendRecord(direction, payload, now))
    ensures Inv(Next(world, SendRecord(direction, payload, now)).value, view)
  {
    LaneHolds(world, view, direction);
    SendKeeps(view, direction, world.LaneIn(direction), world.route.Side(direction), now, payload);
    WorldHolds(world, Next(world, SendRecord(direction, payload, now)).value, view, direction);
  }

  lemma SenderFinishes(world: World, view: View, direction: Direction, payload: seq<byte>, now: i64)
    requires Inv(world, view) && Enabled(world, SendFin(direction, payload, now))
    ensures Inv(Next(world, SendFin(direction, payload, now)).value, view)
  {
    LaneHolds(world, view, direction);
    SendFinKeeps(view, direction, world.LaneIn(direction), world.route.Side(direction), now, payload);
    WorldHolds(world, Next(world, SendFin(direction, payload, now)).value, view, direction);
  }

  /** The lane after its sender has read a frame. */
  function LaneRead(lane: Lane, read: Read): Lane
    requires lane.toSender != []
  {
    lane.(sender := read.state, toSender := lane.toSender[1..], toNode := lane.toNode + read.reply)
  }

  lemma SenderTakesAll(view: View, direction: Direction, lane: Lane, node: NodeDirection, now: i64)
    requires LaneInv(view, direction, lane, node) && lane.toSender != []
    ensures var result := SenderTakes(view, direction, true, lane.sender, lane.toSender[0], now);
            result.Ok? && LaneInv(view, direction, LaneRead(lane, result.value), node)
  {
    if lane.toSender[0].RequestFrame? {
      RequestAnswered(view, direction, lane, node, now);
    } else {
      ReceiptTaken(view, direction, lane, node, now);
    }
  }

  lemma SenderNext(world: World, view: View, direction: Direction, now: i64)
    requires world.route.authorization == Some(view) && world.LaneIn(direction).toSender != []
    ensures var lane := world.LaneIn(direction);
            var result := SenderTakes(view, direction, world.SenderReady(direction), lane.sender,
                                      lane.toSender[0], now);
            Next(world, SenderReads(direction, now))
            == if result.Err? then Err(result.error) else Ok(world.WithLane(direction, LaneRead(lane, result.value)))
  {
  }

  /** A sender past its handshake takes whatever reaches it. */
  lemma SenderReadsHolds(world: World, view: View, direction: Direction, now: i64)
    requires Inv(world, view) && world.LaneIn(direction).toSender != []
    ensures Next(world, SenderReads(direction, now)).Ok? <==> world.SenderReady(direction)
    ensures world.SenderReady(direction) ==> Inv(Next(world, SenderReads(direction, now)).value, view)
  {
    SenderNext(world, view, direction, now);
    if world.SenderReady(direction) {
      var lane := world.LaneIn(direction);
      LaneHolds(world, view, direction);
      SenderTakesAll(view, direction, lane, world.route.Side(direction), now);
      var read := SenderTakes(view, direction, true, lane.sender, lane.toSender[0], now).value;
      WorldHolds(world, world.WithLane(direction, LaneRead(lane, read)), view, direction);
    }
  }

  lemma ReceiverNext(world: World, view: View, direction: Direction, now: i64)
    requires world.route.authorization == Some(view) && world.LaneIn(direction).toReceiver != []
    ensures var lane := world.LaneIn(direction);
            var result := ReceiverTakes(view, direction, world.ReceiverReady(direction), lane.receiver,
                                        lane.toReceiver[0], now);
            Next(world, ReceiverReads(direction, now))
            == if result.Err? then Err(result.error)
               else Ok(world.WithLane(direction, lane.(receiver := result.value.state,
                                                       toReceiver := lane.toReceiver[1..],
                                                       fromReceiver := lane.fromReceiver + result.value.reply)))
  {
  }

  lemma ReceiverActs(world: World, view: View, direction: Direction, now: i64)
    requires Inv(world, view) && world.LaneIn(direction).toReceiver != []
    requires Next(world, ReceiverReads(direction, now)).Ok?
    ensures Inv(Next(world, ReceiverReads(direction, now)).value, view)
  {
    var lane, ready := world.LaneIn(direction), world.ReceiverReady(direction);
    LaneHolds(world, view, direction);
    ReceiverNext(world, view, direction, now);
    ReceiverAgrees(view, direction, ready, lane, world.route.Side(direction), now);
    var read := ReceiverTakes(view, direction, ready, lane.receiver, lane.toReceiver[0], now).value;
    var after := lane.(receiver := read.state, toReceiver := lane.toReceiver[1..],
                       fromReceiver := lane.fromReceiver + read.reply);
    WorldHolds(world, world.WithLane(direction, after), view, direction);
  }

  lemma TickStaysInLane(route: Route, direction: Direction, now: i64)
    ensures OnlySide(route, TickDirection(route, direction, now).route, direction)
  {
  }

  lemma TickHolds(world: World, view: View, direction: Direction, now: i64)
    requires Inv(world, view)
    ensures Inv(Next(world, NodeTicks(direction, now)).value, view)
  {
    var lane := world.LaneIn(direction);
    LaneHolds(world, view, direction);
    TickKeeps(view, direction, lane, world.route, now);
    TickStaysInLane(world.route, direction, now);
    var ticked := TickDirection(world.route, direction, now);
    LaneMoves(world, ticked.route, lane.(toSender := lane.toSender + Asked(ticked.request)), view, direction);
  }

  lemma ReceiptHolds(world: World, view: View, direction: Direction, now: i64)
    requires Inv(world, view) && world.LaneIn(direction).fromReceiver != []
    requires Next(world, NodeReadsReceipt(direction, now)).Ok?
    ensures Inv(Next(world, NodeReadsReceipt(direction, now)).value, view)
  {
    var lane := world.LaneIn(direction);
    LaneHolds(world, view, direction);
    ReceiptKeeps(view, direction, lane, world.route, now);
    ReceiptStaysInLane(world.route, direction, lane.fromReceiver[0].receipt, now);
    var accepted := AcceptReceipt(world.route, direction, lane.fromReceiver[0].receipt, now).value;
    LaneMoves(world, accepted.route,
              lane.(fromReceiver := lane.fromReceiver[1..],
                    toSender := lane.toSender + [lane.fromReceiver[0]] + Asked(accepted.request)), view, direction);
  }

  lemma StepKeeps(world: World, view: View, action: Action)
    requires Inv(world, view) && Enabled(world, action) && Next(world, action).Ok?
    ensures Inv(Next(world, action).value, view)
  {
    match action
    case NodeReads(direction, now) => NodeReadsKeeps(world, view, direction, now);
    case NodeTicks(direction, now) => TickHolds(world, view, direction, now);
    case NodeReadsReceipt(direction, now) => ReceiptHolds(world, view, direction, now);
    case ReceiverReads(direction, now) => ReceiverActs(world, view, direction, now);
    case SendRecord(direction, payload, now) => SenderSends(world, view, direction, payload, now);
    case SendFin(direction, payload, now) => SenderFinishes(world, view, direction, payload, now);
    case SenderReads(direction, now) => SenderReadsHolds(world, view, direction, now);
    case Establishes(_) =>
  }

  // ---- The results ----

  /** A run is a list of actions, each enabled when taken, none refused. */
  ghost predicate RunsTo(start: World, actions: seq<Action>, end: World)
    decreases |actions|
  {
    if actions == [] then start == end
    else
      var last := |actions| - 1;
      exists before: World ::
        && RunsTo(start, actions[..last], before)
        && before.route.authorization.Some? && Enabled(before, actions[last])
        && Next(before, actions[last]) == Ok(end)
  }

  /** Three-party agreement: at every point of every run, sender, Node and receiver agree up to the frames between
      them in both directions, and each direction has at most one exchange open. */
  lemma {:induction false} ThreePartyAgreement(start: World, view: View, actions: seq<Action>, end: World)
    requires Start(start, view) && RunsTo(start, actions, end)
    ensures Inv(end, view)
    decreases |actions|
  {
    if actions == [] {
      StartInv(start, view);
    } else {
      var last := |actions| - 1;
      var before: World :| && RunsTo(start, actions[..last], before)
                           && before.route.authorization.Some? && Enabled(before, actions[last])
                           && Next(before, actions[last]) == Ok(end);
      ThreePartyAgreement(start, view, actions[..last], before);
      StepKeeps(before, view, actions[last]);
    }
  }

  /** What can still be turned away. By the Node: DATA without window, time or reservation; a checkpoint dated out of
      time; a CloseIntent dated ahead of its clock; a receipt dated before its checkpoint, too long after it, or after
      expiry. By a receiver: a checkpoint dated ahead of its clock. By a member still in its handshake: anything but
      DATA. */
  ghost predicate Refusable(world: World, view: View, action: Action) {
    match action
    case NodeReads(direction, now) =>
      var link, state := world.LaneIn(direction).toNode, world.route.Side(direction);
      link != [] && match link[0] {
        case DataFrame(_, payload) => !Admissible(view, world.route, direction, payload, now)
        case CheckpointFrame(_, checkpoint, _) =>
          state.checkpointRequest.Some?
            && !InTime(view, state.checkpointRequest.value, checkpoint.body.checkpointAt, now)
        case IntentFrame(intent) => !NotAhead(intent.requestedAt, now)
        case _ => false
      }
    case NodeReadsReceipt(direction, _) =>
      var link := world.LaneIn(direction).fromReceiver;
      && link != [] && link[0].ReceiptFrame? && world.route.Side(direction).pendingCheckpoint.Some?
      && (|| !Prompt(link[0].receipt, world.route.Side(direction).pendingCheckpoint.value)
          || link[0].receipt.body.receivedAt > view.authorization.validUntil)
    case ReceiverReads(direction, now) =>
      var link := world.LaneIn(direction).toReceiver;
      && link != [] && link[0].CheckpointFrame?
      && (!world.ReceiverReady(direction) || !NotAhead(link[0].checkpoint.body.checkpointAt, now))
    case SenderReads(direction, _) => !world.SenderReady(direction)
    case _ => false
  }

  lemma NodeVerdict(world: World, view: View, direction: Direction, now: i64)
    requires Inv(world, view) && world.LaneIn(direction).toNode != []
    ensures Next(world, NodeReads(direction, now)).Err? <==> Refusable(world, view, NodeReads(direction, now))
  {
    var lane := world.LaneIn(direction);
    LaneHolds(world, view, direction);
    match lane.toNode[0]
    case DataFrame(_, _) => DataVerdict(view, direction, lane, world.route, now);
    case CheckpointFrame(_, _, _) => CheckpointVerdict(view, direction, lane, world.route, now);
    case IntentFrame(_) => IntentVerdict(view, direction, lane, world.route, now);
  }

  lemma ReceiptRefused(world: World, view: View, direction: Direction, now: i64)
    requires Inv(world, view) && world.LaneIn(direction).fromReceiver != []
    ensures Next(world, NodeReadsReceipt(direction, now)).Err?
            <==> Refusable(world, view, NodeReadsReceipt(direction, now))
  {
    LaneHolds(world, view, direction);
    ReceiptVerdict(view, direction, world.LaneIn(direction), world.route, now);
  }

  lemma ReceiverVerdict(world: World, view: View, direction: Direction, now: i64)
    requires Inv(world, view) && world.LaneIn(direction).toReceiver != []
    ensures Next(world, ReceiverReads(direction, now)).Err? <==> Refusable(world, view, ReceiverReads(direction, now))
  {
    LaneHolds(world, view, direction);
    ReceiverNext(world, view, direction, now);
    ReceiverAgrees(view, direction, world.ReceiverReady(direction), world.LaneIn(direction),
                   world.route.Side(direction), now);
  }

  /** Exactly these refusals, whatever the clocks read: every checkpoint that answers a request passes the Node's
      equality and coverage tests and the receiver's, its receipt passes the Node's and the sender's, and a frame is
      turned away if and only if it is one of the named cases. */
  lemma OnlyTheseRefusals(start: World, view: View, actions: seq<Action>, world: World, action: Action)
    requires Start(start, view) && RunsTo(start, actions, world)
    requires world.route.authorization.Some? && Enabled(world, action)
    ensures Next(world, action).Err? <==> Refusable(world, view, action)
  {
    ThreePartyAgreement(start, view, actions, world);
    match action
    case NodeReads(direction, now) => NodeVerdict(world, view, direction, now);
    case NodeReadsReceipt(direction, now) => ReceiptRefused(world, view, direction, now);
    case ReceiverReads(direction, now) => ReceiverVerdict(world, view, direction, now);
    case SenderReads(direction, now) => SenderReadsHolds(world, view, direction, now);
    case _ =>
  }
}
