/** Honest runs whose parties' clocks stay within `skew` seconds of one time
    that never goes back. A skew of zero is one shared clock. */
module Clocks {
  import opened MachineInts
  import opened RelayModel
  import opened NodeRelay
  import opened StreamChannel
  import opened Agreement
  import opened HonestRuns

  predicate Near(now: i64, time: int, skew: nat) {
    time - skew <= now <= time + skew
  }

  predicate ReadsNear(action: Action, time: int, skew: nat) {
    action.Establishes? || Near(action.now, time, skew)
  }

  /** The sender's pending checkpoint answers the open request. */
  predicate Answers(lane: Lane, node: NodeDirection) {
    && node.checkpointRequest.Some? && lane.sender.awaitingReceipt && lane.sender.pendingCheckpoint.Some?
    && lane.toSender == []
  }

  predicate IntentsDated(link: seq<Frame>, time: int, skew: nat) {
    forall frame :: frame in link && frame.IntentFrame? ==> frame.intent.requestedAt <= time + skew
  }

  predicate CheckpointDated(view: View, lane: Lane, node: NodeDirection, time: int, skew: nat) {
    Answers(lane, node) ==>
      var at := lane.sender.pendingCheckpoint.value.body.checkpointAt;
      node.checkpointRequest.value.requestedAt - 2 * skew <= at <= time + skew && view.authorization.createdAt <= at
  }

  predicate ReceiptDated(lane: Lane, skew: nat) {
    lane.fromReceiver != [] && lane.fromReceiver[0].ReceiptFrame? && lane.sender.pendingCheckpoint.Some? ==>
      lane.fromReceiver[0].receipt.body.receivedAt >= lane.sender.pendingCheckpoint.value.body.checkpointAt - 2 * skew
  }

  /** What is in flight is dated no later than the time allows, and answers not much before what they answer. */
  predicate LaneDated(view: View, lane: Lane, node: NodeDirection, time: int, skew: nat) {
    && IntentsDated(lane.toNode, time, skew)
    && (node.checkpointRequest.Some? ==> node.checkpointRequest.value.requestedAt <= time + skew)
    && CheckpointDated(view, lane, node, time, skew)
    && ReceiptDated(lane, skew)
  }

  ghost predicate Dated(world: World, view: View, time: int, skew: nat) {
    && world.route.authorization == Some(view) && view.authorization.createdAt <= time - skew
    && LaneDated(view, world.forward, world.route.forward, time, skew)
    && LaneDated(view, world.backward, world.route.backward, time, skew)
  }

  lemma DatedLater(world: World, view: View, time: int, later: int, skew: nat)
    requires Dated(world, view, time, skew) && time <= later
    ensures Dated(world, view, later, skew)
  {
  }

  lemma LaneIsDated(world: World, view: View, direction: Direction, time: int, skew: nat)
    requires Dated(world, view, time, skew)
    ensures LaneDated(view, world.LaneIn(direction), world.route.Side(direction), time, skew)
  {
  }

  lemma WorldDated(before: World, after: World, view: View, direction: Direction, time: int, skew: nat)
    requires Dated(before, view, time, skew) && OnlySide(before.route, after.route, direction)
    requires after.LaneIn(Opposite(direction)) == before.LaneIn(Opposite(direction))
    requires LaneDated(view, after.LaneIn(direction), after.route.Side(direction), time, skew)
    ensures Dated(after, view, time, skew)
  {
  }

  // ---- Each step ----

  lemma SendDated(view: View, lane: Lane, after: Lane, node: NodeDirection, time: int, skew: nat, frames: seq<Frame>)
    requires LaneDated(view, lane, node, time, skew) && IntentsDated(frames, time, skew)
    requires after.sender.awaitingReceipt == lane.sender.awaitingReceipt
    requires after.sender.pendingCheckpoint == lane.sender.pendingCheckpoint
    requires after.toNode == lane.toNode + frames && after.toSender == lane.toSender
    requires after.fromReceiver == lane.fromReceiver
    ensures LaneDated(view, after, node, time, skew)
  {
  }

  /** The Node's own steps: a request it raises carries its reading, and travels to the sender. */
  lemma NodeDated(view: View, lane: Lane, after: Lane, node: NodeDirection, later: NodeDirection,
                  request: Option<CheckpointRequest>,
                  time: int, skew: nat, now: i64)
    requires LaneDated(view, lane, node, time, skew) && Near(now, time, skew)
    requires later.checkpointRequest == node.checkpointRequest
             || (request.Some? && later.checkpointRequest == request && request.value.requestedAt == now)
             || later.checkpointRequest.None?
    requires after.sender == lane.sender && after.fromReceiver == lane.fromReceiver
    requires forall frame :: frame in after.toNode ==> frame in lane.toNode
    requires after.toSender == lane.toSender + Asked(request)
    ensures LaneDated(view, after, later, time, skew)
  {
  }

  /** A frame the Node accepts leaves the open request as it was, or raises one dated now. */
  ghost predicate RequestKeptOrRaised(node: NodeDirection, accepted: Accepted, direction: Direction, now: i64) {
    var later := accepted.route.Side(direction);
    || later.checkpointRequest == node.checkpointRequest
    || (accepted.request.Some? && later.checkpointRequest == accepted.request
        && accepted.request.value.requestedAt == now)
  }

  lemma DataRequests(view: View, direction: Direction, route: Route, frame: Frame, now: i64)
    requires route.authorization == Some(view) && frame.DataFrame? && NodeTakes(view, route, direction, frame, now).Ok?
    ensures RequestKeptOrRaised(route.Side(direction),
                                NodeTakes(view, route, direction, frame, now).value, direction, now)
  {
    AcceptedDataIsCounted(view, direction, route, frame, now);
  }

  lemma IntentRequests(view: View, direction: Direction, route: Route, intent: CloseIntent, now: i64)
    requires route.authorization == Some(view)
    requires AcceptCloseIntent(route, direction, intent, view.Sender(direction), now).Ok?
    ensures var accepted := AcceptCloseIntent(route, direction, intent, view.Sender(direction), now).value;
            RequestKeptOrRaised(route.Side(direction), accepted, direction, now)
  {
  }

  lemma FrameRequests(view: View, direction: Direction, route: Route, frame: Frame, now: i64)
    requires route.authorization == Some(view) && NodeTakes(view, route, direction, frame, now).Ok?
    ensures RequestKeptOrRaised(route.Side(direction),
                                NodeTakes(view, route, direction, frame, now).value, direction, now)
  {
    match frame
    case DataFrame(_, _) => DataRequests(view, direction, route, frame, now);
    case CheckpointFrame(_, _, _) =>
    case IntentFrame(intent) => IntentRequests(view, direction, route, intent, now);
  }

  lemma AnswerDated(view: View, direction: Direction, lane: Lane, node: NodeDirection, time: int, skew: nat, now: i64)
    requires LaneInv(view, direction, lane, node) && LaneDated(view, lane, node, time, skew) && Near(now, time, skew)
    requires lane.toSender != [] && view.authorization.createdAt <= time - skew
    requires SenderTakes(view, direction, true, lane.sender, lane.toSender[0], now).Ok?
    ensures var read := SenderTakes(view, direction, true, lane.sender, lane.toSender[0], now).value;
            LaneDated(view, LaneRead(lane, read), node, time, skew)
  {
    if lane.toSender[0].RequestFrame? {
      RequestMatched(view, direction, lane, node, now);
      assert lane.toSender[1..] == [];
    } else {
      assert lane.sender.awaitingReceipt && lane.fromReceiver == [];
    }
  }

  lemma CountersignDated(view: View, direction: Direction, ready: bool, lane: Lane, node: NodeDirection,
                         time: int, skew: nat, now: i64)
    requires LaneInv(view, direction, lane, node) && LaneDated(view, lane, node, time, skew) && Near(now, time, skew)
    requires lane.toReceiver != [] && ReceiverTakes(view, direction, ready, lane.receiver, lane.toReceiver[0], now).Ok?
    ensures var read := ReceiverTakes(view, direction, ready, lane.receiver, lane.toReceiver[0], now).value;
            LaneDated(view, lane.(receiver := read.state, toReceiver := lane.toReceiver[1..],
                                  fromReceiver := lane.fromReceiver + read.reply), node, time, skew)
  {
    var frame := lane.toReceiver[0];
    assert frame in lane.toReceiver;
    if frame.CheckpointFrame? {
      assert Checkpoints(lane.toReceiver) == [frame.checkpoint] + Checkpoints(lane.toReceiver[1..]);
      assert AtReceiver(view, direction, lane, node);
    } else {
      assert lane.fromReceiver + [] == lane.fromReceiver;
    }
  }

  lemma ReceiptSettlesDated(view: View, direction: Direction, lane: Lane, route: Route, time: int, skew: nat, now: i64)
    requires route.authorization == Some(view) && LaneInv(view, direction, lane, route.Side(direction))
    requires LaneDated(view, lane, route.Side(direction), time, skew) && Near(now, time, skew)
    requires lane.fromReceiver != [] && lane.fromReceiver[0].ReceiptFrame?
    requires AcceptReceipt(route, direction, lane.fromReceiver[0].receipt, now).Ok?
    ensures var accepted := AcceptReceipt(route, direction, lane.fromReceiver[0].receipt, now).value;
            LaneDated(view, lane.(fromReceiver := lane.fromReceiver[1..],
                                  toSender := lane.toSender + [lane.fromReceiver[0]] + Asked(accepted.request)),
                      accepted.route.Side(direction), time, skew)
  {
    assert |lane.fromReceiver| == 1;
  }

  // ---- Every step ----

  lemma NodeReadsDated(world: World, view: View, direction: Direction, now: i64, time: int, skew: nat)
    requires Dated(world, view, time, skew) && Near(now, time, skew)
    requires world.LaneIn(direction).toNode != [] && Next(world, NodeReads(direction, now)).Ok?
    ensures Dated(Next(world, NodeReads(direction, now)).value, view, time, skew)
  {
    var lane, node := world.LaneIn(direction), world.route.Side(direction);
    var after := Next(world, NodeReads(direction, now)).value;
    LaneIsDated(world, view, direction, time, skew);
    FrameStaysInLane(view, world.route, direction, lane.toNode[0], now);
    FrameRequests(view, direction, world.route, lane.toNode[0], now);
    var accepted := NodeTakes(view, world.route, direction, lane.toNode[0], now).value;
    NodeDated(view, lane, after.LaneIn(direction), node, after.route.Side(direction),
              accepted.request, time, skew, now);
    WorldDated(world, after, view, direction, time, skew);
  }

  lemma TickRequests(view: View, direction: Direction, lane: Lane, route: Route, time: int, skew: nat, now: i64)
    requires route.authorization == Some(view) && Near(now, time, skew)
    requires LaneDated(view, lane, route.Side(direction), time, skew)
    ensures var ticked := TickDirection(route, direction, now);
            LaneDated(view, lane.(toSender := lane.toSender + Asked(ticked.request)),
                      ticked.route.Side(direction), time, skew)
  {
    var ticked := TickDirection(route, direction, now);
    NodeDated(view, lane, lane.(toSender := lane.toSender + Asked(ticked.request)), route.Side(direction),
              ticked.route.Side(direction), ticked.request, time, skew, now);
  }

  lemma TickDated(world: World, view: View, direction: Direction, now: i64, time: int, skew: nat)
    requires Dated(world, view, time, skew) && Near(now, time, skew)
    ensures Dated(Next(world, NodeTicks(direction, now)).value, view, time, skew)
  {
    LaneIsDated(world, view, direction, time, skew);
    TickRequests(view, direction, world.LaneIn(direction), world.route, time, skew, now);
    WorldDated(world, Next(world, NodeTicks(direction, now)).value, view, direction, time, skew);
  }

  lemma ReceiptDatedStep(world: World, view: View, direction: Direction, now: i64, time: int, skew: nat)
    requires Inv(world, view) && Dated(world, view, time, skew) && Near(now, time, skew)
    requires world.LaneIn(direction).fromReceiver != [] && Next(world, NodeReadsReceipt(direction, now)).Ok?
    ensures Dated(Next(world, NodeReadsReceipt(direction, now)).value, view, time, skew)
  {
    var lane := world.LaneIn(direction);
    LaneHolds(world, view, direction);
    LaneIsDated(world, view, direction, time, skew);
    ReceiptStaysInLane(world.route, direction, lane.fromReceiver[0].receipt, now);
    ReceiptSettlesDated(view, direction, lane, world.route, time, skew, now);
    WorldDated(world, Next(world, NodeReadsReceipt(direction, now)).value, view, direction, time, skew);
  }

  lemma ReceiverDated(world: World, view: View, direction: Direction, now: i64, time: int, skew: nat)
    requires Inv(world, view) && Dated(world, view, time, skew) && Near(now, time, skew)
    requires world.LaneIn(direction).toReceiver != [] && Next(world, ReceiverReads(direction, now)).Ok?
    ensures Dated(Next(world, ReceiverReads(direction, now)).value, view, time, skew)
  {
    LaneHolds(world, view, direction);
    LaneIsDated(world, view, direction, time, skew);
    CountersignDated(view, direction, world.ReceiverReady(direction), world.LaneIn(direction),
                     world.route.Side(direction),
                     time, skew, now);
    WorldDated(world, Next(world, ReceiverReads(direction, now)).value, view, direction, time, skew);
  }

  lemma SenderDated(world: World, view: View, direction: Direction, now: i64, time: int, skew: nat)
    requires Inv(world, view) && Dated(world, view, time, skew) && Near(now, time, skew)
    requires world.LaneIn(direction).toSender != [] && Next(world, SenderReads(direction, now)).Ok?
    ensures Dated(Next(world, SenderReads(direction, now)).value, view, time, skew)
  {
    LaneHolds(world, view, direction);
    LaneIsDated(world, view, direction, time, skew);
    SenderReadsHolds(world, view, direction, now);
    SenderNext(world, view, direction, now);
    AnswerDated(view, direction, world.LaneIn(direction), world.route.Side(direction), time, skew, now);
    WorldDated(world, Next(world, SenderReads(direction, now)).value, view, direction, time, skew);
  }

  lemma SendRecordDated(world: World, view: View, direction: Direction, payload: seq<byte>, now: i64,
                        time: int, skew: nat)
    requires Dated(world, view, time, skew) && Enabled(world, SendRecord(direction, payload, now))
    ensures Dated(Next(world, SendRecord(direction, payload, now)).value, view, time, skew)
  {
    var lane, after := world.LaneIn(direction), Next(world, SendRecord(direction, payload, now)).value;
    LaneIsDated(world, view, direction, time, skew);
    var data := DataFrame(lane.sender.prefix.sequence + 1, payload);
    SendDated(view, lane, after.LaneIn(direction), world.route.Side(direction), time, skew, [data]);
    WorldDated(world, after, view, direction, time, skew);
  }

  lemma SendFinDated(world: World, view: View, direction: Direction, payload: seq<byte>, now: i64, time: int, skew: nat)
    requires Dated(world, view, time, skew) && Enabled(world, SendFin(direction, payload, now)) && Near(now, time, skew)
    ensures Dated(Next(world, SendFin(direction, payload, now)).value, view, time, skew)
  {
    var lane, after := world.LaneIn(direction), Next(world, SendFin(direction, payload, now)).value;
    LaneIsDated(world, view, direction, time, skew);
    var sender := AdvanceOutgoing(lane.sender, payload, now).value;
    var frames := [DataFrame(sender.prefix.sequence, payload), IntentFrame(IntentFor(view, direction, sender, now))];
    SendDated(view, lane, after.LaneIn(direction), world.route.Side(direction), time, skew, frames);
    WorldDated(world, after, view, direction, time, skew);
  }

  lemma StepDated(world: World, view: View, action: Action, time: int, skew: nat)
    requires Inv(world, view) && Dated(world, view, time, skew) && ReadsNear(action, time, skew)
    requires Enabled(world, action) && Next(world, action).Ok?
    ensures Dated(Next(world, action).value, view, time, skew)
  {
    match action
    case NodeReads(direction, now) => NodeReadsDated(world, view, direction, now, time, skew);
    case NodeTicks(direction, now) => TickDated(world, view, direction, now, time, skew);
    case NodeReadsReceipt(direction, now) => ReceiptDatedStep(world, view, direction, now, time, skew);
    case ReceiverReads(direction, now) => ReceiverDated(world, view, direction, now, time, skew);
    case SenderReads(direction, now) => SenderDated(world, view, direction, now, time, skew);
    case SendRecord(direction, payload, now) => SendRecordDated(world, view, direction, payload, now, time, skew);
    case SendFin(direction, payload, now) => SendFinDated(world, view, direction, payload, now, time, skew);
    case Establishes(_) =>
  }

  // ---- Runs ----

  /** A run that starts at `from` and has reached `time`, every party's clock within `skew` of the time at each step. */
  ghost predicate ClockedRun(start: World, actions: seq<Action>, skew: nat, from: int, time: int, end: World)
    decreases |actions|
  {
    if actions == [] then start == end && from == time
    else
      var last := |actions| - 1;
      exists before: World, earlier: int ::
        && ClockedRun(start, actions[..last], skew, from, earlier, before) && earlier <= time
        && ReadsNear(actions[last], time, skew)
        && before.route.authorization.Some? && Enabled(before, actions[last])
        && Next(before, actions[last]) == Ok(end)
  }

  lemma {:induction false} ClockedRunsStayDated(start: World, view: View, actions: seq<Action>, skew: nat,
                                                from: int, time: int,
                                                end: World)
    requires Start(start, view) && ClockedRun(start, actions, skew, from, time, end)
    requires view.authorization.createdAt <= from - skew
    ensures Inv(end, view) && Dated(end, view, time, skew) && RunsTo(start, actions, end)
    decreases |actions|
  {
    if actions == [] {
      StartInv(start, view);
    } else {
      var last := |actions| - 1;
      var before: World, earlier: int :|
        && ClockedRun(start, actions[..last], skew, from, earlier, before) && earlier <= time
        && ReadsNear(actions[last], time, skew)
        && before.route.authorization.Some? && Enabled(before, actions[last])
        && Next(before, actions[last]) == Ok(end);
      ClockedRunsStayDated(start, view, actions[..last], skew, from, earlier, before);
      DatedLater(before, view, earlier, time, skew);
      StepDated(before, view, actions[last], time, skew);
      StepKeeps(before, view, actions[last]);
    }
  }

  // ---- What clocks that keep together rule out ----

  /** The refusals left when the clocks are within half the slack of the time. */
  ghost predicate SkewRefusable(world: World, view: View, action: Action) {
    match action
    case NodeReads(direction, now) =>
      var link, state := world.LaneIn(direction).toNode, world.route.Side(direction);
      link != [] && match link[0] {
        case DataFrame(_, payload) => !Admissible(view, world.route, direction, payload, now)
        case CheckpointFrame(_, checkpoint, _) =>
          && state.checkpointRequest.Some?
          && (|| checkpoint.body.checkpointAt < state.checkpointRequest.value.requestedAt
              || checkpoint.body.checkpointAt > view.authorization.validUntil)
        case _ => false
      }
    case ReceiverReads(direction, now) =>
      var link := world.LaneIn(direction).toReceiver;
      link != [] && link[0].CheckpointFrame? && !world.ReceiverReady(direction)
    case _ => Refusable(world, view, action)
  }

  /** The refusals left on one shared clock. */
  ghost predicate SharedRefusable(world: World, view: View, action: Action) {
    match action
    case NodeReads(direction, now) =>
      var link := world.LaneIn(direction).toNode;
      link != [] && match link[0] {
        case DataFrame(_, payload) => !Admissible(view, world.route, direction, payload, now)
        case CheckpointFrame(_, checkpoint, _) => checkpoint.body.checkpointAt > view.authorization.validUntil
        case _ => false
      }
    case NodeReadsReceipt(direction, _) =>
      var link := world.LaneIn(direction).fromReceiver;
      && link != [] && link[0].ReceiptFrame? && world.route.Side(direction).pendingCheckpoint.Some?
      && (|| SatSubI64(link[0].receipt.body.receivedAt,
                       world.route.Side(direction).pendingCheckpoint.value.body.checkpointAt) > CLOCK_SLACK_SECONDS
          || link[0].receipt.body.receivedAt > view.authorization.validUntil)
    case _ => SkewRefusable(world, view, action)
  }

  lemma NearNotAhead(at: i64, now: i64, time: int, skew: nat)
    requires at <= time + skew && Near(now, time, skew) && 2 * skew <= CLOCK_SLACK_SECONDS
    ensures NotAhead(at, now)
  {
  }

  /** The frame at the head of the sender's link: a checkpoint there is the one the sender waits on. */
  lemma NodeSkew(world: World, view: View, direction: Direction, now: i64, time: int, skew: nat)
    requires Inv(world, view) && Dated(world, view, time, skew) && Near(now, time, skew)
    requires 2 * skew <= CLOCK_SLACK_SECONDS
    requires world.LaneIn(direction).toNode != []
    ensures Refusable(world, view, NodeReads(direction, now)) <==> SkewRefusable(world, view, NodeReads(direction, now))
    ensures skew == 0 ==>
              (Refusable(world, view, NodeReads(direction, now))
               <==> SharedRefusable(world, view, NodeReads(direction, now)))
  {
    var lane, node := world.LaneIn(direction), world.route.Side(direction);
    var frame := lane.toNode[0];
    assert frame in lane.toNode;
    LaneHolds(world, view, direction);
    LaneIsDated(world, view, direction, time, skew);
    if frame.CheckpointFrame? {
      CheckpointLanded(view, direction, lane, node);
      NearNotAhead(frame.checkpoint.body.checkpointAt, now, time, skew);
    } else if frame.IntentFrame? {
      NearNotAhead(frame.intent.requestedAt, now, time, skew);
    }
  }

  lemma ReceiverSkew(world: World, view: View, direction: Direction, now: i64, time: int, skew: nat)
    requires Inv(world, view) && Dated(world, view, time, skew) && Near(now, time, skew)
    requires 2 * skew <= CLOCK_SLACK_SECONDS
    requires world.LaneIn(direction).toReceiver != []
    ensures Refusable(world, view, ReceiverReads(direction, now))
            <==> SkewRefusable(world, view, ReceiverReads(direction, now))
  {
    var lane, node := world.LaneIn(direction), world.route.Side(direction);
    var frame := lane.toReceiver[0];
    LaneHolds(world, view, direction);
    LaneIsDated(world, view, direction, time, skew);
    if frame.CheckpointFrame? {
      assert Checkpoints(lane.toReceiver) == [frame.checkpoint] + Checkpoints(lane.toReceiver[1..]);
      assert Checkpoints(lane.toReceiver)[0] == frame.checkpoint;
      assert AtReceiver(view, direction, lane, node);
      NearNotAhead(frame.checkpoint.body.checkpointAt, now, time, skew);
    }
  }

  lemma ReceiptSkew(world: World, view: View, direction: Direction, now: i64, time: int)
    requires Inv(world, view) && Dated(world, view, time, 0) && world.LaneIn(direction).fromReceiver != []
    ensures Refusable(world, view, NodeReadsReceipt(direction, now))
            <==> SharedRefusable(world, view, NodeReadsReceipt(direction, now))
  {
    LaneHolds(world, view, direction);
    LaneIsDated(world, view, direction, time, 0);
    assert Countersigned(view, direction, world.LaneIn(direction), world.route.Side(direction));
  }

  /** Clocks within half the slack of one another's time never turn a frame away for being ahead: what is left is DATA
      without window, time or reservation, a checkpoint dated before its request or after expiry, a receipt that is late
      or not prompt, and the handshake. On one shared clock a checkpoint is never before its request nor a receipt
      before its checkpoint. */
  lemma ClockedRefusals(start: World, view: View, actions: seq<Action>, skew: nat, from: int, time: int, world: World,
                        action: Action)
    requires Start(start, view) && ClockedRun(start, actions, skew, from, time, world)
    requires view.authorization.createdAt <= from - skew && 2 * skew <= CLOCK_SLACK_SECONDS
    requires world.route.authorization.Some? && Enabled(world, action) && ReadsNear(action, time, skew)
    ensures Next(world, action).Err? <==> SkewRefusable(world, view, action)
    ensures skew == 0 ==> (Next(world, action).Err? <==> SharedRefusable(world, view, action))
  {
    ClockedRunsStayDated(start, view, actions, skew, from, time, world);
    OnlyTheseRefusals(start, view, actions, world, action);
    match action
    case NodeReads(direction, now) => NodeSkew(world, view, direction, now, time, skew);
    case ReceiverReads(direction, now) => ReceiverSkew(world, view, direction, now, time, skew);
    case NodeReadsReceipt(direction, now) =>
      if skew == 0 {
        ReceiptSkew(world, view, direction, now, time);
      }
    case _ =>
  }
}
