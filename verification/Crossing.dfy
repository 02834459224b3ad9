/** A run in which a sender within its allowance is refused, made of records no
    larger than the SDK sends. */
module Crossing {
  import opened MachineInts
  import opened RelayModel
  import opened NodeRelay
  import opened StreamChannel
  import opened Agreement
  import opened Pacing
  import H = HonestRuns

  /** A record carries at most 64 KiB of the application's bytes, and 18 of its own. */
  const RECORD_LIMIT := 64 * 1024 + 18

  /** Every record sent is of a size the SDK sends. */
  predicate OfRecordSize(actions: seq<Action>) {
    forall i :: 0 <= i < |actions| && actions[i].SendRecord? ==> 18 < |actions[i].payload| <= RECORD_LIMIT
  }

  lemma RunExtends(start: World, view: View, actions: seq<Action>, before: World, action: Action, after: World)
    requires PacedRun(start, view, actions, true, before) && before.route.authorization == Some(view)
    requires Enabled(before, action) && PacedAction(before, view, action) && Next(before, action) == Ok(after)
    ensures PacedRun(start, view, actions + [action], true, after)
  {
  }

  function Zeros(count: nat): (bytes: seq<byte>)
    ensures |bytes| == count
  {
    seq(count, _ => 0)
  }

  /** A free authorization with nothing settled: the smallest window, five seconds long. */
  const QUIET: View :=
    var nothing := Settled(0, 0, 0, None, false);
    var authorization := Authorization("auth", "session", "net", 1, "a", "b", 0, 1024 * 1024, 5, 1, 0, 1000, 2000,
                                       nothing, nothing);
    View("ledger", authorization, "ka", "kb")

  function Outset(): World {
    World(Route(1, 2, true, Some(QUIET), OpenDirection(QUIET, SenderToReceiver),
                OpenDirection(QUIET, ReceiverToSender), false),
          FreshLane(QUIET, SenderToReceiver), FreshLane(QUIET, ReceiverToSender), false, false)
  }

  /** Sender and Node have counted the same bytes, none of them receipted, and nothing is on its way to the Node. */
  ghost predicate AtRest(world: World, counted: nat, asked: Option<u64>) {
    var node := world.route.forward;
    var lane := world.forward;
    && world.route.authorization == Some(QUIET) && world.route.accepted && !world.route.recovery
    && world.route.backward == OpenDirection(QUIET, ReceiverToSender)
    && node.prefix == lane.sender.prefix && node.prefix.bytes == counted && node.prefix.sequence < 1000
    && node.receiptedBytes == 0 && lane.sender.receiptedBytes == 0
    && !node.awaitingReceipt && !lane.sender.awaitingReceipt && !lane.localFin && lane.toNode == []
    && (asked.None? ==> node.checkpointRequest.None? && node.windowStartedBytes == 0)
    && (asked.Some? ==> node.checkpointRequest.Some? && !node.checkpointRequest.value.final
                        && node.windowStartedBytes == asked.value && node.windowStartedAt in {None, Some(5)})
  }

  lemma RecordSent(start: World, actions: seq<Action>, world: World, counted: nat,
                   asked: Option<u64>, size: nat, now: i64)
    requires PacedRun(start, QUIET, actions, true, world) && AtRest(world, counted, asked)
    requires 0 < size <= RECORD_LIMIT && counted + size <= 2 * 1024 * 1024
    ensures var send := SendRecord(SenderToReceiver, Zeros(size), now);
            && Enabled(world, send)
            && PacedRun(start, QUIET, actions + [send], true, Next(world, send).value)
  {
    var send := SendRecord(SenderToReceiver, Zeros(size), now);
    RunExtends(start, QUIET, actions, world, send, Next(world, send).value);
  }

  /** The Node counts a record that fits the windows. */
  lemma RecordFits(route: Route, frame: Frame, now: i64)
    requires route.authorization == Some(QUIET) && route.accepted && !route.recovery && now < 1000
    requires frame.DataFrame? && |frame.payload| <= MAX_FRAME_PAYLOAD
    requires route.forward.prefix.bytes + |frame.payload| <= U64_MAX
    requires frame.sequence == SatAdd64(route.forward.prefix.sequence, 1)
    requires AcceptsMoreData(route.forward, 1024 * 1024, 5, |frame.payload|, now)
    requires route.forward.checkpointRequest.None? ==>
               SatSub64(route.forward.prefix.bytes + |frame.payload|, route.forward.windowStartedBytes) < 1024 * 1024
    ensures NodeTakes(QUIET, route, SenderToReceiver, frame, now)
            == Ok(Accepted(route.(forward := H.Counted(route.forward, frame, now)), None))
  {
  }

  predicate Fits(counted: nat, asked: Option<u64>, size: nat) {
    && 0 < size <= RECORD_LIMIT && counted + size <= 2 * 1024 * 1024
    && (asked.None? ==> counted + size < 1024 * 1024)
    && (asked.Some? ==> asked.value <= counted && counted + size - asked.value <= 1024 * 1024)
  }

  lemma RecordRead(world: World, counted: nat, asked: Option<u64>, size: nat, now: i64) returns (end: World)
    requires AtRest(world, counted, asked) && world.route.forward.prefix.sequence < 999 && Fits(counted, asked, size)
    requires Enabled(world, SendRecord(SenderToReceiver, Zeros(size), now))
    requires 0 <= now < 1000 && (asked.Some? ==> now == 5)
    ensures var sent := Next(world, SendRecord(SenderToReceiver, Zeros(size), now)).value;
            && sent.route.authorization == Some(QUIET) && Enabled(sent, NodeReads(SenderToReceiver, now))
            && Next(sent, NodeReads(SenderToReceiver, now)) == Ok(end)
    ensures AtRest(end, counted + size, asked)
    ensures end.route.forward.prefix.sequence == world.route.forward.prefix.sequence + 1
    ensures var started := world.route.forward.windowStartedAt;
            end.route.forward.windowStartedAt == if started.Some? then started else Some(now)
  {
    var sent := Next(world, SendRecord(SenderToReceiver, Zeros(size), now)).value;
    var frame := DataFrame(world.forward.sender.prefix.sequence + 1, Zeros(size));
    assert sent.forward.toNode == [frame];
    RecordFits(sent.route, frame, now);
    var lane := sent.forward;
    end := sent.(route := sent.route.(forward := H.Counted(sent.route.forward, frame, now)),
                 forward := lane.(toNode := [], toReceiver := lane.toReceiver + [frame]));
    assert lane.toNode[1..] == [] && lane.toSender + [] == lane.toSender;
  }

  lemma RecordCounted(start: World, actions: seq<Action>, world: World, counted: nat, asked: Option<u64>, size: nat,
                      now: i64) returns (end: World)
    requires PacedRun(start, QUIET, actions, true, world) && AtRest(world, counted, asked)
    requires world.route.forward.prefix.sequence < 999
    requires Fits(counted, asked, size) && 0 <= now < 1000 && (asked.Some? ==> now == 5)
    ensures AtRest(end, counted + size, asked)
    ensures end.route.forward.prefix.sequence == world.route.forward.prefix.sequence + 1
    ensures var started := world.route.forward.windowStartedAt;
            end.route.forward.windowStartedAt == if started.Some? then started else Some(now)
    ensures PacedRun(start, QUIET,
                     actions + [SendRecord(SenderToReceiver, Zeros(size), now)]
                       + [NodeReads(SenderToReceiver, now)], true, end)
  {
    var send := SendRecord(SenderToReceiver, Zeros(size), now);
    RecordSent(start, actions, world, counted, asked, size, now);
    end := RecordRead(world, counted, asked, size, now);
    RunExtends(start, QUIET, actions + [send], Next(world, send).value, NodeReads(SenderToReceiver, now), end);
  }

  lemma TimerAsks(start: World, actions: seq<Action>, world: World) returns (end: World)
    requires PacedRun(start, QUIET, actions, true, world) && AtRest(world, 19, None)
    requires world.route.forward.windowStartedAt == Some(0)
    ensures AtRest(end, 19, Some(19)) && end.route.forward.prefix == world.route.forward.prefix
    ensures PacedRun(start, QUIET, actions + [NodeTicks(SenderToReceiver, 5)], true, end)
  {
    end := Next(world, NodeTicks(SenderToReceiver, 5)).value;
    RunExtends(start, QUIET, actions, world, NodeTicks(SenderToReceiver, 5), end);
  }

  lemma Overrun(start: World, actions: seq<Action>, world: World, counted: nat, asked: u64) returns (end: World)
    requires PacedRun(start, QUIET, actions, true, world) && AtRest(world, counted, Some(asked))
    requires asked <= counted && counted - asked == 1024 * 1024 && counted + 19 <= 2 * 1024 * 1024
    ensures PacedRun(start, QUIET, actions + [SendRecord(SenderToReceiver, Zeros(19), 5)], true, end)
    ensures end.route.authorization == Some(QUIET) && Enabled(end, NodeReads(SenderToReceiver, 5))
    ensures Next(end, NodeReads(SenderToReceiver, 5)).Err?
  {
    RecordSent(start, actions, world, counted, Some(asked), 19, 5);
    end := Next(world, SendRecord(SenderToReceiver, Zeros(19), 5)).value;
    assert end.forward.toNode[0] == DataFrame(world.forward.sender.prefix.sequence + 1, Zeros(19));
  }

  lemma RecordAdded(start: World, actions: seq<Action>, world: World, counted: nat)
    returns (all: seq<Action>, end: World)
    requires PacedRun(start, QUIET, actions, true, world) && AtRest(world, counted, Some(19)) && OfRecordSize(actions)
    requires 19 <= counted && counted + 65536 <= 19 + 1024 * 1024 && world.route.forward.prefix.sequence < 999
    ensures PacedRun(start, QUIET, all, true, end) && AtRest(end, counted + 65536, Some(19)) && OfRecordSize(all)
    ensures end.route.forward.prefix.sequence == world.route.forward.prefix.sequence + 1 && actions <= all
  {
    end := RecordCounted(start, actions, world, counted, Some(19), 65536, 5);
    all := actions + [SendRecord(SenderToReceiver, Zeros(65536), 5)] + [NodeReads(SenderToReceiver, 5)];
  }

  /** Sixteen records of 64 KiB make up a window. */
  lemma {:induction false} Fill(start: World, actions: seq<Action>, world: World, counted: nat, count: nat)
    returns (all: seq<Action>, end: World)
    requires PacedRun(start, QUIET, actions, true, world) && AtRest(world, counted, Some(19)) && OfRecordSize(actions)
    requires 19 <= counted && counted + count * 65536 <= 19 + 1024 * 1024
    requires world.route.forward.prefix.sequence + count < 999
    ensures PacedRun(start, QUIET, all, true, end) && AtRest(end, counted + count * 65536, Some(19))
    ensures OfRecordSize(all) && actions <= all
    decreases count
  {
    if count == 0 {
      all, end := actions, world;
    } else {
      var more, next := RecordAdded(start, actions, world, counted);
      all, end := Fill(start, more, next, counted + 65536, count - 1);
    }
  }

  const READY: seq<Action> := [Establishes(true), Establishes(false)]

  const FIRST: seq<Action> :=
    READY + [SendRecord(SenderToReceiver, Zeros(19), 0)] + [NodeReads(SenderToReceiver, 0)]

  lemma BothReady(start: World)
    requires start.route.authorization == Some(QUIET)
    ensures PacedRun(start, QUIET, READY, true, start.(initiatorReady := true, responderReady := true))
  {
    var once := start.(initiatorReady := true);
    RunExtends(start, QUIET, [], start, Establishes(true), once);
    assert [] + [Establishes(true)] == [Establishes(true)];
    RunExtends(start, QUIET, [Establishes(true)], once, Establishes(false), once.(responderReady := true));
    assert [Establishes(true)] + [Establishes(false)] == READY;
  }

  lemma FirstCounted(start: World) returns (world: World)
    requires AtRest(start, 0, None) && start.route.forward.prefix.sequence == 0
    requires start.route.forward.windowStartedAt.None?
    ensures PacedRun(start, QUIET, FIRST, true, world) && AtRest(world, 19, None)
    ensures world.route.forward.prefix.sequence == 1 && world.route.forward.windowStartedAt == Some(0)
  {
    BothReady(start);
    world := RecordCounted(start, READY, start.(initiatorReady := true, responderReady := true), 0, None, 19, 0);
  }

  lemma OutsetAtRest()
    ensures Start(Outset(), QUIET) && AtRest(Outset(), 0, None)
    ensures Outset().route.forward.prefix.sequence == 0 && Outset().route.forward.windowStartedAt.None?
  {
  }

  const ASKED: seq<Action> := FIRST + [NodeTicks(SenderToReceiver, 5)]

  /** The timer asks for a checkpoint once a first record has been waiting for five seconds. */
  lemma Asked(start: World) returns (world: World)
    requires AtRest(start, 0, None) && start.route.forward.prefix.sequence == 0
    requires start.route.forward.windowStartedAt.None?
    ensures PacedRun(start, QUIET, ASKED, true, world) && AtRest(world, 19, Some(19))
    ensures world.route.forward.prefix.sequence == 1
  {
    var counted := FirstCounted(start);
    world := TimerAsks(start, FIRST, counted);
  }

  lemma AskedIsOfRecordSize()
    ensures READY <= ASKED && OfRecordSize(ASKED)
  {
  }

  lemma Filled(start: World) returns (actions: seq<Action>, world: World)
    requires AtRest(start, 0, None) && start.route.forward.prefix.sequence == 0
    requires start.route.forward.windowStartedAt.None?
    ensures PacedRun(start, QUIET, actions, true, world) && AtRest(world, 19 + 1024 * 1024, Some(19))
    ensures READY <= actions && OfRecordSize(actions)
  {
    var asked := Asked(start);
    AskedIsOfRecordSize();
    actions, world := Fill(start, ASKED, asked, 19, 16);
  }

  /** A sender within its allowance is refused, with both members past their handshake and every record of a size the
      SDK sends: a 19-byte record, a timer-raised request that the sender has not read yet, one full window in records
      of 64 KiB, and then another 19 bytes. */
  lemma CrossingIsRefused() returns (actions: seq<Action>, world: World)
    ensures Start(Outset(), QUIET) && PacedRun(Outset(), QUIET, actions, true, world)
    ensures READY <= actions && OfRecordSize(actions)
    ensures world.route.authorization == Some(QUIET) && Enabled(world, NodeReads(SenderToReceiver, 5))
    ensures Next(world, NodeReads(SenderToReceiver, 5)).Err?
  {
    var start := Outset();
    OutsetAtRest();
    var filled, full := Filled(start);
    world := Overrun(start, filled, full, 19 + 1024 * 1024, 19);
    actions := filled + [SendRecord(SenderToReceiver, Zeros(19), 5)];
  }
}
