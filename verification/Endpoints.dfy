/** A member's `Channel` plays its part of the three-party machine: whatever it
    sends or takes is the step of the machine that bears the same name, so what
    holds of every run holds of the mutable state. */
module Endpoints {
  import opened MachineInts
  import opened RelayModel
  import opened StreamChannel
  import opened Agreement

  /** The channel's state is the sender's end of one lane and the receiver's end of the other. */
  ghost predicate Plays(channel: Channel, world: World)
    reads channel
  {
    && channel.incomingDirection != channel.outgoingDirection
    && world.route.authorization == Some(channel.view)
    && channel.outgoing == world.LaneIn(channel.outgoingDirection).sender
    && channel.localFin == world.LaneIn(channel.outgoingDirection).localFin
    && channel.incoming == world.LaneIn(channel.incomingDirection).receiver
  }

  method OpenEnd(view: View, initiator: bool, ghost world: World) returns (channel: Channel)
    requires Start(world, view)
    ensures fresh(channel) && Plays(channel, world) && channel.sent == []
    ensures channel.outgoingDirection == if initiator then SenderToReceiver else ReceiverToSender
  {
    channel := new Channel(view, initiator);
  }

  /** The frame this end has put on a link, given what it had sent before. */
  function SentSince(sent: seq<Frame>, before: nat): seq<Frame>
    requires before <= |sent|
  {
    sent[before..]
  }

  method Write(channel: Channel, payload: seq<byte>, now: i64, ghost world: World) returns (ok: bool)
    requires Plays(channel, world) && !channel.localFin && 0 < |payload| <= MAX_FRAME_PAYLOAD
    modifies channel`outgoing, channel`sent
    ensures ok <==> Enabled(world, SendRecord(channel.outgoingDirection, payload, now))
    ensures ok ==> var next := Next(world, SendRecord(channel.outgoingDirection, payload, now));
                   && next.Ok? && Plays(channel, next.value) && |old(channel.sent)| <= |channel.sent|
                   && next.value.LaneIn(channel.outgoingDirection).toNode
                      == world.LaneIn(channel.outgoingDirection).toNode + SentSince(channel.sent, |old(channel.sent)|)
  {
    ok := channel.SendRecord(payload, now);
  }

  method Finish(channel: Channel, payload: seq<byte>, now: i64, ghost world: World) returns (ok: bool)
    requires Plays(channel, world) && world.SenderReady(channel.outgoingDirection)
    requires !channel.localFin && !channel.outgoing.awaitingReceipt && 0 < |payload| <= MAX_FRAME_PAYLOAD
    modifies channel`outgoing, channel`sent, channel`localFin
    ensures ok <==> Enabled(world, SendFin(channel.outgoingDirection, payload, now))
    ensures ok ==> var next := Next(world, SendFin(channel.outgoingDirection, payload, now));
                   && next.Ok? && Plays(channel, next.value) && |old(channel.sent)| <= |channel.sent|
                   && next.value.LaneIn(channel.outgoingDirection).toNode
                      == world.LaneIn(channel.outgoingDirection).toNode + SentSince(channel.sent, |old(channel.sent)|)
  {
    ok := channel.SendFin(payload, now);
  }

  /** The next frame of the lane this end receives on. During the handshake only DATA is taken. */
  method TakeIncoming(channel: Channel, ready: bool, frame: Frame, now: i64, ghost world: World) returns (ok: bool)
    requires Plays(channel, world) && ready == world.ReceiverReady(channel.incomingDirection)
    requires var link := world.LaneIn(channel.incomingDirection).toReceiver; link != [] && frame == link[0]
    modifies channel`incoming, channel`sent
    ensures ok <==> Next(world, ReceiverReads(channel.incomingDirection, now)).Ok?
    ensures ok ==> var next := Next(world, ReceiverReads(channel.incomingDirection, now)).value;
                   && Plays(channel, next) && |old(channel.sent)| <= |channel.sent|
                   && next.LaneIn(channel.incomingDirection).fromReceiver
                      == world.LaneIn(channel.incomingDirection).fromReceiver
                        + SentSince(channel.sent, |old(channel.sent)|)
    ensures !ok ==> channel.sent == old(channel.sent)
  {
    match frame
    case DataFrame(sequence, payload) => ok := channel.OnData(sequence, payload, now);
    case CheckpointFrame(sequence, checkpoint, _) =>
      if !ready {
        return false;
      }
      ok := channel.OnCheckpoint(checkpoint, sequence, now);
    case _ => return false;
  }

  /** The next frame the Node sends to the lane this end sends on. */
  method TakeOutgoing(channel: Channel, ready: bool, frame: Frame, now: i64, ghost world: World) returns (ok: bool)
    requires Plays(channel, world) && ready == world.SenderReady(channel.outgoingDirection)
    requires var link := world.LaneIn(channel.outgoingDirection).toSender; link != [] && frame == link[0]
    modifies channel`outgoing, channel`sent, channel`localFinReceipted
    ensures ok <==> Next(world, SenderReads(channel.outgoingDirection, now)).Ok?
    ensures ok ==> var next := Next(world, SenderReads(channel.outgoingDirection, now)).value;
                   && Plays(channel, next) && |old(channel.sent)| <= |channel.sent|
                   && next.LaneIn(channel.outgoingDirection).toNode
                      == world.LaneIn(channel.outgoingDirection).toNode + SentSince(channel.sent, |old(channel.sent)|)
    ensures !ok ==> channel.outgoing == old(channel.outgoing) && channel.sent == old(channel.sent)
  {
    if !ready {
      return false;
    }
    match frame
    case RequestFrame(request) => ok := channel.OnRequest(request, now);
    case ReceiptFrame(receipt) => ok := channel.OnReceipt(receipt);
    case _ => return false;
  }
}
