/** A member's end of an encrypted stream: what the SDK counts in each
    direction, what it signs, and what it checks before signing. */
module StreamChannel {
  import opened MachineInts
  import opened RelayModel

  datatype StreamDirection = StreamDirection(
    prefix: Prefix,
    windowStartedAt: Option<i64>,
    windowStartedBytes: u64,
    receiptedBytes: u64,
    awaitingReceipt: bool,
    pendingCheckpoint: Option<SenderCheckpoint>)

  function InitialDirection(view: View, direction: Direction): StreamDirection {
    var settled := view.authorization.SettledIn(direction);
    StreamDirection(view.StartingPrefix(direction), None, settled.bytes, settled.bytes, false, None)
  }

  function StartWindow(state: StreamDirection, now: i64): Option<i64> {
    if state.windowStartedAt.Some? then state.windowStartedAt else Some(now)
  }

  function AdvanceOutgoing(state: StreamDirection, payload: seq<byte>, now: i64): RelayResult<StreamDirection> {
    if state.prefix.sequence == U64_MAX then Err(SequenceOverflow)
    else if state.prefix.bytes + |payload| > U64_MAX then Err(ByteCounterOverflow)
    else Ok(state.(prefix := Advance(state.prefix, state.prefix.sequence + 1, payload),
                   windowStartedAt := StartWindow(state, now)))
  }

  function AdvanceIncoming(state: StreamDirection, sequence: u64, payload: seq<byte>,
                           now: i64): RelayResult<StreamDirection> {
    if sequence != SatAdd64(state.prefix.sequence, 1) then Err(SequenceGap)
    else if state.prefix.bytes + |payload| > U64_MAX then Err(ByteCounterOverflow)
    else Ok(state.(prefix := Advance(state.prefix, sequence, payload), windowStartedAt := StartWindow(state, now)))
  }

  /** How many more bytes the sender lets itself put on the wire. */
  function OutgoingWriteAllowance(state: StreamDirection, windowBytes: u64, windowSeconds: i64, now: i64): u64 {
    var risk := SatSub64(SatDouble64(windowBytes), SatSub64(state.prefix.bytes, state.receiptedBytes));
    if !state.awaitingReceipt then risk
    else if state.windowStartedAt.Some? && SatSubI64(now, state.windowStartedAt.value) >= windowSeconds then 0
    else
      var window := SatSub64(windowBytes, SatSub64(state.prefix.bytes, state.windowStartedBytes));
      if risk < window then risk else window
  }

  predicate RequestMatches(request: CheckpointRequest, state: StreamDirection) {
    || request.prefix == state.prefix
    || (!request.final && request.prefix.sequence < state.prefix.sequence && request.prefix.bytes < state.prefix.bytes)
  }

  datatype Answered = Answered(state: StreamDirection, checkpoint: SenderCheckpoint)

  /** Signing the latest prefix in answer to a Node request. */
  function AnswerRequest(view: View, direction: Direction, state: StreamDirection, request: CheckpointRequest,
                         now: i64): RelayResult<Answered> {
    if || request.authorizationId != view.authorization.authorizationId
       || request.sessionId != view.authorization.sessionId
       || request.direction != direction
       || !RequestMatches(request, state)
       || state.awaitingReceipt
    then Err(RequestMismatch)
    else
      var body := CheckpointBody(view.BindingFor(direction), state.prefix, now, view.Sender(direction), request.final);
      var checkpoint := SenderCheckpoint(body, CheckpointSignature(view.SenderKey(direction), body));
      Ok(Answered(state.(windowStartedAt := None, windowStartedBytes := state.prefix.bytes,
                         awaitingReceipt := true, pendingCheckpoint := Some(checkpoint)), checkpoint))
  }

  predicate ValidIncomingCheckpoint(checkpoint: SenderCheckpoint, frameSequence: u64, view: View, direction: Direction,
                                    state: StreamDirection, now: i64) {
    var body := checkpoint.body;
    && body.binding == view.BindingFor(direction)
    && body.prefix == state.prefix
    && body.prefix.sequence == frameSequence
    && body.senderMember == view.Sender(direction)
    && body.checkpointAt <= SatAddI64(now, CLOCK_SLACK_SECONDS)
    && checkpoint.signature == CheckpointSignature(view.SenderKey(direction), body)
  }

  function SignReceipt(view: View, direction: Direction, checkpoint: SenderCheckpoint, now: i64): ReceiverReceipt {
    var body := ReceiptBody(checkpoint.body.binding, checkpoint.body.prefix, checkpoint, now, view.Receiver(direction));
    ReceiverReceipt(body, ReceiptSignature(view.ReceiverKey(direction), body))
  }

  datatype Receipted = Receipted(state: StreamDirection, receipt: ReceiverReceipt)

  function TakeCheckpoint(view: View, direction: Direction, state: StreamDirection, checkpoint: SenderCheckpoint,
                          frameSequence: u64, now: i64): RelayResult<Receipted> {
    if !ValidIncomingCheckpoint(checkpoint, frameSequence, view, direction, state, now) then
      Err(InvalidCheckpoint)
    else
      Ok(Receipted(state.(windowStartedAt := None, windowStartedBytes := checkpoint.body.prefix.bytes,
                          receiptedBytes := checkpoint.body.prefix.bytes),
                   SignReceipt(view, direction, checkpoint, now)))
  }

  predicate ValidOutgoingReceipt(receipt: ReceiverReceipt, view: View, direction: Direction,
                                 checkpoint: SenderCheckpoint) {
    var body := receipt.body;
    && body.binding.direction == direction
    && body.binding.ledgerId == view.ledgerId
    && body.binding.protocolVersion == PROTOCOL_VERSION
    && body.binding.nodeId == view.authorization.nodeId
    && body.binding.authorizationId == checkpoint.body.binding.authorizationId
    && body.binding.sessionId == checkpoint.body.binding.sessionId
    && body.prefix == checkpoint.body.prefix
    && body.checkpointDigest == checkpoint
    && body.receiverMember == view.Receiver(direction)
    && body.receivedAt >= checkpoint.body.checkpointAt
    && SatSubI64(body.receivedAt, checkpoint.body.checkpointAt) <= CLOCK_SLACK_SECONDS
    && receipt.signature == ReceiptSignature(view.ReceiverKey(direction), body)
  }

  function TakeReceipt(view: View, direction: Direction, state: StreamDirection,
                       receipt: ReceiverReceipt): RelayResult<StreamDirection> {
    if state.pendingCheckpoint.None? then Err(NothingPending)
    else if !ValidOutgoingReceipt(receipt, view, direction, state.pendingCheckpoint.value) then
      Err(InvalidReceipt)
    else
      Ok(state.(receiptedBytes := receipt.body.prefix.bytes, awaitingReceipt := false, pendingCheckpoint := None))
  }

  function IntentFor(view: View, direction: Direction, state: StreamDirection, now: i64): CloseIntent {
    CloseIntent(view.authorization.authorizationId, view.authorization.sessionId, direction, state.prefix, now)
  }

  /** A record that fails on the byte counter has already taken its sequence number and started the window. */
  function HalfCounted(state: StreamDirection, sequence: u64, now: i64): StreamDirection {
    state.(prefix := state.prefix.(sequence := sequence), windowStartedAt := StartWindow(state, now))
  }

  /** The frames of an established stream, as one end sends or receives them. */
  datatype Frame =
    | DataFrame(sequence: u64, payload: seq<byte>)
    | RequestFrame(request: CheckpointRequest)
    | CheckpointFrame(sequence: u64, checkpoint: SenderCheckpoint, finalFlag: bool)
    | ReceiptFrame(receipt: ReceiverReceipt)
    | IntentFrame(intent: CloseIntent)

  /** The stream actor's mutable state. A method that returns false has failed
      the stream; nothing it does is sent. */
  class Channel {
    const view: View
    const outgoingDirection: Direction
    const incomingDirection: Direction
    var outgoing: StreamDirection
    var incoming: StreamDirection
    var localFin: bool
    var localFinReceipted: bool
    var sent: seq<Frame>

    constructor (view: View, initiator: bool)
      ensures this.view == view && localFin == false && localFinReceipted == false && sent == []
      ensures outgoingDirection == (if initiator then SenderToReceiver else ReceiverToSender)
      ensures incomingDirection != outgoingDirection
      ensures outgoing == InitialDirection(view, outgoingDirection)
      ensures incoming == InitialDirection(view, incomingDirection)
    {
      this.view := view;
      var mine := if initiator then SenderToReceiver else ReceiverToSender;
      var theirs := if initiator then ReceiverToSender else SenderToReceiver;
      outgoingDirection := mine;
      incomingDirection := theirs;
      outgoing := InitialDirection(view, mine);
      incoming := InitialDirection(view, theirs);
      localFin, localFinReceipted, sent := false, false, [];
    }

    method SendRecord(payload: seq<byte>, now: i64) returns (ok: bool)
      modifies this`outgoing, this`sent
      ensures ok == AdvanceOutgoing(old(outgoing), payload, now).Ok?
      ensures ok ==> outgoing == AdvanceOutgoing(old(outgoing), payload, now).value
                     && sent == old(sent) + [DataFrame(outgoing.prefix.sequence, payload)]
      ensures !ok ==> sent == old(sent)
      ensures !ok ==> outgoing == if old(outgoing).prefix.sequence == U64_MAX then old(outgoing)
                                  else HalfCounted(old(outgoing), old(outgoing).prefix.sequence + 1, now)
    {
      if outgoing.prefix.sequence == U64_MAX { return false; }
      var sequence := outgoing.prefix.sequence + 1;
      if outgoing.prefix.bytes + |payload| > U64_MAX {
        outgoing := HalfCounted(outgoing, sequence, now);
        return false;
      }
      outgoing := outgoing.(windowStartedAt := StartWindow(outgoing, now));
      outgoing := outgoing.(prefix := Advance(outgoing.prefix, sequence, payload));
      sent := sent + [DataFrame(sequence, payload)];
      return true;
    }

    /** The authenticated FIN and the CloseIntent that names it leave together. */
    method SendFin(payload: seq<byte>, now: i64) returns (ok: bool)
      requires !localFin && !outgoing.awaitingReceipt
      modifies this`outgoing, this`sent, this`localFin
      ensures ok == AdvanceOutgoing(old(outgoing), payload, now).Ok?
      ensures ok ==> outgoing == AdvanceOutgoing(old(outgoing), payload, now).value && localFin
                     && sent == old(sent) + [DataFrame(outgoing.prefix.sequence, payload),
                                             IntentFrame(IntentFor(view, outgoingDirection, outgoing, now))]
      ensures !ok ==> sent == old(sent) && !localFin
      ensures !ok ==> outgoing == if old(outgoing).prefix.sequence == U64_MAX then old(outgoing)
                                  else HalfCounted(old(outgoing), old(outgoing).prefix.sequence + 1, now)
    {
      ok := SendRecord(payload, now);
      if ok {
        localFin := true;
        sent := sent + [IntentFrame(IntentFor(view, outgoingDirection, outgoing, now))];
      }
    }

    method OnData(sequence: u64, payload: seq<byte>, now: i64) returns (ok: bool)
      modifies this`incoming
      ensures ok == AdvanceIncoming(old(incoming), sequence, payload, now).Ok?
      ensures ok ==> incoming == AdvanceIncoming(old(incoming), sequence, payload, now).value
      ensures !ok ==> incoming == if sequence != SatAdd64(old(incoming).prefix.sequence, 1) then old(incoming)
                                  else HalfCounted(old(incoming), sequence, now)
    {
      if sequence != SatAdd64(incoming.prefix.sequence, 1) { return false; }
      var before := incoming.prefix;
      incoming := HalfCounted(incoming, sequence, now);
      if before.bytes + |payload| > U64_MAX { return false; }
      incoming := incoming.(prefix := Advance(before, sequence, payload));
      return true;
    }

    method OnRequest(request: CheckpointRequest, now: i64) returns (ok: bool)
      modifies this`outgoing, this`sent
      ensures ok == AnswerRequest(view, outgoingDirection, old(outgoing), request, now).Ok?
      ensures ok ==> var answer := AnswerRequest(view, outgoingDirection, old(outgoing), request, now).value;
                     && outgoing == answer.state
                     && sent == old(sent) + [CheckpointFrame(answer.checkpoint.body.prefix.sequence,
                                                             answer.checkpoint, request.final)]
      ensures !ok ==> outgoing == old(outgoing) && sent == old(sent)
    {
      if || request.authorizationId != view.authorization.authorizationId
         || request.sessionId != view.authorization.sessionId
         || request.direction != outgoingDirection
         || !RequestMatches(request, outgoing)
         || outgoing.awaitingReceipt
      {
        return false;
      }
      var body := CheckpointBody(view.BindingFor(outgoingDirection), outgoing.prefix, now,
                                 view.Sender(outgoingDirection), request.final);
      var checkpoint := SenderCheckpoint(body, CheckpointSignature(view.SenderKey(outgoingDirection), body));
      sent := sent + [CheckpointFrame(body.prefix.sequence, checkpoint, request.final)];
      outgoing := outgoing.(windowStartedAt := None);
      outgoing := outgoing.(windowStartedBytes := body.prefix.bytes);
      outgoing := outgoing.(awaitingReceipt := true);
      outgoing := outgoing.(pendingCheckpoint := Some(checkpoint));
      return true;
    }

    method OnCheckpoint(checkpoint: SenderCheckpoint, frameSequence: u64, now: i64) returns (ok: bool)
      modifies this`incoming, this`sent
      ensures ok == TakeCheckpoint(view, incomingDirection, old(incoming), checkpoint, frameSequence, now).Ok?
      ensures ok ==>
                var taken := TakeCheckpoint(view, incomingDirection, old(incoming), checkpoint,
                                            frameSequence, now).value;
                     incoming == taken.state && sent == old(sent) + [ReceiptFrame(taken.receipt)]
      ensures !ok ==> incoming == old(incoming) && sent == old(sent)
    {
      if !ValidIncomingCheckpoint(checkpoint, frameSequence, view, incomingDirection, incoming, now) { return false; }
      sent := sent + [ReceiptFrame(SignReceipt(view, incomingDirection, checkpoint, now))];
      incoming := incoming.(windowStartedAt := None);
      incoming := incoming.(windowStartedBytes := checkpoint.body.prefix.bytes);
      incoming := incoming.(receiptedBytes := checkpoint.body.prefix.bytes);
      return true;
    }

    /** Any receipt that arrives after FIN marks FIN as receipted. */
    method OnReceipt(receipt: ReceiverReceipt) returns (ok: bool)
      modifies this`outgoing, this`localFinReceipted
      ensures ok == TakeReceipt(view, outgoingDirection, old(outgoing), receipt).Ok?
      ensures ok ==> outgoing == TakeReceipt(view, outgoingDirection, old(outgoing), receipt).value
      ensures localFinReceipted == (old(localFinReceipted) || (ok && localFin))
      ensures !ok ==> outgoing == old(outgoing)
    {
      if outgoing.pendingCheckpoint.None?
         || !ValidOutgoingReceipt(receipt, view, outgoingDirection, outgoing.pendingCheckpoint.value)
      {
        return false;
      }
      outgoing := outgoing.(receiptedBytes := receipt.body.prefix.bytes);
      outgoing := outgoing.(awaitingReceipt := false);
      outgoing := outgoing.(pendingCheckpoint := None);
      if localFin {
        localFinReceipted := true;
      }
      return true;
    }
  }
}
