/** The records that members and the Relay Node exchange.

    Cryptography is symbolic: a transcript hash is the term it was computed
    from, a checkpoint digest is the checkpoint it was computed from, and a
    signature is the pair of the signing key and the signed fields. Equal
    hashes therefore mean equal preimages, and a signature verifies exactly
    when the named key signed exactly those fields. */
module RelayModel {
  import opened MachineInts

  const PROTOCOL_VERSION: u32 := 1
  const MAX_FRAME_PAYLOAD := 1024 * 1024
  const RELAY_PAYMENT_WINDOW_BYTES: u64 := 32 * 1024 * 1024
  const RELAY_PAYMENT_WINDOW_SECONDS: i64 := 30
  /** A receipt must follow its checkpoint, and a timestamp may lead the local clock, by at most this. */
  const CLOCK_SLACK_SECONDS: i64 := 30

  datatype RelayError =
    | AuthorizationActive | AuthorizationExpired | ByteCounterOverflow | ConnectionLimit | Draining
    | InsufficientReservation | InvalidCheckpoint | InvalidCloseIntent | InvalidReceipt | MemberOffline
    | NotAccepted | NotOwner | NotRequested | NothingPending | PayloadTooLarge | QueueFull | ReceiptUnsettled
    | RecoveryChannel | RecoveryRequired | RecoveryStateLost | RecoveryStateOld | RequestMismatch | SequenceGap
    | SequenceOverflow | UnexpectedFrame | UnknownChannel | Unpaid | WindowExhausted | WrongMember

  type RelayResult<+T> = Result<T, RelayError>

  datatype Direction = SenderToReceiver | ReceiverToSender

  datatype Transcript =
    | Initial(ledgerId: string, nodeId: u64, authorizationId: string, sessionId: string, direction: Direction)
    | Extended(previous: Transcript, sequence: u64, payload: seq<byte>)

  /** What both sides of a direction count: the last DATA sequence number, the
      bytes carried so far and the hash chained over every payload. */
  datatype Prefix = Prefix(sequence: u64, bytes: u64, transcript: Transcript)

  datatype Settled = Settled(sequence: u64, bytes: u64, amount: u128, transcript: Option<Transcript>, finalized: bool)

  datatype Authorization = Authorization(
    authorizationId: string, sessionId: string, networkId: string, nodeId: u64,
    senderMember: string, receiverMember: string,
    pricePerGib: u128, windowBytes: u64, windowSeconds: i64, reservedRemaining: u128,
    createdAt: i64, validUntil: i64, claimUntil: i64,
    forward: Settled, backward: Settled)
  {
    function SettledIn(direction: Direction): Settled {
      if direction == SenderToReceiver then forward else backward
    }
  }

  datatype View = View(ledgerId: string, authorization: Authorization, senderKey: string, receiverKey: string) {
    /** The member that sends DATA in a direction, and the key it signs with. */
    function Sender(direction: Direction): string {
      if direction == SenderToReceiver then authorization.senderMember else authorization.receiverMember
    }

    function SenderKey(direction: Direction): string {
      if direction == SenderToReceiver then senderKey else receiverKey
    }

    function Receiver(direction: Direction): string {
      if direction == SenderToReceiver then authorization.receiverMember else authorization.senderMember
    }

    function ReceiverKey(direction: Direction): string {
      if direction == SenderToReceiver then receiverKey else senderKey
    }

    function BindingFor(direction: Direction): Binding {
      Binding(ledgerId, PROTOCOL_VERSION, authorization.nodeId,
              authorization.authorizationId, authorization.sessionId, direction)
    }

    /** Where a direction starts: the prefix the chain has settled. */
    function StartingPrefix(direction: Direction): Prefix {
      var settled := authorization.SettledIn(direction);
      Prefix(settled.sequence, settled.bytes,
             if settled.transcript.Some? then settled.transcript.value
             else Initial(ledgerId, authorization.nodeId, authorization.authorizationId,
                          authorization.sessionId, direction))
    }
  }

  /** The fields by which a checkpoint or a receipt names its ledger, Node, authorization, session and direction. */
  datatype Binding = Binding(ledgerId: string, protocolVersion: u32, nodeId: u64,
                             authorizationId: string, sessionId: string, direction: Direction)

  datatype CheckpointRequest = CheckpointRequest(authorizationId: string, sessionId: string, direction: Direction,
                                                 prefix: Prefix, requestedAt: i64, final: bool)

  datatype CloseIntent = CloseIntent(authorizationId: string, sessionId: string, direction: Direction,
                                     prefix: Prefix, requestedAt: i64)

  datatype CheckpointBody = CheckpointBody(binding: Binding, prefix: Prefix, checkpointAt: i64,
                                           senderMember: string, final: bool)

  datatype SenderCheckpoint = SenderCheckpoint(body: CheckpointBody, signature: CheckpointSignature)

  datatype CheckpointSignature = CheckpointSignature(key: string, signed: CheckpointBody)

  datatype ReceiptBody = ReceiptBody(binding: Binding, prefix: Prefix, checkpointDigest: SenderCheckpoint,
                                     receivedAt: i64, receiverMember: string)

  datatype ReceiverReceipt = ReceiverReceipt(body: ReceiptBody, signature: ReceiptSignature)

  datatype ReceiptSignature = ReceiptSignature(key: string, signed: ReceiptBody)

  /** One DATA payload added to a prefix. */
  function Advance(prefix: Prefix, sequence: u64, payload: seq<byte>): Prefix
    requires prefix.bytes + |payload| <= U64_MAX
  {
    Prefix(sequence, prefix.bytes + |payload|, Extended(prefix.transcript, sequence, payload))
  }

  /** `later` is `earlier` itself or has carried at least one more DATA frame
      and at least one more byte: the shape both coverage tests look for. */
  predicate SameOrLater(earlier: Prefix, later: Prefix) {
    earlier == later || (earlier.sequence < later.sequence && earlier.bytes < later.bytes)
  }
}
