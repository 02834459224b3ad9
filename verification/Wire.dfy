/** What travels on a relay connection: relay frames, and the WebSocket messages
    that carry them (sections 5.2 and 5.3 of RFC 6455). Header bits are read by
    arithmetic on the byte; exclusive or is defined bit by bit. */
module Wire {
  import opened Arithmetic
  import opened MachineInts

  type u16 = x: int | 0 <= x < 0x1_0000

  const FRAME_VERSION: byte := 1
  const FRAME_HEADER_LEN := 20
  const MAX_FRAME_PAYLOAD := 1024 * 1024
  const MAX_MESSAGE := FRAME_HEADER_LEN + MAX_FRAME_PAYLOAD
  const MAX_CONSENSUS_MESSAGE_SIZE := 16 * 1024 * 1024

  datatype WireError = PayloadTooLong | ShortFrame | BadVersion | LengthMismatch | UnknownFrameType
                     | EndOfStream | Fragmented | Unmasked | MessageTooLong | ControlTooLong | BadOpcode

  // ---- Big-endian numbers ----

  function Pow256(n: nat): nat {
    if n == 0 then 1 else 256 * Pow256(n - 1)
  }

  function BigEndian(n: nat, width: nat): (s: seq<byte>)
    ensures |s| == width
  {
    if width == 0 then [] else BigEndian(n / 256, width - 1) + [n % 256]
  }

  function FromBigEndian(s: seq<byte>): nat {
    if s == [] then 0 else FromBigEndian(s[..|s| - 1]) * 256 + s[|s| - 1]
  }

  lemma {:induction false} NumberReadsBack(n: nat, width: nat)
    requires n < Pow256(width)
    ensures FromBigEndian(BigEndian(n, width)) == n
  {
    if width > 0 {
      NumberReadsBack(n / 256, width - 1);
      assert BigEndian(n, width)[..width - 1] == BigEndian(n / 256, width - 1);
    }
  }

  lemma {:induction false} BytesReadBack(s: seq<byte>)
    ensures BigEndian(FromBigEndian(s), |s|) == s && FromBigEndian(s) < Pow256(|s|)
  {
    if s != [] {
      var n := |s| - 1;
      BytesReadBack(s[..n]);
      assert s == s[..n] + [s[n]];
    }
  }

  lemma Widths()
    ensures Pow256(2) == 0x1_0000 && Pow256(4) == U32_MAX + 1 && Pow256(8) == U64_MAX + 1
  {
  }

  // ---- Relay frames ----

  datatype FrameType = Challenge | Hello | Welcome | Open | Incoming | Accept | Reject | Data | Close | Ping | Pong
                     | Error | SenderCheckpoint | ReceiverReceipt | CheckpointRequest | CloseIntent | Drain

  function Code(t: FrameType): byte {
    match t
    case Challenge => 1 case Hello => 2 case Welcome => 3 case Open => 4 case Incoming => 5 case Accept => 6
    case Reject => 7
    case Data => 8 case Close => 9 case Ping => 10 case Pong => 11 case Error => 12 case SenderCheckpoint => 13
    case ReceiverReceipt => 14 case CheckpointRequest => 15 case CloseIntent => 16 case Drain => 17
  }

  function TypeOf(code: byte): Option<FrameType> {
    match code
    case 1 => Some(Challenge) case 2 => Some(Hello) case 3 => Some(Welcome) case 4 => Some(Open)
    case 5 => Some(Incoming)
    case 6 => Some(Accept) case 7 => Some(Reject) case 8 => Some(Data) case 9 => Some(Close) case 10 => Some(Ping)
    case 11 => Some(Pong) case 12 => Some(Error) case 13 => Some(SenderCheckpoint) case 14 => Some(ReceiverReceipt)
    case 15 => Some(CheckpointRequest) case 16 => Some(CloseIntent) case 17 => Some(Drain)
    case _ => None
  }

  lemma CodesAgree(code: byte, t: FrameType)
    ensures TypeOf(code) == Some(t) <==> code == Code(t)
  {
  }

  datatype Frame = Frame(frameType: FrameType, flags: u16, channel: u32, sequence: u64, payload: seq<byte>)

  function Header(f: Frame): (h: seq<byte>)
    ensures |h| == FRAME_HEADER_LEN
  {
    [FRAME_VERSION, Code(f.frameType)] + BigEndian(f.flags, 2) + BigEndian(f.channel, 4) + BigEndian(f.sequence, 8)
    + BigEndian(|f.payload|, 4)
  }

  function EncodeFrame(f: Frame): Result<seq<byte>, WireError> {
    if |f.payload| > MAX_FRAME_PAYLOAD then Err(PayloadTooLong) else Ok(Header(f) + f.payload)
  }

  function DecodeFrame(bytes: seq<byte>): Result<Frame, WireError> {
    if |bytes| < FRAME_HEADER_LEN then Err(ShortFrame)
    else if bytes[0] != FRAME_VERSION then Err(BadVersion)
    else
      var length := FromBigEndian(bytes[16..20]);
      if length > MAX_FRAME_PAYLOAD then Err(PayloadTooLong)
      else if |bytes| != FRAME_HEADER_LEN + length then Err(LengthMismatch)
      else
        var frameType := TypeOf(bytes[1]);
        if frameType.None? then Err(UnknownFrameType)
        else
          Fits(bytes);
          Ok(Frame(frameType.value, FromBigEndian(bytes[2..4]), FromBigEndian(bytes[4..8]),
                   FromBigEndian(bytes[8..16]), bytes[20..]))
  }

  lemma Fits(bytes: seq<byte>)
    requires |bytes| >= FRAME_HEADER_LEN
    ensures FromBigEndian(bytes[2..4]) < 0x1_0000 && FromBigEndian(bytes[4..8]) <= U32_MAX
    ensures FromBigEndian(bytes[8..16]) <= U64_MAX
  {
    Widths();
    BytesReadBack(bytes[2..4]);
    BytesReadBack(bytes[4..8]);
    BytesReadBack(bytes[8..16]);
  }

  /** Where the fields of a header are. */
  lemma HeaderFields(f: Frame)
    ensures var h := Header(f);
            && h[0] == FRAME_VERSION && h[1] == Code(f.frameType) && h[2..4] == BigEndian(f.flags, 2)
            && h[4..8] == BigEndian(f.channel, 4)
            && h[8..16] == BigEndian(f.sequence, 8) && h[16..20] == BigEndian(|f.payload|, 4)
  {
  }

  lemma EncodedDecodes(f: Frame)
    requires |f.payload| <= MAX_FRAME_PAYLOAD
    ensures DecodeFrame(Header(f) + f.payload) == Ok(f)
  {
    var bytes := Header(f) + f.payload;
    HeaderFields(f);
    assert bytes[2..4] == Header(f)[2..4] && bytes[4..8] == Header(f)[4..8] && bytes[8..16] == Header(f)[8..16]
        && bytes[16..20] == Header(f)[16..20] && bytes[20..] == f.payload;
    Widths();
    NumberReadsBack(f.flags, 2);
    NumberReadsBack(f.channel, 4);
    NumberReadsBack(f.sequence, 8);
    NumberReadsBack(|f.payload|, 4);
    CodesAgree(Code(f.frameType), f.frameType);
  }

  lemma DecodedEncodes(bytes: seq<byte>, f: Frame)
    requires DecodeFrame(bytes) == Ok(f)
    ensures bytes == Header(f) + f.payload && |f.payload| <= MAX_FRAME_PAYLOAD
  {
    BytesReadBack(bytes[2..4]);
    BytesReadBack(bytes[4..8]);
    BytesReadBack(bytes[8..16]);
    BytesReadBack(bytes[16..20]);
    CodesAgree(bytes[1], f.frameType);
    assert bytes == [bytes[0], bytes[1]] + bytes[2..4] + bytes[4..8] + bytes[8..16] + bytes[16..20] + bytes[20..];
  }

  /** Encoding and decoding are inverse to each other. */
  lemma FramesInvert(bytes: seq<byte>, f: Frame)
    ensures DecodeFrame(bytes) == Ok(f) <==> EncodeFrame(f) == Ok(bytes)
  {
    if EncodeFrame(f) == Ok(bytes) {
      EncodedDecodes(f);
    }
    if DecodeFrame(bytes) == Ok(f) {
      DecodedEncodes(bytes, f);
    }
  }

  // ---- Masking ----

  /** Exclusive or of the low `bits` bits. */
  function XorBits(a: nat, b: nat, bits: nat): (r: nat)
    ensures r < Pow2(bits)
  {
    if bits == 0 then 0 else 2 * XorBits(a / 2, b / 2, bits - 1) + (a + b) % 2
  }

  lemma Parity(a: nat, b: nat, y: nat)
    ensures var x := 2 * y + (a + b) % 2;
            x / 2 == y && (x + b) % 2 == a % 2
  {
  }

  lemma {:induction false} XorBitsTwice(a: nat, b: nat, bits: nat)
    requires a < Pow2(bits)
    ensures XorBits(XorBits(a, b, bits), b, bits) == a
  {
    if bits > 0 {
      XorBitsTwice(a / 2, b / 2, bits - 1);
      Parity(a, b, XorBits(a / 2, b / 2, bits - 1));
    }
  }

  function Xor(a: byte, b: byte): byte {
    assert Pow2(8) == 256;
    XorBits(a, b, 8)
  }

  lemma XorTwice(a: byte, b: byte)
    ensures Xor(Xor(a, b), b) == a
  {
    assert Pow2(8) == 256;
    XorBitsTwice(a, b, 8);
  }

  function Masked(payload: seq<byte>, mask: seq<byte>): (r: seq<byte>)
    requires |mask| == 4
    ensures |r| == |payload|
  {
    seq(|payload|, i requires 0 <= i < |payload| => Xor(payload[i], mask[i % 4]))
  }

  /** Masking is its own inverse. */
  lemma MaskTwice(payload: seq<byte>, mask: seq<byte>)
    requires |mask| == 4
    ensures Masked(Masked(payload, mask), mask) == payload
  {
    forall i | 0 <= i < |payload|
      ensures Masked(Masked(payload, mask), mask)[i] == payload[i]
    {
      XorTwice(payload[i], mask[i % 4]);
    }
  }

  /** The loop that masks or unmasks a buffer. */
  method MaskInPlace(buffer: array<byte>, mask: seq<byte>)
    requires |mask| == 4
    modifies buffer
    ensures buffer[..] == Masked(old(buffer[..]), mask)
  {
    for index := 0 to buffer.Length
      invariant forall i :: 0 <= i < index ==> buffer[i] == Xor(old(buffer[i]), mask[i % 4])
      invariant forall i :: index <= i < buffer.Length ==> buffer[i] == old(buffer[i])
    {
      buffer[index] := Xor(buffer[index], mask[index % 4]);
    }
  }

  // ---- WebSocket messages ----

  datatype Message = Binary(payload: seq<byte>) | PingMessage(payload: seq<byte>)
                   | PongMessage(payload: seq<byte>) | CloseMessage(payload: seq<byte>)

  function Opcode(m: Message): byte {
    match m
    case Binary(_) => 2
    case CloseMessage(_) => 8
    case PingMessage(_) => 9
    case PongMessage(_) => 10
  }

  /** The length field: seven bits, or two or eight bytes after the markers 126 and 127. */
  function LengthField(n: nat, maskBit: byte): seq<byte>
    requires maskBit == 0 || maskBit == 128
  {
    if n <= 125 then [maskBit + n]
    else if n <= 65_535 then [maskBit + 126] + BigEndian(n, 2)
    else [maskBit + 127] + BigEndian(n, 8)
  }

  function Carried(payload: seq<byte>, mask: Option<seq<byte>>): seq<byte>
    requires mask.Some? ==> |mask.value| == 4
  {
    match mask
    case None => payload
    case Some(key) => key + Masked(payload, key)
  }

  predicate Writable(m: Message) {
    |m.payload| <= MAX_MESSAGE && (Opcode(m) >= 8 ==> |m.payload| <= 125)
  }

  function WriteMessage(m: Message, mask: Option<seq<byte>>): Result<seq<byte>, WireError>
    requires mask.Some? ==> |mask.value| == 4
  {
    if |m.payload| > MAX_MESSAGE then Err(MessageTooLong)
    else if Opcode(m) >= 8 && |m.payload| > 125 then Err(ControlTooLong)
    else Ok([128 + Opcode(m)] + LengthField(|m.payload|, MaskBit(mask)) + Carried(m.payload, mask))
  }

  datatype Reading = Reading(message: Message, rest: seq<byte>)

  datatype Length = Length(value: nat, rest: seq<byte>)

  function ReadLength(marker: byte, s: seq<byte>): Option<Length> {
    if marker % 128 == 126 then (if |s| < 2 then None else Some(Length(FromBigEndian(s[..2]), s[2..])))
    else if marker % 128 == 127 then (if |s| < 8 then None else Some(Length(FromBigEndian(s[..8]), s[8..])))
    else Some(Length(marker % 128, s))
  }

  function ReadPayload(length: nat, masked: bool, s: seq<byte>): Option<(seq<byte>, seq<byte>)> {
    if masked then
      if |s| < 4 + length then None else Some((Masked(s[4..4 + length], s[..4]), s[4 + length..]))
    else
      if |s| < length then None else Some((s[..length], s[length..]))
  }

  function MessageOf(opcode: byte, payload: seq<byte>): Option<Message> {
    match opcode
    case 2 => Some(Binary(payload))
    case 8 => Some(CloseMessage(payload))
    case 9 => Some(PingMessage(payload))
    case 10 => Some(PongMessage(payload))
    case _ => None
  }

  function ReadMessage(s: seq<byte>, requireMask: bool): (r: Result<Reading, WireError>)
    ensures r.Ok? ==> |r.value.rest| < |s|
  {
    if |s| < 2 then Err(EndOfStream)
    else if s[0] / 16 != 8 then Err(Fragmented)
    else if requireMask && s[1] < 128 then Err(Unmasked)
    else
      match ReadLength(s[1], s[2..])
      case None => Err(EndOfStream)
      case Some(length) =>
        if length.value > MAX_MESSAGE then Err(MessageTooLong)
        else if s[0] % 16 >= 8 && length.value > 125 then Err(ControlTooLong)
        else
          match ReadPayload(length.value, s[1] >= 128, length.rest)
          case None => Err(EndOfStream)
          case Some((payload, rest)) =>
            match MessageOf(s[0] % 16, payload)
            case None => Err(BadOpcode)
            case Some(m) => Ok(Reading(m, rest))
  }

  // ---- Round trip ----

  lemma ExtendedReads(n: nat, width: nat, marker: byte, tail: seq<byte>)
    requires (width == 2 && marker % 128 == 126) || (width == 8 && marker % 128 == 127)
    requires n < Pow256(width)
    ensures ReadLength(marker, BigEndian(n, width) + tail) == Some(Length(n, tail))
  {
    var s := BigEndian(n, width) + tail;
    NumberReadsBack(n, width);
    assert s[..width] == BigEndian(n, width) && s[width..] == tail;
  }

  lemma LengthReads(n: nat, maskBit: byte, tail: seq<byte>)
    requires (maskBit == 0 || maskBit == 128) && n <= MAX_MESSAGE
    ensures var field := LengthField(n, maskBit);
            && field != [] && (field[0] >= 128 <==> maskBit == 128)
            && ReadLength(field[0], field[1..] + tail) == Some(Length(n, tail))
  {
    Widths();
    var field := LengthField(n, maskBit);
    if n <= 125 {
      assert field[1..] + tail == tail;
    } else if n <= 65_535 {
      assert field[1..] == BigEndian(n, 2);
      ExtendedReads(n, 2, maskBit + 126, tail);
    } else {
      assert field[1..] == BigEndian(n, 8);
      ExtendedReads(n, 8, maskBit + 127, tail);
    }
  }

  lemma PayloadReads(payload: seq<byte>, mask: Option<seq<byte>>, rest: seq<byte>)
    requires mask.Some? ==> |mask.value| == 4
    ensures ReadPayload(|payload|, mask.Some?, Carried(payload, mask) + rest) == Some((payload, rest))
  {
    var s := Carried(payload, mask) + rest;
    match mask {
      case None =>
        assert s[..|payload|] == payload && s[|payload|..] == rest;
      case Some(key) =>
        assert s[..4] == key && s[4..4 + |payload|] == Masked(payload, key) && s[4 + |payload|..] == rest;
        MaskTwice(payload, key);
    }
  }

  /** Reading, once the parts of the stream are known. */
  lemma PartsRead(s: seq<byte>, requireMask: bool, m: Message, body: seq<byte>, rest: seq<byte>)
    requires |s| >= 2 && s[0] == 128 + Opcode(m) && (requireMask ==> s[1] >= 128) && Writable(m)
    requires ReadLength(s[1], s[2..]) == Some(Length(|m.payload|, body))
    requires ReadPayload(|m.payload|, s[1] >= 128, body) == Some((m.payload, rest))
    ensures ReadMessage(s, requireMask) == Ok(Reading(m, rest))
  {
  }

  lemma StreamParts(first: byte, field: seq<byte>, body: seq<byte>, rest: seq<byte>)
    requires field != []
    ensures var s := [first] + field + body + rest;
            |s| >= 2 && s[0] == first && s[1] == field[0] && s[2..] == field[1..] + (body + rest)
  {
  }

  lemma FieldsRead(m: Message, field: seq<byte>, body: seq<byte>, rest: seq<byte>, requireMask: bool)
    requires Writable(m) && field != [] && (requireMask ==> field[0] >= 128)
    requires ReadLength(field[0], field[1..] + (body + rest)) == Some(Length(|m.payload|, body + rest))
    requires ReadPayload(|m.payload|, field[0] >= 128, body + rest) == Some((m.payload, rest))
    ensures ReadMessage([128 + Opcode(m)] + field + body + rest, requireMask) == Ok(Reading(m, rest))
  {
    StreamParts(128 + Opcode(m), field, body, rest);
    PartsRead([128 + Opcode(m)] + field + body + rest, requireMask, m, body + rest, rest);
  }

  function MaskBit(mask: Option<seq<byte>>): byte {
    if mask.Some? then 128 else 0
  }

  lemma WrittenAs(m: Message, mask: Option<seq<byte>>)
    requires (mask.Some? ==> |mask.value| == 4) && Writable(m)
    ensures WriteMessage(m, mask)
            == Ok([128 + Opcode(m)] + LengthField(|m.payload|, MaskBit(mask)) + Carried(m.payload, mask))
  {
  }

  /** A written message reads back, leaving exactly what follows it. */
  lemma MessageReads(m: Message, mask: Option<seq<byte>>, rest: seq<byte>, requireMask: bool)
    requires (mask.Some? ==> |mask.value| == 4) && (requireMask ==> mask.Some?) && Writable(m)
    ensures WriteMessage(m, mask).Ok?
    ensures ReadMessage(WriteMessage(m, mask).value + rest, requireMask) == Ok(Reading(m, rest))
  {
    WrittenAs(m, mask);
    var field, body := LengthField(|m.payload|, MaskBit(mask)), Carried(m.payload, mask);
    LengthReads(|m.payload|, MaskBit(mask), body + rest);
    PayloadReads(m.payload, mask, rest);
    FieldsRead(m, field, body, rest, requireMask);
  }

  datatype Sent = Sent(message: Message, mask: Option<seq<byte>>)

  predicate Legal(sent: Sent, requireMask: bool) {
    && (sent.mask.Some? ==> |sent.mask.value| == 4) && (requireMask ==> sent.mask.Some?) && Writable(sent.message)
  }

  predicate AllSendable(list: seq<Sent>, requireMask: bool) {
    forall i :: 0 <= i < |list| ==> Legal(list[i], requireMask)
  }

  function WriteAll(list: seq<Sent>, requireMask: bool): seq<byte>
    requires AllSendable(list, requireMask)
  {
    if list == [] then [] else WriteMessage(list[0].message, list[0].mask).value + WriteAll(list[1..], requireMask)
  }

  /** Reads until the stream is used up. */
  function ReadAll(s: seq<byte>, requireMask: bool): Option<seq<Message>>
    decreases |s|
  {
    if s == [] then Some([])
    else
      match ReadMessage(s, requireMask)
      case Err(_) => None
      case Ok(reading) =>
        match ReadAll(reading.rest, requireMask)
        case None => None
        case Some(more) => Some([reading.message] + more)
  }

  function Messages(list: seq<Sent>): seq<Message> {
    seq(|list|, i requires 0 <= i < |list| => list[i].message)
  }

  lemma ReadsOn(s: seq<byte>, requireMask: bool, m: Message, rest: seq<byte>, more: seq<Message>)
    requires ReadMessage(s, requireMask) == Ok(Reading(m, rest)) && ReadAll(rest, requireMask) == Some(more)
    ensures ReadAll(s, requireMask) == Some([m] + more)
  {
  }

  lemma FirstReads(list: seq<Sent>, requireMask: bool)
    requires AllSendable(list, requireMask) && list != []
    ensures var all, rest := WriteAll(list, requireMask), WriteAll(list[1..], requireMask);
            ReadMessage(all, requireMask) == Ok(Reading(list[0].message, rest))
  {
    var first := list[0];
    assert Legal(first, requireMask);
    MessageReads(first.message, first.mask, WriteAll(list[1..], requireMask), requireMask);
    WrittenAs(first.message, first.mask);
  }

  lemma MessagesFrom(list: seq<Sent>)
    requires list != []
    ensures Messages(list) == [list[0].message] + Messages(list[1..])
  {
  }

  /** Any list of legal messages, masked or not, reads back from the one byte stream, to its last byte. */
  lemma {:induction false} StreamReads(list: seq<Sent>, requireMask: bool)
    requires AllSendable(list, requireMask)
    ensures ReadAll(WriteAll(list, requireMask), requireMask) == Some(Messages(list))
    decreases |list|
  {
    if list == [] {
      assert Messages(list) == [];
    } else {
      FirstReads(list, requireMask);
      StreamReads(list[1..], requireMask);
      ReadsOn(WriteAll(list, requireMask), requireMask, list[0].message, WriteAll(list[1..], requireMask),
              Messages(list[1..]));
      MessagesFrom(list);
    }
  }

  /** Every frame that encodes fits in one message. */
  lemma FrameFitsMessage(f: Frame)
    ensures EncodeFrame(f).Ok? <==> |f.payload| <= MAX_FRAME_PAYLOAD
    ensures EncodeFrame(f).Ok? ==> Writable(Binary(EncodeFrame(f).value))
  {
  }

  /** A frame of up to 1 MiB, encoded, sent as one message, masked or not, and read from a stream with more to come, is
      the frame that was sent, and nothing of what follows is lost. */
  lemma FrameTravels(f: Frame, mask: Option<seq<byte>>, rest: seq<byte>, requireMask: bool) returns (sent: seq<byte>)
    requires |f.payload| <= MAX_FRAME_PAYLOAD
    requires (mask.Some? ==> |mask.value| == 4) && (requireMask ==> mask.Some?)
    ensures EncodeFrame(f).Ok? && WriteMessage(Binary(EncodeFrame(f).value), mask) == Ok(sent)
    ensures var reading := ReadMessage(sent + rest, requireMask);
            reading.Ok? && reading.value.rest == rest && DecodeFrame(reading.value.message.payload) == Ok(f)
  {
    FrameFitsMessage(f);
    MessageReads(Binary(EncodeFrame(f).value), mask, rest, requireMask);
    FramesInvert(EncodeFrame(f).value, f);
    sent := WriteMessage(Binary(EncodeFrame(f).value), mask).value;
  }
}
