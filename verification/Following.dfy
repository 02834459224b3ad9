/** Following a chain in chunks: a client asks again from the last height it
    received. Both clients are followed over any chain that can be cut anywhere,
    and then over the chain of a sound source. */
module Following {
  import opened MachineInts
  import opened LedgerModel
  import opened CatchUp
  import Wire

  const MAX_PUBLIC_BLOCKS := 4096

  datatype Download = Download(blocks: seq<Block>, operations: map<Id, Operation>, checkpoint: Option<Ledger>)

  /** Where a chunk ends. */
  function EndOf(chunk: Chunk, from: nat): nat {
    if chunk.blocks == [] then from else chunk.blocks[|chunk.blocks| - 1].height
  }

  // ---- A chain, cut anywhere ----

  /** The chunks a source can answer with, by first and last height. */
  type Parts = (nat, nat) -> Chunk

  /** A part has its blocks, ends where it should, and brings the tip's checkpoint exactly at the tip. */
  predicate Lies(parts: Parts, tip: nat, from: nat, last: nat) {
    var chunk := parts(from, last);
    && chunk.tip == tip && |chunk.blocks| == last - from && EndOf(chunk, from) == last
    && (from == last ==> chunk.operations == map[])
    && chunk.checkpoint == if last == tip then parts(tip, tip).checkpoint else None
  }

  predicate Joins(parts: Parts, from: nat, mid: nat, last: nat) {
    && parts(from, last).blocks == parts(from, mid).blocks + parts(mid, last).blocks
    && parts(from, last).operations == parts(from, mid).operations + parts(mid, last).operations
  }

  ghost predicate Chained(parts: Parts, through: nat, tip: nat) {
    && (forall from: nat, last: nat :: through <= from <= last <= tip ==> Lies(parts, tip, from, last))
    && (forall from: nat, mid: nat, last: nat ::
          through <= from <= mid <= last <= tip ==> Joins(parts, from, mid, last))
  }

  /** What has been received so far is the part from `start` to `from`. */
  predicate Holds(parts: Parts, start: nat, from: nat, d: Download) {
    d.blocks == parts(start, from).blocks && d.operations == parts(start, from).operations
  }

  /** The answers by block limit are the parts from this height. */
  ghost predicate AnswersParts(answers: nat -> Answer, parts: Parts, tip: nat, from: nat) {
    && (forall max :: answers(max) == Ok(parts(from, Last(from, tip, max))))
    && (forall last: nat :: from <= last <= tip ==> |parts(from, last).blocks| == last - from)
  }

  /** From every height, the source answers with the parts of its chain. */
  ghost predicate AnswersAllParts(s: Source, parts: Parts, tip: nat) {
    forall from: nat :: s.through <= from <= tip ==> AnswersParts(Answers(s, from), parts, tip, from)
  }

  // ---- The public client ----

  /** The public server never shrinks an answer: from each height it sends as many blocks as it may. */
  function PublicBytes(parts: Parts, tip: nat, from: nat, encode: (nat, Chunk) -> seq<byte>): seq<byte> {
    encode(from, parts(from, Last(from, tip, MAX_CATCH_UP_BLOCKS)))
  }

  /** How an answer fails on the public interface: over 16 MiB it is replaced by an error, and in the gap the
      connection ends. */
  predicate FailsPublicly(bytes: seq<byte>, error: CatchUpError) {
    || (error == ResponseTooLarge && |bytes| > Wire.MAX_CONSENSUS_MESSAGE_SIZE)
    || (error == ConnectionEnds && InGap(bytes))
  }

  lemma SmallAnswersArrive(bytes: seq<byte>)
    ensures SentPublicly(bytes).Ok? <==> |bytes| <= Wire.MAX_MESSAGE
    ensures SentPublicly(bytes).Err? ==> FailsPublicly(bytes, SentPublicly(bytes).error)
  {
    TransmittedWhole(bytes);
  }

  method ReadPublic(bytes: seq<byte>, chunk: Chunk) returns (r: Answer)
    ensures r.Ok? <==> |bytes| <= Wire.MAX_MESSAGE
    ensures r.Ok? ==> r.value == chunk
    ensures r.Err? ==> FailsPublicly(bytes, r.error)
  {
    SmallAnswersArrive(bytes);
    var sent := SentPublicly(bytes);
    if sent.Err? {
      return Err(sent.error);
    }
    return Ok(chunk);
  }

  method CollectPart(s: Source, from: nat, ghost answers: nat -> Answer, ghost parts: Parts, ghost tip: nat)
    returns (chunk: Chunk)
    requires answers == Answers(s, from) && AnswersParts(answers, parts, tip, from)
    ensures chunk == parts(from, Last(from, tip, MAX_CATCH_UP_BLOCKS))
  {
    var answer := CollectCatchUp(s, from, MAX_CATCH_UP_BLOCKS);
    assert answer == answers(MAX_CATCH_UP_BLOCKS);
    chunk := answer.value;
  }

  /** One request on the public interface. */
  method Ask(s: Source, from: nat, encode: (nat, Chunk) -> seq<byte>, ghost parts: Parts, ghost tip: nat)
    returns (r: Answer)
    requires s.through <= from <= tip && AnswersAllParts(s, parts, tip)
    ensures r.Ok? <==> |PublicBytes(parts, tip, from, encode)| <= Wire.MAX_MESSAGE
    ensures r.Ok? ==> r.value == parts(from, Last(from, tip, MAX_CATCH_UP_BLOCKS))
    ensures r.Err? ==> FailsPublicly(PublicBytes(parts, tip, from, encode), r.error)
  {
    var chunk := CollectPart(s, from, Answers(s, from), parts, tip);
    r := ReadPublic(encode(from, chunk), chunk);
  }

  /** The heights a client that starts at `start` asks from on its way to the tip. */
  predicate Asks(start: nat, tip: nat, from: nat) {
    start <= from && (from - start) % MAX_CATCH_UP_BLOCKS == 0 && (from < tip || from == start <= tip)
  }

  lemma AsksNext(start: nat, tip: nat, from: nat)
    requires Asks(start, tip, from) && from < tip
    ensures Last(from, tip, MAX_CATCH_UP_BLOCKS) < tip ==> Asks(start, tip, Last(from, tip, MAX_CATCH_UP_BLOCKS))
    ensures forall h: nat :: from < h < Last(from, tip, MAX_CATCH_UP_BLOCKS) ==> !Asks(start, tip, h)
  {
  }

  /** Every answer the client asks for below `end` fits one relay message. */
  ghost predicate AllSmall(parts: Parts, tip: nat, start: nat, end: nat, encode: (nat, Chunk) -> seq<byte>) {
    forall from: nat :: from < end && Asks(start, tip, from) ==>
      |PublicBytes(parts, tip, from, encode)| <= Wire.MAX_MESSAGE
  }

  lemma OneMoreSmall(parts: Parts, tip: nat, start: nat, from: nat, encode: (nat, Chunk) -> seq<byte>)
    requires Asks(start, tip, from) && AllSmall(parts, tip, start, from, encode)
    requires |PublicBytes(parts, tip, from, encode)| <= Wire.MAX_MESSAGE
    ensures from == tip ==> AllSmall(parts, tip, start, tip + 1, encode)
    ensures from < tip ==> AllSmall(parts, tip, start, Last(from, tip, MAX_CATCH_UP_BLOCKS), encode)
  {
    if from < tip {
      AsksNext(start, tip, from);
    }
  }

  method FollowPublicParts(s: Source, start: nat, encode: (nat, Chunk) -> seq<byte>, ghost parts: Parts, ghost tip: nat)
    returns (r: Result<Download, CatchUpError>, ghost at: nat)
    requires s.through <= start <= tip && AnswersAllParts(s, parts, tip) && Chained(parts, s.through, tip)
    ensures r.Ok? <==> && tip - start <= MAX_PUBLIC_BLOCKS && (start < tip ==> parts(tip, tip).checkpoint.Some?)
                       && AllSmall(parts, tip, start, tip + 1, encode)
    ensures r.Ok? ==> Holds(parts, start, tip, r.value)
    ensures r.Ok? ==> r.value.checkpoint == if start == tip then None else parts(tip, tip).checkpoint
    ensures r.Err? ==> || (r.error == TooManyBlocks && tip - start > MAX_PUBLIC_BLOCKS)
                       || (r.error == NoCheckpoint && start < tip && parts(tip, tip).checkpoint.None?)
                       || (start <= at <= tip && FailsPublicly(PublicBytes(parts, tip, at, encode), r.error))
  {
    var from, d := start, Download([], map[], None);
    assert Lies(parts, tip, start, start);
    while true
      invariant start <= from <= tip && Holds(parts, start, from, d) && |d.blocks| <= MAX_PUBLIC_BLOCKS
      invariant from < tip || start == tip ==> Asks(start, tip, from)
      invariant from == tip && start < tip ==> parts(tip, tip).checkpoint.None?
      invariant AllSmall(parts, tip, start, from, encode)
      decreases tip - from
    {
      at := from;
      var answer := Ask(s, from, encode, parts, tip);
      if answer.Err? {
        return Err(answer.error), at;
      }
      var chunk := answer.value;
      ghost var last := Last(from, tip, MAX_CATCH_UP_BLOCKS);
      assert Lies(parts, tip, from, last) && Lies(parts, tip, start, from) && Joins(parts, start, from, last);
      if chunk.blocks == [] {
        break;
      }
      OneMoreSmall(parts, tip, start, from, encode);
      AsksNext(start, tip, from);
      from := EndOf(chunk, from);
      d := Download(d.blocks + chunk.blocks, d.operations + chunk.operations, chunk.checkpoint);
      assert Lies(parts, tip, start, from);
      if |d.blocks| > MAX_PUBLIC_BLOCKS {
        return Err(TooManyBlocks), at;
      }
      if d.checkpoint.Some? {
        return Ok(d), at;
      }
    }
    if d.blocks == [] {
      OneMoreSmall(parts, tip, start, from, encode);
      return Ok(d.(checkpoint := None)), at;
    }
    return Err(NoCheckpoint), at;
  }

  // ---- The consensus client ----

  /** Where the answer ends once the block limit has been halved as often as it takes. */
  ghost function Chosen(parts: Parts, tip: nat, from: nat, max: nat,
                        encode: Chunk -> seq<byte>): Result<nat, CatchUpError>
    requires from <= tip && 1 <= max <= MAX_CATCH_UP_BLOCKS
    decreases max
  {
    var last := Last(from, tip, max);
    if Fits(encode, parts(from, last)) then Ok(last)
    else if last - from <= 1 then Err(TooLarge)
    else Chosen(parts, tip, from, (last - from) / 2, encode)
  }

  lemma {:induction false} ChosenFits(parts: Parts, tip: nat, from: nat, max: nat, encode: Chunk -> seq<byte>)
    requires from <= tip && 1 <= max <= MAX_CATCH_UP_BLOCKS
    ensures var chosen := Chosen(parts, tip, from, max, encode);
            && (chosen.Ok? ==> from <= chosen.value <= tip && (from < tip ==> from < chosen.value)
                               && Fits(encode, parts(from, chosen.value)))
            && (chosen.Err? ==> chosen.error == TooLarge && !Fits(encode, parts(from, Last(from, tip, 1))))
    decreases max
  {
    var last := Last(from, tip, max);
    if last - from > 1 {
      ChosenFits(parts, tip, from, (last - from) / 2, encode);
    }
  }

  /** Where the answer that reaches the client ends: what the server settles on is delivered exactly when it is not in
      the gap between the two limits. */
  ghost function Delivered(parts: Parts, tip: nat, from: nat,
                           encode: Chunk -> seq<byte>): (r: Result<nat, CatchUpError>)
    requires from <= tip
    ensures r.Ok? ==> from <= r.value <= tip && (from < tip ==> from < r.value)
  {
    ChosenFits(parts, tip, from, MAX_CATCH_UP_BLOCKS, encode);
    var chosen := Chosen(parts, tip, from, MAX_CATCH_UP_BLOCKS, encode);
    if chosen.Ok? && InGap(encode(parts(from, chosen.value))) then Err(ConnectionEnds) else chosen
  }

  /** Why a request from this height goes unanswered: its first block alone is too large, or some number of its blocks
      makes an answer in the gap. */
  ghost predicate Undeliverable(parts: Parts, tip: nat, from: nat, encode: Chunk -> seq<byte>, error: CatchUpError) {
    || (error == TooLarge && !Fits(encode, parts(from, Last(from, tip, 1))))
    || (error == ConnectionEnds && exists last: nat :: from <= last <= tip && InGap(encode(parts(from, last))))
  }

  lemma WhyUndelivered(parts: Parts, tip: nat, from: nat, encode: Chunk -> seq<byte>)
    requires from <= tip && Delivered(parts, tip, from, encode).Err?
    ensures Undeliverable(parts, tip, from, encode, Delivered(parts, tip, from, encode).error)
  {
    ChosenFits(parts, tip, from, MAX_CATCH_UP_BLOCKS, encode);
  }

  /** Every answer from here to the tip is delivered. */
  ghost predicate Arriving(parts: Parts, tip: nat, from: nat, encode: Chunk -> seq<byte>)
    requires from <= tip
    decreases tip - from
  {
    var r := Delivered(parts, tip, from, encode);
    r.Ok? && (r.value == tip || Arriving(parts, tip, r.value, encode))
  }

  /** No single block is too large, and no answer the source could give is in the gap. */
  ghost predicate AllDeliverable(parts: Parts, through: nat, tip: nat, encode: Chunk -> seq<byte>) {
    && (forall from: nat :: through <= from <= tip ==> Fits(encode, parts(from, Last(from, tip, 1))))
    && (forall from: nat, last: nat :: through <= from <= last <= tip ==> !InGap(encode(parts(from, last))))
  }

  /** Completeness: where every single block fits and no answer is in the gap, every height is served to the tip. */
  lemma {:induction false} SmallAnswersReachTheTip(parts: Parts, through: nat, tip: nat, from: nat,
                                                   encode: Chunk -> seq<byte>)
    requires through <= from <= tip && AllDeliverable(parts, through, tip, encode)
    ensures Arriving(parts, tip, from, encode)
    decreases tip - from
  {
    var r := Delivered(parts, tip, from, encode);
    if r.Err? {
      WhyUndelivered(parts, tip, from, encode);
    } else if r.value < tip {
      SmallAnswersReachTheTip(parts, through, tip, r.value, encode);
    }
  }

  /** What the client is sent, given where the answer ends. */
  function Sent(parts: Parts, from: nat, end: Result<nat, CatchUpError>): Answer {
    if end.Err? then Err(end.error) else Ok(parts(from, end.value))
  }

  lemma HalvedStep(answers: nat -> Answer, max: nat, encode: Chunk -> seq<byte>, chunk: Chunk)
    requires Limited(answers) && 1 <= max <= MAX_CATCH_UP_BLOCKS && answers(max) == Ok(chunk)
    ensures Fits(encode, chunk) ==> Halved(answers, max, encode) == Ok(chunk)
    ensures !Fits(encode, chunk) && |chunk.blocks| <= 1 ==> Halved(answers, max, encode) == Err(TooLarge)
    ensures !Fits(encode, chunk) && |chunk.blocks| > 1 ==>
              |chunk.blocks| <= max && Halved(answers, max, encode) == Halved(answers, |chunk.blocks| / 2, encode)
  {
  }

  lemma ChosenStep(parts: Parts, tip: nat, from: nat, max: nat, encode: Chunk -> seq<byte>, last: nat)
    requires from <= tip && 1 <= max <= MAX_CATCH_UP_BLOCKS && last == Last(from, tip, max)
    ensures Fits(encode, parts(from, last)) ==> Chosen(parts, tip, from, max, encode) == Ok(last)
    ensures !Fits(encode, parts(from, last)) && last - from <= 1 ==>
              Chosen(parts, tip, from, max, encode) == Err(TooLarge)
    ensures !Fits(encode, parts(from, last)) && last - from > 1 ==>
              Chosen(parts, tip, from, max, encode) == Chosen(parts, tip, from, (last - from) / 2, encode)
  {
  }

  lemma {:induction false} HalvedIsChosen(answers: nat -> Answer, parts: Parts, tip: nat, from: nat, max: nat,
                                          encode: Chunk -> seq<byte>)
    requires from <= tip && 1 <= max <= MAX_CATCH_UP_BLOCKS && Limited(answers)
    requires AnswersParts(answers, parts, tip, from)
    ensures Halved(answers, max, encode) == Sent(parts, from, Chosen(parts, tip, from, max, encode))
    decreases max
  {
    var last := Last(from, tip, max);
    HalvedStep(answers, max, encode, parts(from, last));
    ChosenStep(parts, tip, from, max, encode, last);
    assert |parts(from, last).blocks| == last - from;
    if !Fits(encode, parts(from, last)) && last - from > 1 {
      var half := (last - from) / 2;
      assert 1 <= half < max && |parts(from, last).blocks| / 2 == half;
      HalvedIsChosen(answers, parts, tip, from, half, encode);
    }
  }

  lemma ServedIsDelivered(answers: nat -> Answer, parts: Parts, tip: nat, from: nat, encode: Chunk -> seq<byte>)
    requires from <= tip && Limited(answers) && AnswersParts(answers, parts, tip, from)
    ensures Served(answers, encode) == Sent(parts, from, Delivered(parts, tip, from, encode))
  {
    HalvedIsChosen(answers, parts, tip, from, MAX_CATCH_UP_BLOCKS, encode);
  }

  method AskPart(s: Source, from: nat, encode: Chunk -> seq<byte>, ghost parts: Parts, ghost tip: nat)
    returns (r: Answer)
    requires s.through <= from <= tip && AnswersAllParts(s, parts, tip)
    ensures r == Sent(parts, from, Delivered(parts, tip, from, encode))
  {
    r := AskConsensus(s, from, encode);
    ServedIsDelivered(Answers(s, from), parts, tip, from, encode);
  }

  datatype Progress = Finished(download: Download) | Going(from: nat, download: Download)

  /** How the consensus client takes one chunk: it applies what it received when
      a checkpoint comes, and refuses a tip that brings none. */
  method TakeChunk(from: nat, d: Download, chunk: Chunk) returns (r: Result<Progress, CatchUpError>)
    requires from <= chunk.tip && (chunk.blocks == [] ==> from == chunk.tip)
    requires chunk.blocks != [] ==> from < EndOf(chunk, from) <= chunk.tip
    requires chunk.checkpoint.Some? ==> EndOf(chunk, from) == chunk.tip
    ensures var end := EndOf(chunk, from);
            var received := Download(d.blocks + chunk.blocks, d.operations + chunk.operations, chunk.checkpoint);
            if chunk.blocks == [] then r == Ok(Finished(d))
            else if chunk.checkpoint.Some? then r == Ok(Finished(received))
            else if end == chunk.tip then r == Err(NoCheckpoint)
            else r == Ok(Going(end, received))
  {
    if chunk.tip < from {
      return Err(TipMovedBack);
    }
    if chunk.blocks == [] {
      if chunk.tip != from {
        return Err(EmptyGap);
      }
      return Ok(Finished(d));
    }
    var reached := EndOf(chunk, from);
    var received := Download(d.blocks + chunk.blocks, d.operations + chunk.operations, None);
    if chunk.checkpoint.Some? {
      if reached != chunk.tip {
        return Err(EarlyCheckpoint);
      }
      return Ok(Finished(received.(checkpoint := chunk.checkpoint)));
    }
    if reached == chunk.tip {
      return Err(NoCheckpoint);
    }
    return Ok(Going(reached, received));
  }

  /** What one exchange leads to, given where its answer ends. */
  ghost predicate Progresses(parts: Parts, tip: nat, start: nat, from: nat, end: Result<nat, CatchUpError>,
                             r: Result<Progress, CatchUpError>) {
    match r
    case Err(error) =>
      if end.Err? then error == end.error
      else end.value == tip && error == NoCheckpoint && start < tip && parts(tip, tip).checkpoint.None?
    case Ok(Finished(d)) =>
      && end == Ok(tip) && Holds(parts, start, tip, d)
      && d.checkpoint == (if start == tip then None else parts(tip, tip).checkpoint)
      && (start < tip ==> d.checkpoint.Some?)
    case Ok(Going(next, d)) =>
      end == Ok(next) && from < next < tip && Holds(parts, start, next, d) && d.checkpoint.None?
  }

  method Proceed(start: nat, from: nat, d: Download, answer: Answer, ghost parts: Parts, ghost tip: nat,
                 ghost end: Result<nat, CatchUpError>)
    returns (r: Result<Progress, CatchUpError>)
    requires start <= from <= tip && Holds(parts, start, from, d) && d.checkpoint.None?
    requires from == tip ==> from == start
    requires end.Ok? ==> from <= end.value <= tip && (from < tip ==> from < end.value)
    requires end.Ok? ==> Lies(parts, tip, from, end.value) && Joins(parts, start, from, end.value)
    requires answer == Sent(parts, from, end)
    ensures Progresses(parts, tip, start, from, end, r)
  {
    if answer.Err? {
      return Err(answer.error);
    }
    r := TakeChunk(from, d, answer.value);
    if answer.value.blocks == [] {
      assert parts(start, end.value).blocks == d.blocks;
    }
  }

  /** One round of the consensus client. */
  method Round(s: Source, start: nat, from: nat, d: Download, encode: Chunk -> seq<byte>, ghost parts: Parts,
               ghost tip: nat)
    returns (r: Result<Progress, CatchUpError>)
    requires s.through <= start <= from <= tip && AnswersAllParts(s, parts, tip) && Chained(parts, s.through, tip)
    requires Holds(parts, start, from, d) && d.checkpoint.None? && (from == tip ==> from == start)
    ensures Progresses(parts, tip, start, from, Delivered(parts, tip, from, encode), r)
  {
    var answer := AskPart(s, from, encode, parts, tip);
    r := Proceed(start, from, d, answer, parts, tip, Delivered(parts, tip, from, encode));
  }

  method FollowParts(s: Source, start: nat, encode: Chunk -> seq<byte>, ghost parts: Parts, ghost tip: nat)
    returns (r: Result<Download, CatchUpError>, ghost at: nat)
    requires s.through <= start <= tip && AnswersAllParts(s, parts, tip) && Chained(parts, s.through, tip)
    ensures r.Ok? <==> Arriving(parts, tip, start, encode) && (start < tip ==> parts(tip, tip).checkpoint.Some?)
    ensures r.Ok? ==> Holds(parts, start, tip, r.value)
    ensures r.Ok? ==> r.value.checkpoint == if start == tip then None else parts(tip, tip).checkpoint
    ensures r.Err? ==> || (r.error == NoCheckpoint && start < tip && parts(tip, tip).checkpoint.None?)
                       || (start <= at <= tip && Undeliverable(parts, tip, at, encode, r.error))
  {
    var from, d := start, Download([], map[], None);
    assert Lies(parts, tip, start, start);
    while true
      invariant start <= from <= tip && Holds(parts, start, from, d) && d.checkpoint.None?
      invariant from == tip ==> from == start
      invariant Arriving(parts, tip, start, encode) <==> Arriving(parts, tip, from, encode)
      decreases tip - from
    {
      at := from;
      var progress := Round(s, start, from, d, encode, parts, tip);
      match progress
      case Err(error) =>
        if Delivered(parts, tip, from, encode).Err? {
          WhyUndelivered(parts, tip, from, encode);
        }
        return Err(error), at;
      case Ok(Finished(download)) => return Ok(download), at;
      case Ok(Going(next, download)) => from, d := next, download;
    }
  }

  // ---- A sound source ----

  /** The chain of a sound source, cut anywhere. */
  ghost function PartsOf(s: Source, blocks: seq<Block>, operations: map<Id, Operation>): Parts {
    (from: nat, last: nat) =>
      if s.through <= from <= last <= s.through + |blocks| then Part(s, blocks, operations, from, last)
      else Chunk(s.through + |blocks|, [], map[], None)
  }

  lemma PartIsThere(s: Source, blocks: seq<Block>, operations: map<Id, Operation>, from: nat, last: nat)
    requires s.through <= from <= last <= s.through + |blocks|
    ensures PartsOf(s, blocks, operations)(from, last) == Part(s, blocks, operations, from, last)
    ensures |Part(s, blocks, operations, from, last).blocks| == last - from
  {
  }

  lemma MentionedConcat(a: seq<Block>, b: seq<Block>)
    ensures Mentioned(a + b) == Mentioned(a) + Mentioned(b)
  {
    forall id
      ensures id in Mentioned(a + b) <==> id in Mentioned(a) + Mentioned(b)
    {
      if id in Mentioned(a) {
        var i :| 0 <= i < |a| && id in a[i].operationIds;
        assert (a + b)[i] == a[i];
      }
      if id in Mentioned(b) {
        var i :| 0 <= i < |b| && id in b[i].operationIds;
        assert (a + b)[|a| + i] == b[i];
      }
    }
  }

  lemma SlicesJoin(blocks: seq<Block>, low: nat, mid: nat, high: nat)
    requires low <= mid <= high <= |blocks|
    ensures blocks[low..mid] + blocks[mid..high] == blocks[low..high]
  {
  }

  lemma PickedJoins(operations: map<Id, Operation>, a: set<Id>, b: set<Id>)
    ensures Picked(operations, a) + Picked(operations, b) == Picked(operations, a + b)
  {
  }

  /** The operations two lists of blocks mention are those the joined list mentions. */
  lemma PickedMentioned(operations: map<Id, Operation>, a: seq<Block>, b: seq<Block>)
    ensures Picked(operations, Mentioned(a + b)) == Picked(operations, Mentioned(a)) + Picked(operations, Mentioned(b))
  {
    MentionedConcat(a, b);
    PickedJoins(operations, Mentioned(a), Mentioned(b));
  }

  lemma EndOfSlice(through: nat, blocks: seq<Block>, from: nat, last: nat, chunk: Chunk)
    requires Contiguous(through, blocks) && through <= from <= last <= through + |blocks|
    requires chunk.blocks == blocks[from - through..last - through]
    ensures EndOf(chunk, from) == last && (chunk.blocks == [] <==> from == last)
  {
  }

  lemma PartIsWhole(s: Source, blocks: seq<Block>, operations: map<Id, Operation>, from: nat, last: nat)
    requires Contiguous(s.through, blocks) && s.through <= from <= last <= s.through + |blocks|
    ensures var chunk := Part(s, blocks, operations, from, last);
            && |chunk.blocks| == last - from && EndOf(chunk, from) == last
            && (from == last ==> chunk.operations == map[])
  {
    EndOfSlice(s.through, blocks, from, last, Part(s, blocks, operations, from, last));
  }

  lemma PartLies(s: Source, blocks: seq<Block>, operations: map<Id, Operation>, tip: nat, from: nat, last: nat)
    requires Contiguous(s.through, blocks) && s.through <= from <= last <= tip == s.through + |blocks|
    ensures Lies(PartsOf(s, blocks, operations), tip, from, last)
  {
    PartIsThere(s, blocks, operations, from, last);
    PartIsThere(s, blocks, operations, tip, tip);
    PartIsWhole(s, blocks, operations, from, last);
  }

  lemma SlicesPicked(operations: map<Id, Operation>, blocks: seq<Block>, low: nat, mid: nat, high: nat)
    requires low <= mid <= high <= |blocks|
    ensures Picked(operations, Mentioned(blocks[low..high]))
            == Picked(operations, Mentioned(blocks[low..mid])) + Picked(operations, Mentioned(blocks[mid..high]))
  {
    SlicesJoin(blocks, low, mid, high);
    PickedMentioned(operations, blocks[low..mid], blocks[mid..high]);
  }

  lemma PartFields(s: Source, blocks: seq<Block>, operations: map<Id, Operation>, from: nat, last: nat,
                   slice: seq<Block>)
    requires s.through <= from <= last <= s.through + |blocks| && slice == blocks[from - s.through..last - s.through]
    ensures var part := Part(s, blocks, operations, from, last);
            part.blocks == slice && part.operations == Picked(operations, Mentioned(slice))
  {
  }

  lemma ChunksJoin(parts: Parts, from: nat, mid: nat, last: nat, whole: Chunk, a: Chunk, b: Chunk)
    requires parts(from, last) == whole && parts(from, mid) == a && parts(mid, last) == b
    requires whole.blocks == a.blocks + b.blocks && whole.operations == a.operations + b.operations
    ensures Joins(parts, from, mid, last)
  {
  }

  lemma PartsJoin(s: Source, blocks: seq<Block>, operations: map<Id, Operation>, from: nat, mid: nat, last: nat)
    requires s.through <= from <= mid <= last <= s.through + |blocks|
    ensures Joins(PartsOf(s, blocks, operations), from, mid, last)
  {
    var low, cut, high := from - s.through, mid - s.through, last - s.through;
    PartIsThere(s, blocks, operations, from, last);
    PartIsThere(s, blocks, operations, from, mid);
    PartIsThere(s, blocks, operations, mid, last);
    PartFields(s, blocks, operations, from, last, blocks[low..high]);
    PartFields(s, blocks, operations, from, mid, blocks[low..cut]);
    PartFields(s, blocks, operations, mid, last, blocks[cut..high]);
    SlicesJoin(blocks, low, cut, high);
    SlicesPicked(operations, blocks, low, cut, high);
    ChunksJoin(PartsOf(s, blocks, operations), from, mid, last, Part(s, blocks, operations, from, last),
               Part(s, blocks, operations, from, mid), Part(s, blocks, operations, mid, last));
  }

  /** Each part extends what came before without gap or repetition, and a checkpoint comes with the tip only. */
  lemma PartsAreChained(s: Source, blocks: seq<Block>, operations: map<Id, Operation>, tip: nat)
    requires Contiguous(s.through, blocks) && tip == s.through + |blocks|
    ensures Chained(PartsOf(s, blocks, operations), s.through, tip)
  {
    forall from: nat, last: nat | s.through <= from <= last <= tip
      ensures Lies(PartsOf(s, blocks, operations), tip, from, last)
    {
      PartLies(s, blocks, operations, tip, from, last);
    }
    forall from: nat, mid: nat, last: nat | s.through <= from <= mid <= last <= tip
      ensures Joins(PartsOf(s, blocks, operations), from, mid, last)
    {
      PartsJoin(s, blocks, operations, from, mid, last);
    }
  }

  lemma AnswerIs(s: Source, from: nat, max: nat, chunk: Chunk)
    requires Collect(s, TipHeight(s), from, max) == Ok(chunk)
    ensures Answers(s, from)(max) == Ok(chunk)
  {
  }

  lemma SourceAnswersPart(s: Source, blocks: seq<Block>, operations: map<Id, Operation>, tip: nat, from: nat, max: nat)
    requires Serves(s, blocks, operations) && s.through <= from <= tip == s.through + |blocks|
    ensures Answers(s, from)(max) == Ok(Part(s, blocks, operations, from, Last(from, tip, max)))
  {
    ChunkIsNext(s, blocks, operations, from, max);
    AnswerIs(s, from, max, Part(s, blocks, operations, from, Last(from, tip, max)));
  }

  lemma PartsAreAnswers(s: Source, blocks: seq<Block>, operations: map<Id, Operation>, tip: nat, from: nat)
    requires s.through <= from <= tip == s.through + |blocks|
    requires forall max: nat :: Answers(s, from)(max) == Ok(Part(s, blocks, operations, from, Last(from, tip, max)))
    ensures AnswersParts(Answers(s, from), PartsOf(s, blocks, operations), tip, from)
  {
    forall last: nat | from <= last <= tip
      ensures PartsOf(s, blocks, operations)(from, last) == Part(s, blocks, operations, from, last)
      ensures |PartsOf(s, blocks, operations)(from, last).blocks| == last - from
    {
      PartIsThere(s, blocks, operations, from, last);
    }
  }

  lemma SourceAnswersFrom(s: Source, blocks: seq<Block>, operations: map<Id, Operation>, tip: nat, from: nat)
    requires Serves(s, blocks, operations) && s.through <= from <= tip == s.through + |blocks|
    ensures AnswersParts(Answers(s, from), PartsOf(s, blocks, operations), tip, from)
  {
    forall max: nat
      ensures Answers(s, from)(max) == Ok(Part(s, blocks, operations, from, Last(from, tip, max)))
    {
      SourceAnswersPart(s, blocks, operations, tip, from, max);
    }
    PartsAreAnswers(s, blocks, operations, tip, from);
  }

  lemma SourceAnswersParts(s: Source, blocks: seq<Block>, operations: map<Id, Operation>, tip: nat)
    requires Serves(s, blocks, operations) && tip == s.through + |blocks|
    ensures AnswersAllParts(s, PartsOf(s, blocks, operations), tip)
  {
    forall from: nat | s.through <= from <= tip
      ensures AnswersParts(Answers(s, from), PartsOf(s, blocks, operations), tip, from)
    {
      SourceAnswersFrom(s, blocks, operations, tip, from);
    }
  }

  /** What has been received so far is the chain from `start` up to `from`. */
  ghost predicate Received(s: Source, blocks: seq<Block>, operations: map<Id, Operation>, start: nat,
                           from: nat, d: Download) {
    && s.through <= start <= from <= s.through + |blocks|
    && d.blocks == blocks[start - s.through..from - s.through]
    && d.operations == Picked(operations, Mentioned(d.blocks))
  }

  lemma HeldIsReceived(s: Source, blocks: seq<Block>, operations: map<Id, Operation>, start: nat, tip: nat, d: Download)
    requires s.through <= start <= tip == s.through + |blocks| && Holds(PartsOf(s, blocks, operations), start, tip, d)
    ensures Received(s, blocks, operations, start, tip, d)
  {
    PartIsThere(s, blocks, operations, start, tip);
  }

  lemma TipBringsItsCheckpoint(s: Source, blocks: seq<Block>, operations: map<Id, Operation>, tip: nat)
    requires tip == s.through + |blocks|
    ensures PartsOf(s, blocks, operations)(tip, tip).checkpoint == CheckpointAt(s, tip, tip)
  {
    PartIsThere(s, blocks, operations, tip, tip);
  }

  /** The client that follows a public peer. It stops at an empty chunk or at a checkpoint, and needs a checkpoint if
      it received any block. It comes home exactly when at most 4096 blocks remain, the peer has a checkpoint at its
      tip, and every answer on the way fits one relay message. */
  method FollowPublic(s: Source, start: nat, encode: (nat, Chunk) -> seq<byte>, ghost blocks: seq<Block>,
                      ghost operations: map<Id, Operation>, ghost tip: nat)
    returns (r: Result<Download, CatchUpError>, ghost at: nat)
    requires Serves(s, blocks, operations) && s.through <= start <= tip == s.through + |blocks|
    ensures r.Ok? <==> && tip - start <= MAX_PUBLIC_BLOCKS && (start < tip ==> CheckpointAt(s, tip, tip).Some?)
                       && AllSmall(PartsOf(s, blocks, operations), tip, start, tip + 1, encode)
    ensures r.Ok? ==> && Received(s, blocks, operations, start, tip, r.value)
                      && r.value.checkpoint == if start == tip then None else CheckpointAt(s, tip, tip)
    ensures r.Err? ==>
              || (r.error == TooManyBlocks && tip - start > MAX_PUBLIC_BLOCKS)
              || (r.error == NoCheckpoint && start < tip && CheckpointAt(s, tip, tip).None?)
              || (start <= at <= tip
                  && FailsPublicly(PublicBytes(PartsOf(s, blocks, operations), tip, at, encode), r.error))
  {
    SourceAnswersParts(s, blocks, operations, tip);
    PartsAreChained(s, blocks, operations, tip);
    TipBringsItsCheckpoint(s, blocks, operations, tip);
    r, at := FollowPublicParts(s, start, encode, PartsOf(s, blocks, operations), tip);
    if r.Ok? {
      HeldIsReceived(s, blocks, operations, start, tip, r.value);
    }
  }

  /** The consensus client comes home exactly when every answer is delivered and the tip has a checkpoint. */
  method FollowConsensus(s: Source, start: nat, encode: Chunk -> seq<byte>, ghost blocks: seq<Block>,
                         ghost operations: map<Id, Operation>, ghost tip: nat)
    returns (r: Result<Download, CatchUpError>, ghost at: nat)
    requires Serves(s, blocks, operations) && s.through <= start <= tip == s.through + |blocks|
    ensures r.Ok? <==> && Arriving(PartsOf(s, blocks, operations), tip, start, encode)
                       && (start < tip ==> CheckpointAt(s, tip, tip).Some?)
    ensures r.Ok? ==> && Received(s, blocks, operations, start, tip, r.value)
                      && r.value.checkpoint == if start == tip then None else CheckpointAt(s, tip, tip)
    ensures r.Err? ==>
              || (r.error == NoCheckpoint && start < tip && CheckpointAt(s, tip, tip).None?)
              || (start <= at <= tip && Undeliverable(PartsOf(s, blocks, operations), tip, at, encode, r.error))
  {
    SourceAnswersParts(s, blocks, operations, tip);
    PartsAreChained(s, blocks, operations, tip);
    TipBringsItsCheckpoint(s, blocks, operations, tip);
    r, at := FollowParts(s, start, encode, PartsOf(s, blocks, operations), tip);
    if r.Ok? {
      HeldIsReceived(s, blocks, operations, start, tip, r.value);
    }
  }

  // ---- The gap between the two limits ----

  /** Whatever the serializer, a source whose first answer is in the gap passes the public server's size test and is
      never heard. */
  lemma GapEndsPublicCatchUp(parts: Parts, tip: nat, start: nat, encode: (nat, Chunk) -> seq<byte>)
    requires start <= tip && InGap(PublicBytes(parts, tip, start, encode))
    ensures FailsPublicly(PublicBytes(parts, tip, start, encode), ConnectionEnds)
    ensures !AllSmall(parts, tip, start, tip + 1, encode)
  {
    assert Asks(start, tip, start);
  }

  /** Nor by the consensus client, whose server chose that answer because it fits. */
  lemma GapEndsConsensusCatchUp(parts: Parts, tip: nat, start: nat, encode: Chunk -> seq<byte>)
    requires start <= tip && InGap(encode(parts(start, Last(start, tip, MAX_CATCH_UP_BLOCKS))))
    ensures Chosen(parts, tip, start, MAX_CATCH_UP_BLOCKS, encode) == Ok(Last(start, tip, MAX_CATCH_UP_BLOCKS))
    ensures Delivered(parts, tip, start, encode) == Err(ConnectionEnds) && !Arriving(parts, tip, start, encode)
  {
  }

  /** An instance: any serializers that make two mebibytes of the first answer. */
  lemma TwoMebibytesNeverArrive(parts: Parts, tip: nat, start: nat, public: (nat, Chunk) -> seq<byte>,
                                consensus: Chunk -> seq<byte>)
    requires start <= tip && |PublicBytes(parts, tip, start, public)| == 2 * 1024 * 1024
    requires |consensus(parts(start, Last(start, tip, MAX_CATCH_UP_BLOCKS)))| == 2 * 1024 * 1024
    ensures !AllSmall(parts, tip, start, tip + 1, public) && !Arriving(parts, tip, start, consensus)
  {
    GapEndsPublicCatchUp(parts, tip, start, public);
    GapEndsConsensusCatchUp(parts, tip, start, consensus);
  }
}
