/** Serving a chain in chunks from the tables. The bytes an answer is serialized
    to are a parameter; they travel as one WebSocket message. */
module CatchUp {
  import opened MachineInts
  import opened LedgerModel
  import opened BlockStore
  import opened OperationStore
  import Wire

  const MAX_CATCH_UP_BLOCKS := 256

  datatype CatchUpError = AheadOfTip | HistoryPruned | MissingBlock | UnreadableOperation | TooLarge
                        | TipMovedBack | EmptyGap | EarlyCheckpoint | NoCheckpoint | TooManyBlocks
                        | ResponseTooLarge | ConnectionEnds

  datatype Chunk = Chunk(tip: nat, blocks: seq<Block>, operations: map<Id, Operation>, checkpoint: Option<Ledger>)

  type Answer = Result<Chunk, CatchUpError>

  /** What a server answers from: pruned height, block and operation tables, finalized checkpoint. */
  datatype Source = Source(through: nat, rows: map<nat, StoredBlock>, operations: OperationRows,
                           checkpoint: Option<Ledger>)

  // ---- One chunk ----

  ghost function TipHeight(s: Source): nat {
    match TipBlock(s.rows)
    case Some(tip) => tip.height
    case None => s.through
  }

  function Clamped(max: nat): nat {
    if max < 1 then 1 else if max > MAX_CATCH_UP_BLOCKS then MAX_CATCH_UP_BLOCKS else max
  }

  function Last(from: nat, tip: nat, max: nat): nat {
    if from + Clamped(max) < tip then from + Clamped(max) else tip
  }

  predicate Present(rows: map<nat, StoredBlock>, from: nat, last: nat) {
    forall h :: from < h <= last ==> h in rows
  }

  function Slice(rows: map<nat, StoredBlock>, from: nat, last: nat): seq<Block>
    requires from <= last && Present(rows, from, last)
  {
    seq(last - from, i requires 0 <= i < last - from => Expanded(rows[from + 1 + i]))
  }

  function Mentioned(blocks: seq<Block>): set<Id> {
    set i, id | 0 <= i < |blocks| && id in blocks[i].operationIds :: id
  }

  function Offered(s: Source, blocks: seq<Block>, from: nat, tip: nat): Option<Ledger> {
    var reached := if blocks == [] then from == tip else blocks[|blocks| - 1].height == tip;
    if reached && s.checkpoint.Some? && s.checkpoint.value.pruned.through == tip then s.checkpoint else None
  }

  function Collect(s: Source, tip: nat, from: nat, max: nat): Answer {
    if from > tip then Err(AheadOfTip)
    else if from < s.through then Err(HistoryPruned)
    else
      var last := Last(from, tip, max);
      if !Present(s.rows, from, last) then Err(MissingBlock)
      else
        var blocks := Slice(s.rows, from, last);
        if exists id :: id in Mentioned(blocks) && !Readable(s.operations, id) then Err(UnreadableOperation)
        else Ok(Chunk(tip, blocks, map id | id in Mentioned(blocks) :: Joined(s.operations, id),
                      Offered(s, blocks, from, tip)))
  }

  method ReadBlocks(rows: map<nat, StoredBlock>, from: nat, tip: nat, max: nat) returns (blocks: Option<seq<Block>>)
    requires from <= tip
    ensures blocks.Some? <==> Present(rows, from, Last(from, tip, max))
    ensures blocks.Some? ==> blocks.value == Slice(rows, from, Last(from, tip, max))
  {
    var read: seq<Block> := [];
    var height := from + 1;
    while height <= tip && |read| < Clamped(max)
      invariant from < height <= Last(from, tip, max) + 1 && Present(rows, from, height - 1)
      invariant read == Slice(rows, from, height - 1)
    {
      if height !in rows {
        return None;
      }
      read := read + [Expanded(rows[height])];
      height := height + 1;
    }
    return Some(read);
  }

  method ReadOperations(operations: OperationRows, ids: set<Id>) returns (read: Option<map<Id, Operation>>)
    ensures read.Some? <==> forall id :: id in ids ==> Readable(operations, id)
    ensures read.Some? ==> read.value == map id | id in ids :: Joined(operations, id)
  {
    var found: map<Id, Operation> := map[];
    var left := ids;
    while left != {}
      invariant left <= ids && found.Keys == ids - left
      invariant forall id :: id in found ==> Readable(operations, id) && found[id] == Joined(operations, id)
    {
      var id :| id in left;
      if !Readable(operations, id) {
        return None;
      }
      found := found[id := Joined(operations, id)];
      left := left - {id};
    }
    return Some(found);
  }

  method FindTip(s: Source) returns (tip: nat)
    ensures tip == TipHeight(s)
  {
    if s.rows.Keys == {} {
      return s.through;
    }
    var top :| top in s.rows.Keys;
    var left := s.rows.Keys - {top};
    while left != {}
      invariant left <= s.rows.Keys && top in s.rows
      invariant forall h :: h in s.rows && h !in left ==> h <= top
    {
      var h :| h in left;
      if h > top {
        top := h;
      }
      left := left - {h};
    }
    tip := Expanded(s.rows[top]).height;
  }

  method CollectCatchUp(s: Source, from: nat, max: nat) returns (r: Answer)
    ensures r == Collect(s, TipHeight(s), from, max)
  {
    var tip := FindTip(s);
    if from > tip {
      return Err(AheadOfTip);
    }
    if from < s.through {
      return Err(HistoryPruned);
    }
    var blocks := ReadBlocks(s.rows, from, tip, max);
    if blocks.None? {
      return Err(MissingBlock);
    }
    var operations := ReadOperations(s.operations, Mentioned(blocks.value));
    if operations.None? {
      return Err(UnreadableOperation);
    }
    return Ok(Chunk(tip, blocks.value, operations.value, Offered(s, blocks.value, from, tip)));
  }

  // ---- What a sound source serves ----

  /** The tables hold this chain and every operation it mentions. */
  ghost predicate Serves(s: Source, blocks: seq<Block>, operations: map<Id, Operation>) {
    && HoldsBlocks(s.rows, s.through, blocks) && HoldsOperations(s.operations, operations)
    && Mentioned(blocks) <= operations.Keys
  }

  function Picked(operations: map<Id, Operation>, ids: set<Id>): map<Id, Operation> {
    map id | id in operations && id in ids :: operations[id]
  }

  lemma TipOfSource(s: Source, blocks: seq<Block>, operations: map<Id, Operation>)
    requires Serves(s, blocks, operations)
    ensures TipHeight(s) == s.through + |blocks|
  {
    TipIsLast(s.rows, s.through, blocks);
  }

  lemma SliceOfChain(s: Source, blocks: seq<Block>, from: nat, last: nat)
    requires HoldsBlocks(s.rows, s.through, blocks) && s.through <= from <= last <= s.through + |blocks|
    ensures Present(s.rows, from, last)
    ensures Slice(s.rows, from, last) == blocks[from - s.through..last - s.through]
  {
    forall h | from < h <= last
      ensures h in s.rows
    {
      BlockAt(s.rows, s.through, blocks, h);
    }
    forall i | 0 <= i < last - from
      ensures Slice(s.rows, from, last)[i] == blocks[from - s.through..last - s.through][i]
    {
      BlockAt(s.rows, s.through, blocks, from + 1 + i);
    }
  }

  lemma MentionedPart(blocks: seq<Block>, low: nat, high: nat)
    requires low <= high <= |blocks|
    ensures Mentioned(blocks[low..high]) <= Mentioned(blocks)
  {
  }

  lemma OperationsOf(rows: OperationRows, operations: map<Id, Operation>, ids: set<Id>)
    requires HoldsOperations(rows, operations) && ids <= operations.Keys
    ensures forall id :: id in ids ==> Readable(rows, id)
    ensures (map id | id in ids :: Joined(rows, id)) == Picked(operations, ids)
  {
  }

  function CheckpointAt(s: Source, tip: nat, end: nat): Option<Ledger> {
    if end == tip && s.checkpoint.Some? && s.checkpoint.value.pruned.through == tip then s.checkpoint else None
  }

  lemma CollectGives(s: Source, tip: nat, from: nat, max: nat, next: seq<Block>, picked: map<Id, Operation>)
    requires s.through <= from <= tip && Present(s.rows, from, Last(from, tip, max))
    requires Slice(s.rows, from, Last(from, tip, max)) == next
    requires forall id :: id in Mentioned(next) ==> Readable(s.operations, id)
    requires picked == map id | id in Mentioned(next) :: Joined(s.operations, id)
    ensures Collect(s, tip, from, max) == Ok(Chunk(tip, next, picked, Offered(s, next, from, tip)))
  {
  }

  /** The chunk that carries the chain from `from` to `last`: those blocks, their operations, and a checkpoint only
      where the tip is reached. */
  function Part(s: Source, blocks: seq<Block>, operations: map<Id, Operation>, from: nat, last: nat): Chunk
    requires s.through <= from <= last <= s.through + |blocks|
  {
    var tip, next := s.through + |blocks|, blocks[from - s.through..last - s.through];
    Chunk(tip, next, Picked(operations, Mentioned(next)), CheckpointAt(s, tip, last))
  }

  lemma OfferedAtEnd(s: Source, blocks: seq<Block>, from: nat, last: nat)
    requires Contiguous(s.through, blocks) && s.through <= from <= last <= s.through + |blocks|
    ensures var tip, next := s.through + |blocks|, blocks[from - s.through..last - s.through];
            Offered(s, next, from, tip) == CheckpointAt(s, tip, last)
  {
    var next := blocks[from - s.through..last - s.through];
    if next != [] {
      assert next[|next| - 1] == blocks[last - s.through - 1];
    }
  }

  lemma NextIsThere(s: Source, blocks: seq<Block>, operations: map<Id, Operation>, from: nat, last: nat)
    requires Serves(s, blocks, operations) && s.through <= from <= last <= s.through + |blocks|
    ensures var next := blocks[from - s.through..last - s.through];
            && Present(s.rows, from, last) && Slice(s.rows, from, last) == next
            && (forall id :: id in Mentioned(next) ==> Readable(s.operations, id))
            && (map id | id in Mentioned(next) :: Joined(s.operations, id)) == Picked(operations, Mentioned(next))
  {
    SliceOfChain(s, blocks, from, last);
    MentionedPart(blocks, from - s.through, last - s.through);
    OperationsOf(s.operations, operations, Mentioned(blocks[from - s.through..last - s.through]));
  }

  lemma GivesPart(s: Source, blocks: seq<Block>, operations: map<Id, Operation>, tip: nat, from: nat, max: nat)
    requires Contiguous(s.through, blocks) && s.through <= from <= tip == s.through + |blocks|
    requires Present(s.rows, from, Last(from, tip, max))
    requires var next := blocks[from - s.through..Last(from, tip, max) - s.through];
             && Slice(s.rows, from, Last(from, tip, max)) == next
             && (forall id :: id in Mentioned(next) ==> Readable(s.operations, id))
             && (map id | id in Mentioned(next) :: Joined(s.operations, id)) == Picked(operations, Mentioned(next))
    ensures Collect(s, tip, from, max) == Ok(Part(s, blocks, operations, from, Last(from, tip, max)))
  {
    var last := Last(from, tip, max);
    var next := blocks[from - s.through..last - s.through];
    CollectGives(s, tip, from, max, next, Picked(operations, Mentioned(next)));
    OfferedAtEnd(s, blocks, from, last);
  }

  lemma ChunkIsPart(s: Source, blocks: seq<Block>, operations: map<Id, Operation>, tip: nat, from: nat, max: nat)
    requires Serves(s, blocks, operations) && s.through <= from <= tip == s.through + |blocks|
    ensures Collect(s, tip, from, max) == Ok(Part(s, blocks, operations, from, Last(from, tip, max)))
  {
    NextIsThere(s, blocks, operations, from, Last(from, tip, max));
    GivesPart(s, blocks, operations, tip, from, max);
  }

  /** A sound source answers every request within its history with the next part of its chain. */
  lemma ChunkIsNext(s: Source, blocks: seq<Block>, operations: map<Id, Operation>, from: nat, max: nat)
    requires Serves(s, blocks, operations) && s.through <= from <= s.through + |blocks|
    ensures Collect(s, TipHeight(s), from, max)
            == Ok(Part(s, blocks, operations, from, Last(from, s.through + |blocks|, max)))
  {
    TipOfSource(s, blocks, operations);
    ChunkIsPart(s, blocks, operations, s.through + |blocks|, from, max);
  }

  // ---- One answer on the wire ----

  /** What the peer reads when a server writes these bytes as one message. A refused write ends the connection. */
  function Transmitted(bytes: seq<byte>): Result<seq<byte>, CatchUpError> {
    match Wire.WriteMessage(Wire.Binary(bytes), None)
    case Err(_) => Err(ConnectionEnds)
    case Ok(sent) =>
      match Wire.ReadMessage(sent, false)
      case Err(_) => Err(ConnectionEnds)
      case Ok(reading) => Ok(reading.message.payload)
  }

  /** Messages arrive whole up to the relay limit, and not at all beyond it. */
  lemma TransmittedWhole(bytes: seq<byte>)
    ensures Transmitted(bytes) == if |bytes| <= Wire.MAX_MESSAGE then Ok(bytes) else Err(ConnectionEnds)
  {
    if |bytes| <= Wire.MAX_MESSAGE {
      Wire.MessageReads(Wire.Binary(bytes), None, [], false);
      var sent := Wire.WriteMessage(Wire.Binary(bytes), None).value;
      assert sent + [] == sent;
    }
  }

  /** The public server replaces an answer over 16 MiB by an error, and sends any other as it is. */
  function SentPublicly(bytes: seq<byte>): Result<seq<byte>, CatchUpError> {
    if |bytes| > Wire.MAX_CONSENSUS_MESSAGE_SIZE then Err(ResponseTooLarge) else Transmitted(bytes)
  }

  /** Over the relay limit, and yet within the limit the servers test for. */
  predicate InGap(bytes: seq<byte>) {
    Wire.MAX_MESSAGE < |bytes| <= Wire.MAX_CONSENSUS_MESSAGE_SIZE
  }

  // ---- Shrinking an answer to fit ----

  predicate Fits(encode: Chunk -> seq<byte>, chunk: Chunk) {
    |encode(chunk)| <= Wire.MAX_CONSENSUS_MESSAGE_SIZE
  }

  /** An answer holds no more blocks than its limit. */
  ghost predicate Limited(answers: nat -> Answer) {
    forall max :: 1 <= max <= MAX_CATCH_UP_BLOCKS && answers(max).Ok? ==> |answers(max).value.blocks| <= max
  }

  /** The answer once the block limit has been halved as often as it takes. */
  ghost function Halved(answers: nat -> Answer, max: nat, encode: Chunk -> seq<byte>): Answer
    requires Limited(answers) && 1 <= max <= MAX_CATCH_UP_BLOCKS
    decreases max
  {
    var answer := answers(max);
    if answer.Err? || Fits(encode, answer.value) then answer
    else if |answer.value.blocks| <= 1 then Err(TooLarge)
    else Halved(answers, |answer.value.blocks| / 2, encode)
  }

  /** The halving stops at an answer that fits although the one of twice the blocks did not, or at a single block that
      does not fit. */
  ghost predicate Shrunk(answers: nat -> Answer, max: nat, encode: Chunk -> seq<byte>, limit: nat, r: Answer) {
    && 1 <= limit <= max
    && (r == answers(limit)
        || (r == Err(TooLarge) && answers(limit).Ok? && !Fits(encode, answers(limit).value)
            && |answers(limit).value.blocks| <= 1))
    && (r.Ok? ==> Fits(encode, r.value))
    && (limit < max ==>
          exists more :: limit < more <= max && answers(more).Ok? && !Fits(encode, answers(more).value)
                         && |answers(more).value.blocks| / 2 == limit)
  }

  lemma {:induction false} HalvedIsShrunk(answers: nat -> Answer, max: nat, encode: Chunk -> seq<byte>)
      returns (limit: nat)
    requires Limited(answers) && 1 <= max <= MAX_CATCH_UP_BLOCKS
    ensures Shrunk(answers, max, encode, limit, Halved(answers, max, encode))
    decreases max
  {
    limit := max;
    var answer := answers(max);
    if answer.Ok? && !Fits(encode, answer.value) && |answer.value.blocks| > 1 {
      limit := HalvedIsShrunk(answers, |answer.value.blocks| / 2, encode);
    }
  }

  /** What the tables answer, by block limit. */
  ghost function Answers(s: Source, from: nat): nat -> Answer {
    (max: nat) => Collect(s, TipHeight(s), from, max)
  }

  lemma ChunkIsBounded(s: Source, tip: nat, from: nat, max: nat)
    requires Collect(s, tip, from, max).Ok?
    ensures |Collect(s, tip, from, max).value.blocks| <= Clamped(max)
  {
  }

  lemma AnswersAreLimited(s: Source, from: nat)
    ensures Limited(Answers(s, from))
  {
    forall max | 1 <= max <= MAX_CATCH_UP_BLOCKS && Answers(s, from)(max).Ok?
      ensures |Answers(s, from)(max).value.blocks| <= max
    {
      ChunkIsBounded(s, TipHeight(s), from, max);
    }
  }

  /** Halves the block limit until the answer fits. How a chunk is read from the tables is a parameter. */
  method Respond(answers: nat -> Answer, encode: Chunk -> seq<byte>) returns (r: Answer, ghost limit: nat)
    requires Limited(answers)
    ensures r == Halved(answers, MAX_CATCH_UP_BLOCKS, encode)
    ensures Shrunk(answers, MAX_CATCH_UP_BLOCKS, encode, limit, r)
  {
    limit := HalvedIsShrunk(answers, MAX_CATCH_UP_BLOCKS, encode);
    var blockLimit := MAX_CATCH_UP_BLOCKS;
    while true
      invariant 1 <= blockLimit <= MAX_CATCH_UP_BLOCKS
      invariant Halved(answers, blockLimit, encode) == Halved(answers, MAX_CATCH_UP_BLOCKS, encode)
      decreases blockLimit
    {
      r := answers(blockLimit);
      if r.Err? || Fits(encode, r.value) {
        return;
      }
      var count := |r.value.blocks|;
      if count <= 1 {
        r := Err(TooLarge);
        return;
      }
      blockLimit := if count / 2 > 1 then count / 2 else 1;
    }
  }

  /** The answer the server settles on is delivered exactly when it is not in the gap between the two limits. */
  ghost function Served(answers: nat -> Answer, encode: Chunk -> seq<byte>): Answer
    requires Limited(answers)
  {
    var r := Halved(answers, MAX_CATCH_UP_BLOCKS, encode);
    if r.Ok? && InGap(encode(r.value)) then Err(ConnectionEnds) else r
  }

  method Deliver(answers: nat -> Answer, encode: Chunk -> seq<byte>) returns (r: Answer)
    requires Limited(answers)
    ensures r == Served(answers, encode)
  {
    ghost var limit;
    r, limit := Respond(answers, encode);
    if r.Ok? {
      TransmittedWhole(encode(r.value));
      var sent := Transmitted(encode(r.value));
      if sent.Err? {
        r := Err(ConnectionEnds);
      }
    }
  }

  method AskConsensus(s: Source, from: nat, encode: Chunk -> seq<byte>) returns (r: Answer)
    ensures Limited(Answers(s, from)) && r == Served(Answers(s, from), encode)
  {
    AnswersAreLimited(s, from);
    var tip := FindTip(s);
    var answers := (max: nat) => Collect(s, tip, from, max);
    assert answers == Answers(s, from);
    r := Deliver(answers, encode);
  }
}
