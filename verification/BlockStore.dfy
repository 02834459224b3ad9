/** The block table. A block is stored without the fields its commit votes
    repeat, and stored blocks are only ever appended or pruned. */
module BlockStore {
  import opened MachineInts
  import opened LedgerModel
  import opened Ordering
  import opened StateTables

  // ---- The stored form ----

  datatype StoredVote = StoredVote(validator: u64, timestamp: i64, signature: Id)

  datatype StoredBlock = StoredBlock(ledgerId: Id, height: nat, timestamp: i64, hash: Id, round: u32,
                                     validatorSetHash: Id,
                                     operationIds: seq<Id>, votes: seq<StoredVote>, rest: Row)

  predicate VoteFits(b: Block, v: Vote) {
    && v.ledgerId == b.ledgerId && v.height == b.height && v.round == b.round && v.voteType == Precommit
    && v.blockHash == Some(b.hash) && v.validatorSetHash == b.validatorSetHash
  }

  predicate VotesFit(b: Block) {
    forall i :: 0 <= i < |b.votes| ==> VoteFits(b, b.votes[i])
  }

  function Compact(b: Block): Option<StoredBlock> {
    if VotesFit(b) then
      var votes := seq(|b.votes|, i requires 0 <= i < |b.votes| =>
        StoredVote(b.votes[i].validator, b.votes[i].timestamp, b.votes[i].signature));
      Some(StoredBlock(b.ledgerId, b.height, b.timestamp, b.hash, b.round, b.validatorSetHash,
                       b.operationIds, votes, b.rest))
    else None
  }

  function Expanded(s: StoredBlock): Block {
    var votes := seq(|s.votes|, i requires 0 <= i < |s.votes| =>
      Vote(s.ledgerId, s.height, s.round, Precommit, Some(s.hash), s.validatorSetHash,
           s.votes[i].validator, s.votes[i].timestamp, s.votes[i].signature));
    Block(s.ledgerId, s.height, s.timestamp, s.hash, s.round, s.validatorSetHash, s.operationIds, votes, s.rest)
  }

  /** A block survives storage exactly when its votes are votes for it. */
  lemma BlockRoundTrip(b: Block, s: StoredBlock)
    ensures Compact(b) == Some(s) <==> b == Expanded(s)
  {
    if b == Expanded(s) {
      assert Compact(b).value.votes == s.votes;
    }
    if Compact(b) == Some(s) {
      forall i | 0 <= i < |b.votes|
        ensures b.votes[i] == Expanded(s).votes[i]
      {
        assert VoteFits(b, b.votes[i]);
        assert s.votes[i] == StoredVote(b.votes[i].validator, b.votes[i].timestamp, b.votes[i].signature);
      }
      assert b.votes == Expanded(s).votes;
    }
  }

  // ---- Persisting ----

  /** Blocks by height; a later block takes the place of an earlier one. */
  function ByHeight(blocks: seq<Block>): map<nat, Block> {
    if blocks == [] then map[]
    else
      var last := blocks[|blocks| - 1];
      ByHeight(blocks[..|blocks| - 1])[last.height := last]
  }

  predicate Appends(before: map<nat, Block>, after: map<nat, Block>) {
    forall h, k :: h in after && h !in before && k in before ==> k < h
  }

  predicate Writable(rows: map<nat, StoredBlock>, before: map<nat, Block>, after: map<nat, Block>, h: nat)
    requires h in after
  {
    && Compact(after[h]).Some?
    && if h in before then Compact(before[h]) == Compact(after[h]) else h !in rows
  }

  function NewRows(before: map<nat, Block>, after: map<nat, Block>): map<nat, StoredBlock>
    requires forall h :: h in after ==> Compact(after[h]).Some?
  {
    map h | h in after && h !in before :: Compact(after[h]).value
  }

  /** The block table after `before` gives way to `after`; `None` when the history is not append-only. */
  function PersistedBlocks(rows: map<nat, StoredBlock>, before: seq<Block>,
                           after: seq<Block>): Option<map<nat, StoredBlock>> {
    var was, now := ByHeight(before), ByHeight(after);
    if |now| != |after| || !Appends(was, now) || !forall h :: h in now ==> Writable(rows, was, now, h) then None
    else Some((rows - (was.Keys - now.Keys)) + NewRows(was, now))
  }

  method PersistBlocks(table: Table<nat, StoredBlock>, before: seq<Block>, after: seq<Block>) returns (ok: bool)
    modifies table
    ensures ok <==> PersistedBlocks(old(table.rows), before, after).Some?
    ensures ok ==> Some(table.rows) == PersistedBlocks(old(table.rows), before, after)
  {
    var was, now := ByHeight(before), ByHeight(after);
    if |now| != |after| || !Appends(was, now) {
      return false;
    }
    ok := ReplaceBlocks(table, was, now);
  }

  predicate AllCompact(blocks: map<nat, Block>) {
    forall h :: h in blocks ==> Compact(blocks[h]).Some?
  }

  lemma NewRowsNext(was: map<nat, Block>, seen: map<nat, Block>, h: nat, block: Block)
    requires AllCompact(seen) && h !in seen && Compact(block).Some?
    ensures AllCompact(seen[h := block])
    ensures NewRows(was, seen[h := block])
            == if h in was then NewRows(was, seen) else NewRows(was, seen)[h := Compact(block).value]
  {
  }

  method ReplaceBlocks(table: Table<nat, StoredBlock>, was: map<nat, Block>, now: map<nat, Block>) returns (ok: bool)
    modifies table
    ensures ok <==> forall h :: h in now ==> Writable(old(table.rows), was, now, h)
    ensures ok ==> table.rows == (old(table.rows) - (was.Keys - now.Keys)) + NewRows(was, now)
  {
    RemoveAll(table, was.Keys - now.Keys);
    ok := WriteBlocks(table, was, now, table.rows);
    assert forall h :: h in now && h !in was ==>
        (h in old(table.rows) <==> h in old(table.rows) - (was.Keys - now.Keys));
    assert forall h :: h in now ==>
        (Writable(old(table.rows), was, now, h) <==> Writable(old(table.rows) - (was.Keys - now.Keys), was, now, h));
  }

  method WriteBlocks(table: Table<nat, StoredBlock>, was: map<nat, Block>, now: map<nat, Block>,
                     ghost kept: map<nat, StoredBlock>)
    returns (ok: bool)
    requires table.rows == kept
    modifies table
    ensures ok <==> forall h :: h in now ==> Writable(kept, was, now, h)
    ensures ok ==> table.rows == kept + NewRows(was, now)
  {
    var left := now.Keys;
    ghost var seen: map<nat, Block> := map[];
    ghost var added := NewRows(was, seen);
    assert kept + added == kept;
    while left != {}
      invariant left <= now.Keys && seen.Keys == now.Keys - left && AllCompact(seen)
      invariant forall h :: h in seen ==> seen[h] == now[h] && Writable(kept, was, now, h)
      invariant added == NewRows(was, seen) && table.rows == kept + added
    {
      var h :| h in left;
      var stored := Compact(now[h]);
      assert h !in added;
      if stored.None? || (if h in was then Compact(was[h]) != stored else h in table.rows) {
        assert !Writable(kept, was, now, h);
        return false;
      }
      NewRowsNext(was, seen, h, now[h]);
      if h !in was {
        MergeUpdate(kept, added, h, stored.value);
        table.rows := table.rows[h := stored.value];
        added := added[h := stored.value];
      }
      seen := seen[h := now[h]];
      left := left - {h};
    }
    assert seen == now;
    return true;
  }

  // ---- Loading ----

  function ExpandedAt(rows: map<nat, StoredBlock>, heights: seq<nat>): seq<Block>
    requires forall i :: 0 <= i < |heights| ==> heights[i] in rows
  {
    seq(|heights|, i requires 0 <= i < |heights| => Expanded(rows[heights[i]]))
  }

  ghost function LoadedBlocks(rows: map<nat, StoredBlock>): seq<Block> {
    var heights := Sorted(map[], rows.Keys);
    assert forall i :: 0 <= i < |heights| ==> heights[i] in Elements(heights);
    ExpandedAt(rows, heights)
  }

  /** The block with the greatest height. */
  ghost function TipBlock(rows: map<nat, StoredBlock>): Option<Block> {
    if rows.Keys == {} then None else Some(Expanded(rows[Greatest(map[], rows.Keys)]))
  }

  /** The table is exactly these blocks. */
  ghost predicate HoldsMap(rows: map<nat, StoredBlock>, blocks: map<nat, Block>) {
    rows.Keys == blocks.Keys && forall h :: h in blocks ==> Compact(blocks[h]) == Some(rows[h])
  }

  /** The table is exactly these blocks, numbered from after the pruned prefix. */
  ghost predicate HoldsBlocks(rows: map<nat, StoredBlock>, through: nat, blocks: seq<Block>) {
    Contiguous(through, blocks) && HoldsMap(rows, ByHeight(blocks))
  }

  /** A contiguous history has one block at each height. */
  lemma {:induction false} HeightsAreDistinct(through: nat, blocks: seq<Block>)
    requires Contiguous(through, blocks)
    ensures |ByHeight(blocks)| == |blocks|
    ensures forall h :: h in ByHeight(blocks) <==> through < h <= through + |blocks|
    ensures forall h :: h in ByHeight(blocks) ==> ByHeight(blocks)[h] == blocks[h - through - 1]
  {
    if blocks != [] {
      var n := |blocks| - 1;
      HeightsAreDistinct(through, blocks[..n]);
    }
  }

  lemma BlockAt(rows: map<nat, StoredBlock>, through: nat, blocks: seq<Block>, h: nat)
    requires HoldsBlocks(rows, through, blocks) && through < h <= through + |blocks|
    ensures h in rows && Expanded(rows[h]) == blocks[h - through - 1]
  {
    HeightsAreDistinct(through, blocks);
    BlockRoundTrip(ByHeight(blocks)[h], rows[h]);
  }

  lemma HeightRange(rows: map<nat, StoredBlock>, through: nat, blocks: seq<Block>)
    requires HoldsBlocks(rows, through, blocks)
    ensures forall h :: h in rows <==> through < h <= through + |blocks|
  {
    HeightsAreDistinct(through, blocks);
    assert forall h :: h in rows <==> h in ByHeight(blocks);
  }

  function Heights(through: nat, count: nat): seq<nat> {
    seq(count, i requires 0 <= i < count => through + 1 + i)
  }

  lemma HeightsElements(through: nat, count: nat)
    ensures forall h :: h in Elements(Heights(through, count)) <==> through < h <= through + count
    ensures Ascending(map[], Heights(through, count))
  {
    var heights := Heights(through, count);
    forall h
      ensures h in Elements(heights) <==> through < h <= through + count
    {
      if through < h <= through + count {
        assert heights[h - through - 1] == h;
      }
    }
  }

  lemma HeightsListed(rows: map<nat, StoredBlock>, through: nat, blocks: seq<Block>)
    requires HoldsBlocks(rows, through, blocks)
    ensures Sorted(map[], rows.Keys) == Heights(through, |blocks|)
  {
    var heights := Heights(through, |blocks|);
    HeightRange(rows, through, blocks);
    HeightsElements(through, |blocks|);
    assert Elements(heights) == rows.Keys;
    SortedIsUnique(map[], heights);
  }

  lemma ExpandedHeights(rows: map<nat, StoredBlock>, through: nat, blocks: seq<Block>)
    requires HoldsBlocks(rows, through, blocks)
    ensures forall i :: 0 <= i < |blocks| ==> Heights(through, |blocks|)[i] in rows
    ensures ExpandedAt(rows, Heights(through, |blocks|)) == blocks
  {
    var heights := Heights(through, |blocks|);
    forall i | 0 <= i < |blocks|
      ensures heights[i] in rows && Expanded(rows[heights[i]]) == blocks[i]
    {
      BlockAt(rows, through, blocks, through + 1 + i);
    }
  }

  lemma LoadedAt(rows: map<nat, StoredBlock>, heights: seq<nat>)
    requires Sorted(map[], rows.Keys) == heights && forall i :: 0 <= i < |heights| ==> heights[i] in rows
    ensures LoadedBlocks(rows) == ExpandedAt(rows, heights)
  {
  }

  lemma BlocksLoadBack(rows: map<nat, StoredBlock>, through: nat, blocks: seq<Block>)
    requires HoldsBlocks(rows, through, blocks)
    ensures LoadedBlocks(rows) == blocks
  {
    HeightsListed(rows, through, blocks);
    ExpandedHeights(rows, through, blocks);
    LoadedAt(rows, Heights(through, |blocks|));
  }

  lemma TipIsLast(rows: map<nat, StoredBlock>, through: nat, blocks: seq<Block>)
    requires HoldsBlocks(rows, through, blocks)
    ensures TipBlock(rows) == if blocks == [] then None else Some(blocks[|blocks| - 1])
  {
    HeightRange(rows, through, blocks);
    if blocks != [] {
      var top := through + |blocks|;
      BlockAt(rows, through, blocks, top);
      assert Greatest(map[], rows.Keys) == top;
    } else {
      assert rows.Keys == {};
    }
  }

  // ---- What persisting keeps ----

  function Replaced(rows: map<nat, StoredBlock>, was: map<nat, Block>, now: map<nat, Block>): map<nat, StoredBlock>
    requires AllCompact(now)
  {
    (rows - (was.Keys - now.Keys)) + NewRows(was, now)
  }

  ghost predicate AllWritable(rows: map<nat, StoredBlock>, was: map<nat, Block>, now: map<nat, Block>) {
    forall h :: h in now ==> Writable(rows, was, now, h)
  }

  lemma ReplacedHolds(rows: map<nat, StoredBlock>, was: map<nat, Block>, now: map<nat, Block>)
    requires HoldsMap(rows, was) && AllCompact(now) && AllWritable(rows, was, now)
    ensures HoldsMap(Replaced(rows, was, now), now)
  {
  }

  lemma PersistedIsReplaced(rows: map<nat, StoredBlock>, before: seq<Block>, after: seq<Block>)
    requires PersistedBlocks(rows, before, after).Some?
    ensures AllCompact(ByHeight(after)) && AllWritable(rows, ByHeight(before), ByHeight(after))
    ensures PersistedBlocks(rows, before, after).value == Replaced(rows, ByHeight(before), ByHeight(after))
  {
  }

  /** A transaction on the whole history leaves the table holding the new history. */
  lemma WholeHistoryStored(rows: map<nat, StoredBlock>, through: nat, before: seq<Block>, now: nat, after: seq<Block>)
    requires HoldsBlocks(rows, through, before) && Contiguous(now, after)
    requires PersistedBlocks(rows, before, after).Some?
    ensures HoldsBlocks(PersistedBlocks(rows, before, after).value, now, after)
  {
    PersistedIsReplaced(rows, before, after);
    ReplacedHolds(rows, ByHeight(before), ByHeight(after));
  }

  lemma {:induction false} ByHeightAppends(blocks: seq<Block>, more: seq<Block>)
    ensures ByHeight(blocks + more) == ByHeight(blocks) + ByHeight(more)
    decreases |more|
  {
    if more == [] {
      assert blocks + more == blocks;
    } else {
      var n := |more| - 1;
      ByHeightAppends(blocks, more[..n]);
      assert (blocks + more)[..|blocks| + n] == blocks + more[..n];
    }
  }

  lemma JoinedHolds(rows: map<nat, StoredBlock>, blocks: map<nat, Block>, added: map<nat, StoredBlock>,
                    more: map<nat, Block>)
    requires HoldsMap(rows, blocks) && HoldsMap(added, more)
    ensures HoldsMap(rows + added, blocks + more)
  {
  }

  lemma ContiguousJoins(through: nat, blocks: seq<Block>, more: seq<Block>)
    requires Contiguous(through, blocks) && Contiguous(through + |blocks|, more)
    ensures Contiguous(through, blocks + more)
  {
  }

  lemma NothingReplaced(rows: map<nat, StoredBlock>, more: map<nat, Block>)
    requires AllCompact(more)
    ensures Replaced(rows, map[], more) == rows + NewRows(map[], more) && HoldsMap(NewRows(map[], more), more)
  {
  }

  /** A transaction that saw no history adds its blocks to the old ones. */
  lemma AppendedStored(rows: map<nat, StoredBlock>, through: nat, blocks: seq<Block>, more: seq<Block>)
    requires HoldsBlocks(rows, through, blocks) && Contiguous(through + |blocks|, more)
    requires PersistedBlocks(rows, [], more).Some?
    ensures HoldsBlocks(PersistedBlocks(rows, [], more).value, through, blocks + more)
  {
    PersistedIsReplaced(rows, [], more);
    NothingReplaced(rows, ByHeight(more));
    JoinedHolds(rows, ByHeight(blocks), NewRows(map[], ByHeight(more)), ByHeight(more));
    ByHeightAppends(blocks, more);
    ContiguousJoins(through, blocks, more);
  }

  lemma CompactAdds(held: map<nat, Block>, h: nat, b: Block)
    requires h !in held
    ensures AllCompact(held[h := b]) <==> AllCompact(held) && VotesFit(b)
  {
    assert Compact(b).Some? <==> VotesFit(b);
    var all := held[h := b];
    assert all[h] == b && forall k :: k in held ==> k in all && all[k] == held[k];
  }

  lemma NewHeight(through: nat, more: seq<Block>)
    requires Contiguous(through, more) && more != []
    ensures more[|more| - 1].height !in ByHeight(more[..|more| - 1])
  {
    HeightsAreDistinct(through, more[..|more| - 1]);
  }

  lemma {:induction false} FitsByHeight(through: nat, more: seq<Block>)
    requires Contiguous(through, more)
    ensures AllCompact(ByHeight(more)) <==> forall i :: 0 <= i < |more| ==> VotesFit(more[i])
  {
    if more != [] {
      var n := |more| - 1;
      FitsByHeight(through, more[..n]);
      NewHeight(through, more);
      CompactAdds(ByHeight(more[..n]), more[n].height, more[n]);
      assert more == more[..n] + [more[n]];
    }
  }

  /** It succeeds exactly when every new block's votes are votes for it. */
  lemma BlocksAppend(rows: map<nat, StoredBlock>, through: nat, blocks: seq<Block>, more: seq<Block>)
    requires HoldsBlocks(rows, through, blocks) && Contiguous(through + |blocks|, more)
    ensures PersistedBlocks(rows, [], more).Some? <==> forall i :: 0 <= i < |more| ==> VotesFit(more[i])
  {
    FitsByHeight(through + |blocks|, more);
    HeightsAreDistinct(through + |blocks|, more);
    HeightRange(rows, through, blocks);
    var none, now: map<nat, Block> := map[], ByHeight(more);
    assert ByHeight([]) == none;
    if AllCompact(now) {
      assert AllWritable(rows, none, now);
    } else {
      assert !AllWritable(rows, none, now);
    }
  }

  /** A block of the old history, or one above all of it whose votes are votes for it. */
  predicate MayFollow(through: nat, blocks: seq<Block>, b: Block) {
    b in blocks || (VotesFit(b) && (blocks == [] || b.height > through + |blocks|))
  }

  lemma SameStoredForm(a: Block, b: Block)
    requires Compact(a) == Compact(b) && Compact(a).Some?
    ensures a == b
  {
    BlockRoundTrip(a, Compact(a).value);
    BlockRoundTrip(b, Compact(a).value);
  }

  lemma HeldIsCompact(rows: map<nat, StoredBlock>, held: map<nat, Block>, h: nat)
    requires HoldsMap(rows, held) && h in held
    ensures Compact(held[h]).Some?
  {
  }

  lemma HeldBlockFits(rows: map<nat, StoredBlock>, through: nat, blocks: seq<Block>, h: nat)
    requires HoldsBlocks(rows, through, blocks) && through < h <= through + |blocks|
    ensures h in ByHeight(blocks) && ByHeight(blocks)[h] == blocks[h - through - 1]
    ensures Compact(blocks[h - through - 1]).Some?
  {
    HeightsAreDistinct(through, blocks);
    HeldIsCompact(rows, ByHeight(blocks), h);
  }

  /** The block at one height may be written: as it was, or above all there was. */
  ghost predicate Allowed(rows: map<nat, StoredBlock>, was: map<nat, Block>, now: map<nat, Block>, h: nat)
    requires h in now
  {
    Writable(rows, was, now, h) && (h in was || forall k :: k in was ==> k < h)
  }

  lemma PersistedIfAllowed(rows: map<nat, StoredBlock>, before: seq<Block>, after: seq<Block>)
    requires |ByHeight(after)| == |after|
    ensures PersistedBlocks(rows, before, after).Some?
            <==> forall h :: h in ByHeight(after) ==> Allowed(rows, ByHeight(before), ByHeight(after), h)
  {
  }

  /** Writing one new block is allowed exactly when it may follow the old history. */
  lemma AllowedMayFollow(rows: map<nat, StoredBlock>, through: nat, blocks: seq<Block>, now: map<nat, Block>, h: nat)
    requires HoldsBlocks(rows, through, blocks) && h in now && now[h].height == h
    ensures Allowed(rows, ByHeight(blocks), now, h) <==> MayFollow(through, blocks, now[h])
  {
    HeightsAreDistinct(through, blocks);
    var b := now[h];
    if b in blocks {
      assert b == blocks[h - through - 1];
      HeldBlockFits(rows, through, blocks, h);
    }
    if through < h <= through + |blocks| {
      HeldBlockFits(rows, through, blocks, h);
      if Compact(b) == Compact(blocks[h - through - 1]) {
        SameStoredForm(b, blocks[h - through - 1]);
      }
    } else if blocks != [] {
      assert through + |blocks| in ByHeight(blocks);
    }
  }

  /** A whole history is written exactly when each of its blocks is an old one or lies above all of them. */
  lemma BlocksReplace(rows: map<nat, StoredBlock>, through: nat, blocks: seq<Block>, now: nat, after: seq<Block>)
    requires HoldsBlocks(rows, through, blocks) && Contiguous(now, after)
    ensures PersistedBlocks(rows, blocks, after).Some?
            <==> forall i :: 0 <= i < |after| ==> MayFollow(through, blocks, after[i])
  {
    HeightsAreDistinct(now, after);
    PersistedIfAllowed(rows, blocks, after);
    var next := ByHeight(after);
    forall h | h in next
      ensures 0 <= h - now - 1 < |after| && next[h] == after[h - now - 1]
      ensures Allowed(rows, ByHeight(blocks), next, h) <==> MayFollow(through, blocks, next[h])
    {
      AllowedMayFollow(rows, through, blocks, next, h);
    }
    assert forall i :: 0 <= i < |after| ==> now + 1 + i in next && next[now + 1 + i] == after[i];
  }
}
