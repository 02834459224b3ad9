/** LITE history pruning: the oldest blocks go, with the operations nothing
    retained refers to and the account links to them. */
module Prune {
  import opened MachineInts
  import opened LedgerModel
  import opened Ordering
  import opened StateStore
  import opened OperationStore
  import opened Transactions

  datatype Report = Report(prunedBlocks: nat, prunedOperations: nat, prunedLinks: nat, prunedThrough: nat,
                           retainedBlocks: nat, retainedOperations: nat)

  // ---- What is kept ----

  function Excess(count: nat, limit: nat): nat {
    if count > limit then count - limit else 0
  }

  function Newest<T>(s: seq<T>, limit: nat): seq<T> {
    s[Excess(|s|, limit)..]
  }

  function PrunedPrefix(l: Ledger, limit: nat): Pruned {
    var remove := Excess(|l.blocks|, limit);
    if remove == 0 then l.pruned
    else Pruned(l.blocks[remove - 1].height, Some(l.blocks[remove - 1].hash), Some(l.blocks[remove - 1].timestamp))
  }

  predicate Referenced(l: Ledger, blocks: seq<Block>, id: Id) {
    id in l.core.pending || exists i :: 0 <= i < |blocks| && id in blocks[i].operationIds
  }

  predicate Needed(l: Ledger, blocks: seq<Block>, id: Id)
    requires id in l.operations
  {
    l.operations[id].finality.status == Pending || Referenced(l, blocks, id)
  }

  function KeptOperations(l: Ledger, blocks: seq<Block>): map<Id, Operation> {
    map id | id in l.operations && Needed(l, blocks, id) :: l.operations[id]
  }

  function KnownLinks(ids: seq<Id>, operations: map<Id, Operation>): seq<Id> {
    if ids == [] then []
    else
      var known := KnownLinks(ids[..|ids| - 1], operations);
      if ids[|ids| - 1] in operations then known + [ids[|ids| - 1]] else known
  }

  function KeptLinks(a: Account, operations: map<Id, Operation>, limit: nat): Account {
    a.(operationIds := Newest(KnownLinks(a.operationIds, operations), limit))
  }

  function KeptAccounts(accounts: map<Id, Account>, operations: map<Id, Operation>, limit: nat): map<Id, Account> {
    map a | a in accounts :: KeptLinks(accounts[a], operations, limit)
  }

  /** The pruned ledger. */
  function PrunedLedger(l: Ledger, blockLimit: nat, linkLimit: nat): Ledger {
    var blocks, prefix := Newest(l.blocks, blockLimit), PrunedPrefix(l, blockLimit);
    var operations := KeptOperations(l, blocks);
    var removed := Excess(|l.operations|, |operations|);
    l.(blocks := blocks, pruned := prefix, operations := operations,
       historyFrom := if blocks != [] then blocks[0].height else prefix.through + 1,
       prunedOperations := if l.prunedOperations + removed > U64_MAX then U64_MAX else l.prunedOperations + removed,
       collections := l.collections.(accounts := KeptAccounts(l.collections.accounts, operations, linkLimit)))
  }

  // ---- In place ----

  /** How many links the accounts hold together. */
  ghost function LinkCount(accounts: map<Id, Account>): nat
    decreases |accounts|
  {
    if accounts.Keys == {} then 0
    else
      var a := Greatest(map[], accounts.Keys);
      assert |accounts - {a}| < |accounts|;
      LinkCount(accounts - {a}) + |accounts[a].operationIds|
  }

  lemma {:induction false} LinkCountAdds(accounts: map<Id, Account>, a: Id, account: Account)
    requires a !in accounts
    ensures LinkCount(accounts[a := account]) == LinkCount(accounts) + |account.operationIds|
    decreases |accounts|
  {
    var more := accounts[a := account];
    assert a in more.Keys;
    var top := Greatest(map[], more.Keys);
    if top == a {
      assert more - {a} == accounts;
    } else {
      assert IsGreatest(map[], accounts.Keys, top);
      assert Greatest(map[], accounts.Keys) == top;
      assert more - {top} == (accounts - {top})[a := account];
      assert |accounts - {top}| < |accounts|;
      LinkCountAdds(accounts - {top}, a, account);
    }
  }

  lemma {:induction false} FewerLinks(ids: seq<Id>, operations: map<Id, Operation>)
    ensures |KnownLinks(ids, operations)| <= |ids|
  {
    if ids != [] {
      FewerLinks(ids[..|ids| - 1], operations);
    }
  }

  method RetainLinks(account: Account, operations: map<Id, Operation>, limit: nat) returns (kept: Account)
    ensures kept == KeptLinks(account, operations, limit) && |kept.operationIds| <= |account.operationIds|
  {
    var ids, known := account.operationIds, [];
    for n := 0 to |ids|
      invariant known == KnownLinks(ids[..n], operations)
    {
      assert ids[..n + 1][..n] == ids[..n];
      if ids[n] in operations {
        known := known + [ids[n]];
      }
    }
    assert ids[..|ids|] == ids;
    FewerLinks(ids, operations);
    if |known| > limit {
      known := known[|known| - limit..];
    }
    kept := account.(operationIds := known);
  }

  /** The first keys of a map, and what was made of them. */
  ghost predicate KeptSoFar(accounts: map<Id, Account>, operations: map<Id, Operation>, limit: nat,
                            kept: map<Id, Account>, seen: map<Id, Account>) {
    && kept == KeptAccounts(seen, operations, limit)
    && forall a :: a in seen ==> a in accounts && seen[a] == accounts[a]
  }

  lemma KeepsNext(accounts: map<Id, Account>, operations: map<Id, Operation>, limit: nat, kept: map<Id, Account>,
                  seen: map<Id, Account>, a: Id)
    requires KeptSoFar(accounts, operations, limit, kept, seen) && a in accounts && a !in seen
    ensures KeptSoFar(accounts, operations, limit, kept[a := KeptLinks(accounts[a], operations, limit)],
                      seen[a := accounts[a]])
    ensures a !in kept
  {
  }

  method RetainAccounts(accounts: map<Id, Account>, operations: map<Id, Operation>, limit: nat)
      returns (kept: map<Id, Account>, removed: nat)
    ensures kept == KeptAccounts(accounts, operations, limit)
    ensures removed + LinkCount(kept) == LinkCount(accounts)
  {
    kept, removed := map[], 0;
    var left := accounts.Keys;
    ghost var seen: map<Id, Account> := map[];
    while left != {}
      invariant left <= accounts.Keys && seen.Keys == accounts.Keys - left
      invariant KeptSoFar(accounts, operations, limit, kept, seen)
      invariant removed + LinkCount(kept) == LinkCount(seen)
    {
      var a :| a in left;
      var account := RetainLinks(accounts[a], operations, limit);
      KeepsNext(accounts, operations, limit, kept, seen, a);
      LinkCountAdds(kept, a, account);
      LinkCountAdds(seen, a, accounts[a]);
      kept := kept[a := account];
      removed := removed + (|accounts[a].operationIds| - |account.operationIds|);
      seen := seen[a := accounts[a]];
      left := left - {a};
    }
    assert seen == accounts;
  }

  method RetainedIds(pending: seq<Id>, blocks: seq<Block>) returns (ids: set<Id>)
    ensures forall id :: id in ids <==> id in pending || exists i :: 0 <= i < |blocks| && id in blocks[i].operationIds
  {
    ids := set id | id in pending;
    for n := 0 to |blocks|
      invariant forall id :: id in ids <==> id in pending || exists i :: 0 <= i < n && id in blocks[i].operationIds
    {
      ids := ids + set id | id in blocks[n].operationIds;
    }
  }

  method RetainOperations(l: Ledger, blocks: seq<Block>) returns (kept: map<Id, Operation>)
    ensures kept == KeptOperations(l, blocks)
  {
    var retained := RetainedIds(l.core.pending, blocks);
    kept := l.operations;
    var left := l.operations.Keys;
    while left != {}
      invariant left <= l.operations.Keys
      invariant forall id :: id in kept <==> id in l.operations && (id in left || Needed(l, blocks, id))
      invariant forall id :: id in kept ==> kept[id] == l.operations[id]
    {
      var id :| id in left;
      assert id in retained <==> Referenced(l, blocks, id);
      if !(l.operations[id].finality.status == Pending || id in retained) {
        kept := kept - {id};
      }
      left := left - {id};
    }
  }

  class History {
    var ledger: Ledger

    constructor (ledger: Ledger)
      ensures this.ledger == ledger
    {
      this.ledger := ledger;
    }

    method DropBlocks(limit: nat) returns (removed: nat)
      modifies this
      ensures ledger == old(ledger).(blocks := Newest(old(ledger).blocks, limit),
                                     pruned := PrunedPrefix(old(ledger), limit))
      ensures removed + |ledger.blocks| == |old(ledger).blocks|
    {
      removed := Excess(|ledger.blocks|, limit);
      if removed > 0 {
        var checkpoint := ledger.blocks[removed - 1];
        ledger := ledger.(blocks := ledger.blocks[removed..],
                          pruned := Pruned(checkpoint.height, Some(checkpoint.hash), Some(checkpoint.timestamp)));
      }
    }

    /** Prunes in place and reports what went and what stayed. */
    method PruneHistory(blockLimit: nat, linkLimit: nat) returns (report: Report)
      modifies this
      ensures ledger == PrunedLedger(old(ledger), blockLimit, linkLimit)
      ensures report.prunedBlocks + report.retainedBlocks == |old(ledger).blocks|
      ensures report.retainedBlocks == |ledger.blocks|
      ensures report.prunedOperations + report.retainedOperations == |old(ledger).operations|
      ensures report.retainedOperations == |ledger.operations|
      ensures report.prunedLinks + LinkCount(ledger.collections.accounts) == LinkCount(old(ledger).collections.accounts)
      ensures report.prunedThrough == ledger.pruned.through
    {
      var start := ledger;
      var removedBlocks := DropBlocks(blockLimit);
      var blocks := ledger.blocks;
      var historyFrom := if blocks != [] then blocks[0].height else Height(ledger) + 1;
      var operations := RetainOperations(start, blocks);
      FewerOperations(start, blocks);
      var removed := Excess(|start.operations|, |operations|);
      var accounts, links := RetainAccounts(start.collections.accounts, operations, linkLimit);
      ledger := ledger.(operations := operations, historyFrom := historyFrom,
                        prunedOperations := if start.prunedOperations + removed > U64_MAX then U64_MAX
                          else start.prunedOperations + removed,
                        collections := start.collections.(accounts := accounts));
      report := Report(removedBlocks, removed, links, ledger.pruned.through, |blocks|, |operations|);
    }
  }

  lemma FewerOperations(l: Ledger, blocks: seq<Block>)
    ensures |KeptOperations(l, blocks)| <= |l.operations|
  {
    var kept := KeptOperations(l, blocks);
    assert kept.Keys <= l.operations.Keys;
    SubsetSize(kept.Keys, l.operations.Keys);
    assert |kept.Keys| == |kept| && |l.operations.Keys| == |l.operations|;
  }

  lemma {:induction false} SubsetSize<T>(a: set<T>, b: set<T>)
    requires a <= b
    ensures |a| <= |b|
  {
    if a != {} {
      var x :| x in a;
      SubsetSize(a - {x}, b - {x});
    }
  }

  // ---- Safety ----

  lemma PruningReadsAlike(l: Ledger, blockLimit: nat, linkLimit: nat)
    requires Contiguous(l.pruned.through, l.blocks)
    ensures Read(PrunedLedger(l, blockLimit, linkLimit)) == Read(l)
    ensures Contiguous(PrunedLedger(l, blockLimit, linkLimit).pruned.through,
                       PrunedLedger(l, blockLimit, linkLimit).blocks)
  {
    var after := PrunedLedger(l, blockLimit, linkLimit);
    assert Unlinked(after.collections.accounts) == Unlinked(l.collections.accounts);
    var remove := Excess(|l.blocks|, blockLimit);
    if remove > 0 {
      assert l.blocks[remove - 1].height == l.pruned.through + remove;
    }
    assert TipTime(after) == TipTime(l);
  }

  lemma {:induction false} KnownLinksKept(ids: seq<Id>, operations: map<Id, Operation>)
    ensures forall id :: id in KnownLinks(ids, operations) <==> id in ids && id in operations
  {
    if ids != [] {
      KnownLinksKept(ids[..|ids| - 1], operations);
      assert ids == ids[..|ids| - 1] + [ids[|ids| - 1]];
    }
  }

  lemma NewestAreOld(ids: seq<Id>, limit: nat)
    ensures forall id :: id in Newest(ids, limit) ==> id in ids
  {
  }

  /** A kept link was there before, and points at a kept operation. */
  lemma KeptLinkIsKnown(a: Account, operations: map<Id, Operation>, limit: nat)
    ensures forall id :: id in KeptLinks(a, operations, limit).operationIds ==> id in a.operationIds && id in operations
  {
    KnownLinksKept(a.operationIds, operations);
    NewestAreOld(KnownLinks(a.operationIds, operations), limit);
  }

  lemma KeptLinksPoint(accounts: map<Id, Account>, operations: map<Id, Operation>, limit: nat, a: Id, id: Id)
    requires a in KeptAccounts(accounts, operations, limit)
    requires id in KeptAccounts(accounts, operations, limit)[a].operationIds
    ensures id in operations && id in accounts[a].operationIds
  {
    KeptLinkIsKnown(accounts[a], operations, limit);
  }

  lemma KeptExactly(l: Ledger, blocks: seq<Block>)
    ensures forall id :: id in KeptOperations(l, blocks) <==>
              id in l.operations && (l.operations[id].finality.status == Pending || id in l.core.pending
                                     || exists i :: 0 <= i < |blocks| && id in blocks[i].operationIds)
    ensures forall id :: id in KeptOperations(l, blocks) ==> KeptOperations(l, blocks)[id] == l.operations[id]
  {
  }

  lemma PrunedParts(l: Ledger, blockLimit: nat, linkLimit: nat)
    ensures var after := PrunedLedger(l, blockLimit, linkLimit);
            && after.operations == KeptOperations(l, after.blocks)
            && after.collections.accounts == KeptAccounts(l.collections.accounts, after.operations, linkLimit)
  {
  }

  /** If account `a` has a link to `id` after pruning, it had it before, and the operation is still there. */
  predicate LinkPoints(l: Ledger, after: Ledger, a: Id, id: Id) {
    a in after.collections.accounts && id in after.collections.accounts[a].operationIds ==>
      id in after.operations && a in l.collections.accounts && id in l.collections.accounts[a].operationIds
  }

  lemma PrunedLinkPoints(l: Ledger, after: Ledger, linkLimit: nat, a: Id, id: Id)
    requires after.collections.accounts == KeptAccounts(l.collections.accounts, after.operations, linkLimit)
    ensures LinkPoints(l, after, a, id)
  {
    if a in after.collections.accounts && id in after.collections.accounts[a].operationIds {
      KeptLinksPoint(l.collections.accounts, after.operations, linkLimit, a, id);
    }
  }

  /** Exactly the operations that are pending or referenced by a retained block
      stay, unchanged, and no account link is left pointing at a dropped one. */
  lemma PruningKeepsWhatIsNeeded(l: Ledger, blockLimit: nat, linkLimit: nat, after: Ledger)
    requires after == PrunedLedger(l, blockLimit, linkLimit)
    ensures forall id :: id in after.operations <==>
              id in l.operations && (l.operations[id].finality.status == Pending || id in l.core.pending
                                     || exists i :: 0 <= i < |after.blocks| && id in after.blocks[i].operationIds)
    ensures forall id :: id in after.operations ==> after.operations[id] == l.operations[id]
    ensures forall a, id :: LinkPoints(l, after, a, id)
  {
    PrunedParts(l, blockLimit, linkLimit);
    KeptExactly(l, after.blocks);
    forall a, id
      ensures LinkPoints(l, after, a, id)
    {
      PrunedLinkPoints(l, after, linkLimit, a, id);
    }
  }

  lemma {:induction false} KnownLinksAscend(ranks: map<Id, int>, ids: seq<Id>, operations: map<Id, Operation>)
    requires Ascending(ranks, ids)
    ensures Ascending(ranks, KnownLinks(ids, operations))
  {
    if ids != [] {
      var n := |ids| - 1;
      KnownLinksAscend(ranks, ids[..n], operations);
      KnownLinksKept(ids[..n], operations);
      if ids[n] in operations {
        forall x | x in Elements(KnownLinks(ids[..n], operations))
          ensures Less(ranks, x, ids[n])
        {
          assert x in ids[..n];
        }
        AscendAppend(ranks, KnownLinks(ids[..n], operations), ids[n]);
      }
    }
  }

  /** Links left after pruning are as ordered as before, also by the ranks that are left. */
  lemma KeptLinksAscend(before: map<Id, Operation>, after: map<Id, Operation>, account: Account, limit: nat)
    requires PartOf(after, before) && Ascending(Ranks(before), account.operationIds)
    ensures Ascending(Ranks(after), KeptLinks(account, after, limit).operationIds)
  {
    var known := KnownLinks(account.operationIds, after);
    KnownLinksAscend(Ranks(before), account.operationIds, after);
    KnownLinksKept(account.operationIds, after);
    forall i, j | 0 <= i < j < |known|
      ensures Less(Ranks(after), known[i], known[j])
    {
      assert known[i] in after && known[j] in after;
      assert Less(Ranks(before), known[i], known[j]);
    }
    SlicesAscend(Ranks(after), known, Excess(|known|, limit));
  }

  // ---- Pruning what is stored ----

  lemma HeldAreKeyed(rows: OperationRows, all: map<Id, Operation>)
    requires HoldsOperations(rows, all)
    ensures Keyed(all)
  {
  }

  lemma PrunedIsSound(l: Ledger, view: Ledger, blockLimit: nat, linkLimit: nat)
    requires Derivable(l) && PendingKnown(l) && Keyed(l.operations)
    requires SameState(view, l) && SameCheckpoint(view, l) && view.operations == l.operations
    ensures Sound(PrunedLedger(view, blockLimit, linkLimit))
  {
  }

  lemma PrunedMayFollow(l: Ledger, view: Ledger, rows: OperationRows, blockLimit: nat, linkLimit: nat)
    requires HoldsOperations(rows, l.operations) && Contiguous(l.pruned.through, l.blocks)
    requires view.pruned == l.pruned && view.blocks == l.blocks && view.operations == l.operations
    ensures MayBecome(l, PrunedLedger(view, blockLimit, linkLimit))
  {
    var after := PrunedLedger(view, blockLimit, linkLimit);
    PruningReadsAlike(view, blockLimit, linkLimit);
    forall i | 0 <= i < |after.blocks|
      ensures after.blocks[i] in l.blocks
    {
      assert after.blocks[i] == l.blocks[Excess(|l.blocks|, blockLimit) + i];
    }
    forall id | id in after.operations
      ensures Attested(after.operations[id]) && after.operations[id] == l.operations[id]
    {
      HeldIsAttested(rows, l.operations, id);
    }
  }

  lemma PrunedPersists(db: Database, l: Ledger, view: Ledger, blockLimit: nat, linkLimit: nat)
    requires Describes(db, l) && FullView(db) == Some(view) && view.pruned == l.pruned && view.blocks == l.blocks
    requires view.operations == l.operations
    ensures FullTransaction(db, PrunedLedger(view, blockLimit, linkLimit)).Some?
  {
    PrunedMayFollow(l, view, db.operations, blockLimit, linkLimit);
    FullSucceeds(db, l, PrunedLedger(view, blockLimit, linkLimit));
  }

  lemma EssenceKept(view: Ledger, l: Ledger, blockLimit: nat, linkLimit: nat)
    requires Derivable(l) && SameState(view, l)
    ensures var after := PrunedLedger(view, blockLimit, linkLimit);
            DerivedAliases(after.collections.networks).Some?
              && UnlinkedCollections(after.collections) == Essence(after.collections)
  {
  }

  lemma SameAccountsByLinks(c: Collections, d: Collections)
    requires UnlinkedCollections(c) == UnlinkedCollections(d)
    requires forall a :: a in c.accounts && a in d.accounts ==> c.accounts[a].operationIds == d.accounts[a].operationIds
    ensures c == d
  {
    assert Unlinked(c.accounts).Keys == c.accounts.Keys && Unlinked(d.accounts).Keys == d.accounts.Keys;
    forall a | a in c.accounts
      ensures c.accounts[a] == d.accounts[a]
    {
      assert Unlinked(c.accounts)[a] == Unlinked(d.accounts)[a];
    }
    assert c.accounts == d.accounts;
  }

  lemma PrunedLinksReload(db: Database, l: Ledger, view: Ledger, blockLimit: nat, linkLimit: nat, a: Id)
    requires Describes(db, l) && SameState(view, l) && view.operations == l.operations
    requires forall b :: b in view.collections.accounts ==>
                           view.collections.accounts[b].operationIds
                             == Sorted(Ranks(l.operations), LinksOf(db.links, b))
    requires FullTransaction(db, PrunedLedger(view, blockLimit, linkLimit)).Some? && a in view.collections.accounts
    ensures var after := PrunedLedger(view, blockLimit, linkLimit);
            Sorted(Ranks(after.operations), LinksOf(FullTransaction(db, after).value.links, a))
              == after.collections.accounts[a].operationIds
  {
    var after := PrunedLedger(view, blockLimit, linkLimit);
    SameAccounts(view, l);
    KeptLinksAscend(view.operations, after.operations, view.collections.accounts[a], linkLimit);
    FullLinks(db, l, after, a);
  }

  /** Pruning a stored ledger always persists, and reloads to the pruned ledger
      itself, its checkpoint's account links aside. */
  lemma PrunedReloads(db: Database, l: Ledger, blockLimit: nat, linkLimit: nat)
      returns (after: Ledger, reloaded: Ledger)
    requires Describes(db, l)
    ensures FullView(db).Some? && after == PrunedLedger(FullView(db).value, blockLimit, linkLimit)
    ensures FullTransaction(db, after).Some? && FullView(FullTransaction(db, after).value) == Some(reloaded)
    ensures reloaded == after.(checkpoint := reloaded.checkpoint)
    ensures Read(reloaded) == Read(FullView(db).value)
  {
    var view := FullViewShows(db, l);
    after := PrunedLedger(view, blockLimit, linkLimit);
    HeldAreKeyed(db.operations, l.operations);
    PrunedIsSound(l, view, blockLimit, linkLimit);
    PrunedPersists(db, l, view, blockLimit, linkLimit);
    reloaded := FullReloads(db, l, after);
    EssenceKept(view, l, blockLimit, linkLimit);
    forall a | a in reloaded.collections.accounts && a in after.collections.accounts
      ensures reloaded.collections.accounts[a].operationIds == after.collections.accounts[a].operationIds
    {
      PrunedLinksReload(db, l, view, blockLimit, linkLimit, a);
    }
    SameAccountsByLinks(reloaded.collections, after.collections);
    PruningReadsAlike(view, blockLimit, linkLimit);
    SameButCheckpoint(reloaded, after);
  }

  lemma SameButCheckpoint(reloaded: Ledger, after: Ledger)
    requires reloaded == after.(checkpoint := reloaded.checkpoint)
    ensures Read(reloaded) == Read(after)
  {
  }
}
