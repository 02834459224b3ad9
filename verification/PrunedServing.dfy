/** Pruning and catch-up together. */
module PrunedServing {
  import opened MachineInts
  import opened LedgerModel
  import opened CatchUp
  import Transactions
  import Prune

  function SourceOf(db: Transactions.Database, checkpoint: Option<Ledger>): Source {
    Source(db.record.pruned.through, db.blocks, db.operations, checkpoint)
  }

  /** A node that pruned its history still serves all of what it retained. */
  lemma PrunedStillServes(db: Transactions.Database, l: Ledger, blockLimit: nat, linkLimit: nat,
                          checkpoint: Option<Ledger>) returns (after: Ledger)
    requires Transactions.Describes(db, l) && Mentioned(l.blocks) <= l.operations.Keys
    ensures Transactions.FullView(db).Some?
    ensures after == Prune.PrunedLedger(Transactions.FullView(db).value, blockLimit, linkLimit)
    ensures Transactions.FullTransaction(db, after).Some?
    ensures Serves(SourceOf(Transactions.FullTransaction(db, after).value, checkpoint), after.blocks, after.operations)
  {
    var view := Transactions.FullViewShows(db, l);
    var reloaded;
    after, reloaded := Prune.PrunedReloads(db, l, blockLimit, linkLimit);
    HeldAndSound(db, l, view, blockLimit, linkLimit);
    Transactions.FullTransactionStores(db, l, after);
    MentionedPart(l.blocks, Prune.Excess(|l.blocks|, blockLimit), |l.blocks|);
    StillKept(view, after, blockLimit, linkLimit);
  }

  lemma HeldAndSound(db: Transactions.Database, l: Ledger, view: Ledger, blockLimit: nat, linkLimit: nat)
    requires Transactions.Describes(db, l) && view.operations == l.operations
    requires Transactions.SameState(view, l) && Transactions.SameCheckpoint(view, l)
    ensures Transactions.Sound(Prune.PrunedLedger(view, blockLimit, linkLimit))
  {
    Prune.HeldAreKeyed(db.operations, l.operations);
    Prune.PrunedIsSound(l, view, blockLimit, linkLimit);
  }

  lemma StillKept(l: Ledger, after: Ledger, blockLimit: nat, linkLimit: nat)
    requires after == Prune.PrunedLedger(l, blockLimit, linkLimit) && Mentioned(after.blocks) <= l.operations.Keys
    ensures Mentioned(after.blocks) <= after.operations.Keys
  {
  }
}
