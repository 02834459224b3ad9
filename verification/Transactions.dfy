/** Ledger transactions over one database: the whole ledger, or the bounded
    active view in which the persisted chain appears as a pruned prefix and only
    pending operations are loaded. A transaction that fails leaves the database
    as it was. The change a caller makes is given by the ledger it leaves. */
module Transactions {
  import opened MachineInts
  import opened LedgerModel
  import opened Ordering
  import opened StateTables
  import opened StateStore
  import opened BlockStore
  import opened OperationStore

  datatype Database = Database(record: Ledger, state: StateRows, blocks: map<nat, StoredBlock>,
                               operations: OperationRows, links: set<Link>)

  // ---- Views ----

  function WithAccounts(l: Ledger, accounts: map<Id, Account>): Ledger {
    l.(collections := l.collections.(accounts := accounts))
  }

  ghost function FullView(db: Database): Option<Ledger> {
    var l := HydrateState(db.state, db.record);
    var operations := LoadedOperations(db.operations);
    if l.None? || operations.None? then None
    else
      Some(WithAccounts(l.value, Linked(l.value.collections.accounts, db.links, operations.value))
             .(blocks := LoadedBlocks(db.blocks), operations := operations.value))
  }

  /** The chain prefix as the active view shows it. */
  ghost function ActivePrefix(db: Database): Pruned {
    match TipBlock(db.blocks)
    case Some(tip) => Pruned(tip.height, Some(tip.hash), Some(tip.timestamp))
    case None => db.record.pruned
  }

  ghost function ActiveView(db: Database): Option<Ledger> {
    var l := HydrateState(db.state, db.record);
    var pending := LoadedPending(db.operations, db.record.core.pending);
    if l.None? || pending.None? then None
    else
      Some(WithAccounts(l.value, Unlinked(l.value.collections.accounts))
             .(pruned := ActivePrefix(db), blocks := [], operations := pending.value))
  }

  // ---- Transactions ----

  function PersistHistories(db: Database, before: Ledger, after: Ledger): Option<Database> {
    if !Contiguous(after.pruned.through, after.blocks) then None
    else
      var blocks := PersistedBlocks(db.blocks, before.blocks, after.blocks);
      var operations := PersistedOperations(db.operations, before.operations, after.operations);
      if blocks.None? || operations.None? then None
      else Some(Database(db.record, PersistState(db.state, before, after), blocks.value, operations.value,
                         PersistedLinks(db.links, before.collections.accounts, after.collections.accounts)))
  }

  ghost function FullTransaction(db: Database, after: Ledger): Option<Database> {
    match FullView(db)
    case None => None
    case Some(before) =>
      match PersistHistories(db, before, after)
      case None => None
      case Some(written) => Some(written.(record := Stripped(after)))
  }

  ghost function ActiveTransaction(db: Database, after: Ledger): Option<Database> {
    match ActiveView(db)
    case None => None
    case Some(before) =>
      match PersistHistories(db, before, after)
      case None => None
      case Some(written) => Some(written.(record := Stripped(after).(pruned := db.record.pruned)))
  }

  // ---- What a database describes ----

  predicate PendingKnown(l: Ledger) {
    forall id :: id in l.core.pending ==> id in l.operations
  }

  /** What the service sees to before a transaction ends: sound aliases, records
      under their own ids, and a record for every pending operation. */
  ghost predicate Sound(l: Ledger) {
    Derivable(l) && Keyed(l.operations) && PendingKnown(l)
  }

  /** The database holds this ledger, account links aside. */
  ghost predicate Describes(db: Database, l: Ledger) {
    && db.record == Stripped(l) && Stored(db.state, l)
    && HoldsBlocks(db.blocks, l.pruned.through, l.blocks)
    && HoldsOperations(db.operations, l.operations)
    && Derivable(l) && PendingKnown(l)
  }

  /** Equal but for blocks, operations and account links. */
  ghost predicate SameState(view: Ledger, l: Ledger)
    requires Derivable(l)
  {
    && view.core == l.core && view.prunedOperations == l.prunedOperations && view.historyFrom == l.historyFrom
    && UnlinkedCollections(view.collections) == Essence(l.collections)
  }

  /** The same finalized checkpoint, without blocks, operations and account links. */
  ghost predicate SameCheckpoint(view: Ledger, l: Ledger)
    requires Derivable(l)
  {
    && (view.checkpoint.Some? <==> l.checkpoint.Some?)
    && (view.checkpoint.Some? ==>
          && view.checkpoint.value == Stripped(l.checkpoint.value).(collections := view.checkpoint.value.collections)
          && UnlinkedCollections(view.checkpoint.value.collections) == Essence(l.checkpoint.value.collections))
  }

  lemma HydratedRows(db: StateRows, l: Ledger, record: Ledger)
    requires Stored(db, l) && HydrateState(db, record).Some?
    ensures SameRows(db.current, AsRows(HydrateState(db, record).value.collections))
  {
    RowsReadBack(db.current, l.collections);
  }

  lemma HydratedState(db: Database, l: Ledger) returns (read: Ledger)
    requires Describes(db, l)
    ensures HydrateState(db.state, db.record) == Some(read)
    ensures SameState(read, l) && SameCheckpoint(read, l) && read.pruned == l.pruned
    ensures SameRows(db.state.current, AsRows(read.collections))
  {
    StoredReloads(db.state, l, db.record);
    HydratedRows(db.state, l, db.record);
    read := HydrateState(db.state, db.record).value;
  }

  lemma RelinkedUnlinks(accounts: map<Id, Account>, others: map<Id, Account>)
    requires Unlinked(accounts) == Unlinked(others)
    ensures SameBy(BodyOf, accounts, others)
  {
    assert Unlinked(accounts).Keys == accounts.Keys && Unlinked(others).Keys == others.Keys;
    forall a | a in accounts
      ensures BodyOf(accounts[a]) == BodyOf(others[a])
    {
      assert Unlinked(accounts)[a] == Unlinked(others)[a];
    }
  }

  /** Changing account links changes nothing the rows are compared by. */
  lemma RelinkingKeeps(rows: Rows, l: Ledger, accounts: map<Id, Account>)
    requires SameRows(rows, AsRows(l.collections)) && Unlinked(accounts) == Unlinked(l.collections.accounts)
    ensures SameRows(rows, AsRows(WithAccounts(l, accounts).collections))
    ensures UnlinkedCollections(WithAccounts(l, accounts).collections) == UnlinkedCollections(l.collections)
  {
    RelinkedUnlinks(accounts, l.collections.accounts);
  }

  lemma LinkedUnlinks(accounts: map<Id, Account>, links: set<Link>, operations: map<Id, Operation>)
    ensures Unlinked(Linked(accounts, links, operations)) == Unlinked(accounts)
    ensures Unlinked(Unlinked(accounts)) == Unlinked(accounts)
  {
  }

  /** The full view is the described ledger. */
  lemma FullViewShows(db: Database, l: Ledger) returns (view: Ledger)
    requires Describes(db, l)
    ensures FullView(db) == Some(view)
    ensures SameState(view, l) && SameCheckpoint(view, l) && view.pruned == l.pruned && view.blocks == l.blocks
    ensures view.operations == l.operations
    ensures SameRows(db.state.current, AsRows(view.collections))
    ensures forall a :: a in view.collections.accounts ==>
                          view.collections.accounts[a].operationIds == Sorted(Ranks(l.operations), LinksOf(db.links, a))
  {
    var read := HydratedState(db, l);
    OperationsLoadBack(db.operations, l.operations);
    BlocksLoadBack(db.blocks, l.pruned.through, l.blocks);
    var accounts := Linked(read.collections.accounts, db.links, l.operations);
    LinkedUnlinks(read.collections.accounts, db.links, l.operations);
    RelinkingKeeps(db.state.current, read, accounts);
    view := WithAccounts(read, accounts).(blocks := l.blocks, operations := l.operations);
  }

  /** The active view is the described ledger with its chain folded into the prefix. */
  lemma ActiveViewShows(db: Database, l: Ledger) returns (view: Ledger)
    requires Describes(db, l)
    ensures ActiveView(db) == Some(view)
    ensures SameState(view, l) && SameCheckpoint(view, l) && view.pruned == Pruned(Height(l), TipHash(l), TipTime(l))
    ensures view.blocks == []
    ensures view.operations == Restricted(l.operations, l.core.pending)
    ensures SameRows(db.state.current, AsRows(view.collections))
    ensures forall a :: a in view.collections.accounts ==> view.collections.accounts[a].operationIds == []
  {
    var read := HydratedState(db, l);
    PendingLoadBack(db.operations, l.operations, l.core.pending);
    TipIsLast(db.blocks, l.pruned.through, l.blocks);
    var accounts := Unlinked(read.collections.accounts);
    LinkedUnlinks(read.collections.accounts, db.links, l.operations);
    RelinkingKeeps(db.state.current, read, accounts);
    view := WithAccounts(read, accounts).(pruned := ActivePrefix(db), blocks := [],
                                          operations := Restricted(l.operations, l.core.pending));
  }

  lemma SameReadings(full: Ledger, active: Ledger, l: Ledger)
    requires Derivable(l) && SameState(full, l) && SameState(active, l)
    requires full.pruned == l.pruned && full.blocks == l.blocks
    requires active.pruned == Pruned(Height(l), TipHash(l), TipTime(l)) && active.blocks == []
    ensures Read(full) == Read(active)
  {
  }

  /** Both views of a database load, and consensus reads the same in both. */
  lemma ViewsAgree(db: Database, l: Ledger)
    requires Describes(db, l)
    ensures FullView(db).Some? && ActiveView(db).Some?
    ensures Read(FullView(db).value) == Read(ActiveView(db).value)
    ensures ActiveView(db).value.operations
            == Restricted(FullView(db).value.operations, FullView(db).value.core.pending)
  {
    var full := FullViewShows(db, l);
    var active := ActiveViewShows(db, l);
    SameReadings(full, active, l);
  }

  // ---- Whole-ledger transactions ----

  lemma MergedWhole(all: map<Id, Operation>, after: map<Id, Operation>)
    ensures Merged(all, all, after) == after
  {
  }

  /** After a whole-ledger transaction the database describes the ledger it left. */
  lemma FullTransactionStores(db: Database, l: Ledger, after: Ledger)
    requires Describes(db, l) && Sound(after) && FullTransaction(db, after).Some?
    ensures Describes(FullTransaction(db, after).value, after)
  {
    var before := FullViewShows(db, l);
    PersistStores(db.state, before, after);
    WholeHistoryStored(db.blocks, l.pruned.through, l.blocks, after.pruned.through, after.blocks);
    OperationsMerged(db.operations, l.operations, l.operations, after.operations);
    MergedWhole(l.operations, after.operations);
  }

  // ---- Active transactions ----

  /** The ledger an active transaction amounts to: its state, on the old chain with its blocks appended. */
  function Continued(l: Ledger, after: Ledger): Ledger {
    after.(pruned := l.pruned, blocks := l.blocks + after.blocks,
           operations := Merged(l.operations, Restricted(l.operations, l.core.pending), after.operations))
  }

  lemma ContinuedIsSound(l: Ledger, after: Ledger)
    requires Sound(after)
    ensures Derivable(Continued(l, after)) && PendingKnown(Continued(l, after))
    ensures Stripped(Continued(l, after)) == Stripped(after).(pruned := l.pruned)
  {
  }

  /** Only collections and checkpoint matter to the state rows. */
  lemma StoredElsewhere(rows: StateRows, after: Ledger, other: Ledger)
    requires Stored(rows, after) && other.collections == after.collections && other.checkpoint == after.checkpoint
    ensures Stored(rows, other)
  {
  }

  /** An active transaction, part by part. */
  lemma ActiveParts(db: Database, before: Ledger, after: Ledger) returns (written: Database)
    requires ActiveView(db) == Some(before) && ActiveTransaction(db, after).Some?
    ensures ActiveTransaction(db, after) == Some(written) && Contiguous(after.pruned.through, after.blocks)
    ensures written.record == Stripped(after).(pruned := db.record.pruned)
    ensures written.state == PersistState(db.state, before, after)
    ensures PersistedBlocks(db.blocks, before.blocks, after.blocks) == Some(written.blocks)
    ensures PersistedOperations(db.operations, before.operations, after.operations) == Some(written.operations)
    ensures written.links == PersistedLinks(db.links, before.collections.accounts, after.collections.accounts)
  {
    written := ActiveTransaction(db, after).value;
  }

  lemma ActiveTransactionStores(db: Database, l: Ledger, after: Ledger)
    requires Describes(db, l) && Sound(after) && after.pruned == ActivePrefix(db) && ActiveTransaction(db, after).Some?
    ensures Describes(ActiveTransaction(db, after).value, Continued(l, after))
  {
    var before := ActiveViewShows(db, l);
    var written := ActiveParts(db, before, after);
    ActivePrefixIs(db, l);
    PersistStores(db.state, before, after);
    StoredElsewhere(written.state, after, Continued(l, after));
    AppendedStored(db.blocks, l.pruned.through, l.blocks, after.blocks);
    OperationsMerged(db.operations, l.operations, before.operations, after.operations);
    ContinuedIsSound(l, after);
  }

  lemma ActivePrefixIs(db: Database, l: Ledger)
    requires Describes(db, l)
    ensures ActivePrefix(db) == Pruned(Height(l), TipHash(l), TipTime(l))
  {
    TipIsLast(db.blocks, l.pruned.through, l.blocks);
  }

  // ---- Runs ----

  datatype Step = Whole(left: Ledger) | Active(left: Ledger)

  /** The caller left a sound ledger; an active caller left the prefix alone. */
  ghost predicate Legal(db: Database, step: Step) {
    Sound(step.left) && (step.Active? ==> step.left.pruned == ActivePrefix(db))
  }

  ghost function Outcome(db: Database, step: Step): Option<Database> {
    match step
    case Whole(left) => FullTransaction(db, left)
    case Active(left) => ActiveTransaction(db, left)
  }

  ghost function After(db: Database, step: Step): Database {
    match Outcome(db, step)
    case Some(written) => written
    case None => db
  }

  ghost function Run(db: Database, steps: seq<Step>): Database {
    if steps == [] then db else After(Run(db, steps[..|steps| - 1]), steps[|steps| - 1])
  }

  ghost predicate AllLegal(db: Database, steps: seq<Step>) {
    steps == [] || (AllLegal(db, steps[..|steps| - 1]) && Legal(Run(db, steps[..|steps| - 1]), steps[|steps| - 1]))
  }

  lemma StepDescribes(db: Database, l: Ledger, step: Step) returns (next: Ledger)
    requires Describes(db, l) && Legal(db, step)
    ensures Describes(After(db, step), next)
    ensures next == if Outcome(db, step).None? then l else if step.Whole? then step.left else Continued(l, step.left)
  {
    next := l;
    if Outcome(db, step).Some? {
      match step {
        case Whole(left) =>
          FullTransactionStores(db, l, left);
          next := left;
        case Active(left) =>
          ActiveTransactionStores(db, l, left);
          next := Continued(l, left);
      }
    }
  }

  lemma {:induction false} RunDescribes(db: Database, l: Ledger, steps: seq<Step>) returns (end: Ledger)
    requires Describes(db, l) && AllLegal(db, steps)
    ensures Describes(Run(db, steps), end)
  {
    if steps == [] {
      end := l;
    } else {
      var last := RunDescribes(db, l, steps[..|steps| - 1]);
      end := StepDescribes(Run(db, steps[..|steps| - 1]), last, steps[|steps| - 1]);
    }
  }

  ghost function Fresh(record: Ledger): Database {
    Database(Stripped(record), StateRows(EMPTY_ROWS, None, NO_OVERLAYS), map[], OperationRows(map[], map[]), {})
  }

  lemma FreshDescribes(record: Ledger)
    requires record.core.pending == []
    ensures Describes(Fresh(record), Stripped(record))
  {
  }

  /** In every database reached by any mix of transactions, failed ones
      included, both views load and consensus reads the same in both. */
  lemma ViewsAlwaysAgree(record: Ledger, steps: seq<Step>)
    requires record.core.pending == [] && AllLegal(Fresh(record), steps)
    ensures var db := Run(Fresh(record), steps);
            FullView(db).Some? && ActiveView(db).Some? && Read(FullView(db).value) == Read(ActiveView(db).value)
  {
    FreshDescribes(record);
    var end := RunDescribes(Fresh(record), Stripped(record), steps);
    ViewsAgree(Run(Fresh(record), steps), end);
  }

  lemma Unlinking(accounts: map<Id, Account>, links: set<Link>, after: map<Id, Account>)
    requires forall a :: a in accounts ==> accounts[a].operationIds == []
    ensures PersistedLinks(links, accounts, after) == links + Links(after)
  {
  }

  /** Account links only grow in an active transaction. */
  lemma ActiveLinksGrow(db: Database, l: Ledger, after: Ledger)
    requires Describes(db, l) && ActiveTransaction(db, after).Some?
    ensures ActiveTransaction(db, after).value.links == db.links + Links(after.collections.accounts)
  {
    var before := ActiveViewShows(db, l);
    var written := ActiveParts(db, before, after);
    Unlinking(before.collections.accounts, db.links, after.collections.accounts);
  }

  /** What an active transaction looks like when the whole ledger is next loaded. */
  lemma ActiveReloads(db: Database, l: Ledger, after: Ledger) returns (old_: Ledger, new_: Ledger)
    requires Describes(db, l) && Sound(after) && after.pruned == ActivePrefix(db) && ActiveTransaction(db, after).Some?
    ensures FullView(db) == Some(old_) && FullView(ActiveTransaction(db, after).value) == Some(new_)
    ensures new_.blocks == old_.blocks + after.blocks && new_.pruned == old_.pruned
    ensures new_.core == after.core && UnlinkedCollections(new_.collections) == Essence(after.collections)
    ensures new_.operations == Merged(old_.operations, Restricted(old_.operations, old_.core.pending), after.operations)
  {
    old_ := FullViewShows(db, l);
    ActiveTransactionStores(db, l, after);
    new_ := FullViewShows(ActiveTransaction(db, after).value, Continued(l, after));
  }

  /** A whole-ledger transaction reloads as the ledger it left; an account's
      links come back as a set, and in order if they were left in order. */
  lemma FullReloads(db: Database, l: Ledger, after: Ledger) returns (view: Ledger)
    requires Describes(db, l) && Sound(after) && FullTransaction(db, after).Some?
    ensures FullView(FullTransaction(db, after).value) == Some(view)
    ensures SameState(view, after) && SameCheckpoint(view, after) && view.pruned == after.pruned
    ensures view.blocks == after.blocks && view.operations == after.operations
    ensures forall a :: a in view.collections.accounts ==>
                          view.collections.accounts[a].operationIds
                          == Sorted(Ranks(after.operations), LinksOf(FullTransaction(db, after).value.links, a))
  {
    FullTransactionStores(db, l, after);
    view := FullViewShows(FullTransaction(db, after).value, after);
  }

  lemma PersistSucceeds(db: Database, before: Ledger, after: Ledger)
    ensures PersistHistories(db, before, after).Some?
            <==> Contiguous(after.pruned.through, after.blocks)
                 && PersistedBlocks(db.blocks, before.blocks, after.blocks).Some?
                 && PersistedOperations(db.operations, before.operations, after.operations).Some?
  {
  }

  lemma FullTests(db: Database, before: Ledger, after: Ledger)
    requires FullView(db) == Some(before)
    ensures FullTransaction(db, after).Some?
            <==> Contiguous(after.pruned.through, after.blocks)
                 && PersistedBlocks(db.blocks, before.blocks, after.blocks).Some?
                 && PersistedOperations(db.operations, before.operations, after.operations).Some?
  {
    PersistSucceeds(db, before, after);
    assert FullTransaction(db, after).Some? <==> PersistHistories(db, before, after).Some?;
  }

  /** What a whole-ledger transaction may do to the histories: drop blocks from either end, keep blocks as they are and
      append new ones with fitting votes, numbered without a gap; drop, keep and add operations, changing at most the
      finality of those it keeps. */
  ghost predicate MayBecome(l: Ledger, after: Ledger) {
    && Contiguous(after.pruned.through, after.blocks)
    && (forall i :: 0 <= i < |after.blocks| ==> MayFollow(l.pruned.through, l.blocks, after.blocks[i]))
    && (forall id :: id in after.operations ==> StillAttested(l.operations, id, after.operations[id]))
  }

  /** A whole-ledger transaction succeeds exactly when the histories it leaves may follow those it found. */
  lemma FullSucceeds(db: Database, l: Ledger, after: Ledger)
    requires Describes(db, l)
    ensures FullTransaction(db, after).Some? <==> MayBecome(l, after)
  {
    var before := FullViewShows(db, l);
    FullTests(db, before, after);
    OperationsReplace(db.operations, l.operations, l.operations, after.operations);
    if Contiguous(after.pruned.through, after.blocks) {
      BlocksReplace(db.blocks, l.pruned.through, l.blocks, after.pruned.through, after.blocks);
    }
  }

  lemma ActiveTests(db: Database, before: Ledger, after: Ledger)
    requires ActiveView(db) == Some(before)
    ensures ActiveTransaction(db, after).Some?
            <==> Contiguous(after.pruned.through, after.blocks)
                 && PersistedBlocks(db.blocks, before.blocks, after.blocks).Some?
                 && PersistedOperations(db.operations, before.operations, after.operations).Some?
  {
    PersistSucceeds(db, before, after);
    assert ActiveTransaction(db, after).Some? <==> PersistHistories(db, before, after).Some?;
  }

  /** What an active transaction may do: append blocks with fitting votes, numbered on from the tip; drop, keep and add
      operations, where one that is known already must be pending. */
  ghost predicate MayContinue(l: Ledger, after: Ledger) {
    && Contiguous(Height(l), after.blocks) && (forall i :: 0 <= i < |after.blocks| ==> VotesFit(after.blocks[i]))
    && (forall id :: id in after.operations ==>
          StillAttested(l.operations, id, after.operations[id]) && (id in l.operations ==> id in l.core.pending))
  }

  lemma ActiveHistories(db: Database, l: Ledger, after: Ledger)
    requires HoldsBlocks(db.blocks, l.pruned.through, l.blocks) && HoldsOperations(db.operations, l.operations)
    ensures Contiguous(Height(l), after.blocks) && PersistedBlocks(db.blocks, [], after.blocks).Some?
            && PersistedOperations(db.operations, Restricted(l.operations, l.core.pending), after.operations).Some?
            <==> MayContinue(l, after)
  {
    PendingReplace(db.operations, l.operations, l.core.pending, after.operations);
    if Contiguous(Height(l), after.blocks) {
      BlocksAppend(db.blocks, l.pruned.through, l.blocks, after.blocks);
    }
  }

  lemma ActiveSucceeds(db: Database, l: Ledger, after: Ledger)
    requires Describes(db, l) && after.pruned == ActivePrefix(db)
    ensures ActiveTransaction(db, after).Some? <==> MayContinue(l, after)
  {
    var before := ActiveViewShows(db, l);
    ActiveTests(db, before, after);
    ActivePrefixIs(db, l);
    ActiveHistories(db, l, after);
  }

  lemma FullWrites(db: Database, before: Ledger, after: Ledger)
    requires FullView(db) == Some(before) && FullTransaction(db, after).Some?
    ensures FullTransaction(db, after).value.links
            == PersistedLinks(db.links, before.collections.accounts, after.collections.accounts)
  {
  }

  lemma SameAccounts(view: Ledger, l: Ledger)
    requires Derivable(l) && SameState(view, l)
    ensures view.collections.accounts.Keys == l.collections.accounts.Keys
  {
    assert Unlinked(view.collections.accounts) == Unlinked(l.collections.accounts);
    assert Unlinked(view.collections.accounts).Keys == view.collections.accounts.Keys;
    assert Unlinked(l.collections.accounts).Keys == l.collections.accounts.Keys;
  }

  lemma FullLinksAre(db: Database, l: Ledger, after: Ledger, a: Id)
    requires Describes(db, l) && FullTransaction(db, after).Some? && a in after.collections.accounts
    ensures var ids := Elements(after.collections.accounts[a].operationIds);
            LinksOf(FullTransaction(db, after).value.links, a)
            == if a in l.collections.accounts then ids else LinksOf(db.links, a) + ids
  {
    var before := FullViewShows(db, l);
    SameAccounts(before, l);
    FullWrites(db, before, after);
    ShownLinks(before.collections.accounts, db.links, Ranks(l.operations), a);
    LinksWritten(db.links, before.collections.accounts, after.collections.accounts, a);
  }

  /** The links an account was left with are the links stored for it if and only if the account was there before, or
      what is still stored for it is among them. Left in order, they come back in order. */
  lemma FullLinks(db: Database, l: Ledger, after: Ledger, a: Id)
    requires Describes(db, l) && FullTransaction(db, after).Some? && a in after.collections.accounts
    ensures var ids := after.collections.accounts[a].operationIds;
            && (LinksOf(FullTransaction(db, after).value.links, a) == Elements(ids)
                <==> a in l.collections.accounts || LinksOf(db.links, a) <= Elements(ids))
            && (Ascending(Ranks(after.operations), ids) ==> Sorted(Ranks(after.operations), Elements(ids)) == ids)
  {
    FullLinksAre(db, l, after, a);
    if Ascending(Ranks(after.operations), after.collections.accounts[a].operationIds) {
      SortedIsUnique(Ranks(after.operations), after.collections.accounts[a].operationIds);
    }
  }

  /** A ledger with no history and these accounts. */
  function Holding(accounts: map<Id, Account>): Ledger {
    Ledger(Core(0, 0, 0, []), Pruned(0, None, None), 0, 0, EMPTY_COLLECTIONS.(accounts := accounts), [], map[], None)
  }

  lemma HoldingIsSound(accounts: map<Id, Account>)
    ensures Sound(Holding(accounts)) && MayBecome(Holding(accounts), Holding(map[]))
    ensures MayBecome(Holding(map[]), Holding(accounts))
  {
  }

  lemma ContinuedHolding(accounts: map<Id, Account>)
    ensures Continued(Holding(accounts), Holding(map[])) == Holding(map[])
    ensures MayContinue(Holding(accounts), Holding(map[]))
  {
  }

  /** An active transaction over no history always succeeds, and leaves every stored link in place. */
  lemma ActiveForgets(db: Database, accounts: map<Id, Account>) returns (next: Database)
    requires Describes(db, Holding(accounts))
    ensures Legal(db, Active(Holding(map[]))) && ActiveTransaction(db, Holding(map[])) == Some(next)
    ensures Describes(next, Holding(map[])) && next.links == db.links
  {
    HoldingIsSound(map[]);
    ContinuedHolding(accounts);
    ActivePrefixIs(db, Holding(accounts));
    ActiveSucceeds(db, Holding(accounts), Holding(map[]));
    next := ActiveTransaction(db, Holding(map[])).value;
    ActiveTransactionStores(db, Holding(accounts), Holding(map[]));
    ActiveLinksGrow(db, Holding(accounts), Holding(map[]));
  }

  lemma HoldingStored(db: Database, l: Ledger, accounts: map<Id, Account>, a: Id) returns (next: Database)
    requires Describes(db, l) && MayBecome(l, Holding(accounts)) && a in accounts && a !in l.collections.accounts
    ensures Legal(db, Whole(Holding(accounts))) && FullTransaction(db, Holding(accounts)) == Some(next)
    ensures Describes(next, Holding(accounts))
    ensures LinksOf(next.links, a) == LinksOf(db.links, a) + Elements(accounts[a].operationIds)
  {
    HoldingIsSound(accounts);
    FullSucceeds(db, l, Holding(accounts));
    FullTransactionStores(db, l, Holding(accounts));
    next := FullTransaction(db, Holding(accounts)).value;
    FullLinksAre(db, l, Holding(accounts), a);
  }

  /** What is left of a removed account: its stored links outlive an active transaction that leaves the account out, and
      join whatever links a later whole-ledger transaction gives it. */
  lemma RemovedLinksReturn(db: Database, l: Ledger, removed: Ledger, restored: Ledger, a: Id) returns (next: Database)
    requires Describes(db, l) && Legal(db, Active(removed)) && ActiveTransaction(db, removed).Some?
    requires a !in removed.collections.accounts && a in restored.collections.accounts
    requires FullTransaction(ActiveTransaction(db, removed).value, restored).Some?
    ensures next == ActiveTransaction(db, removed).value
    ensures LinksOf(FullTransaction(next, restored).value.links, a)
            == LinksOf(db.links, a) + Elements(restored.collections.accounts[a].operationIds)
  {
    next := ActiveTransaction(db, removed).value;
    ActiveTransactionStores(db, l, removed);
    ActiveLinksGrow(db, l, removed);
    assert LinksOf(next.links, a) == LinksOf(db.links, a);
    FullLinksAre(next, Continued(l, removed), restored, a);
  }

  lemma StoredOnce(a: Id, account: Account) returns (stored: Database)
    ensures FullTransaction(Fresh(Holding(map[])), Holding(map[a := account])) == Some(stored)
    ensures Describes(stored, Holding(map[a := account])) && LinksOf(stored.links, a) == Elements(account.operationIds)
  {
    FreshDescribes(Holding(map[]));
    HoldingIsSound(map[a := account]);
    stored := HoldingStored(Fresh(Holding(map[])), Holding(map[]), map[a := account], a);
  }

  /** It happens: an account stored with one link, left out, and left again with none, has its old link. */
  lemma LinkReturns(a: Id, account: Account, o: Id) returns (stored: Database, removed: Database, back: Database)
    requires account.operationIds == [o]
    ensures FullTransaction(Fresh(Holding(map[])), Holding(map[a := account])) == Some(stored)
    ensures ActiveTransaction(stored, Holding(map[])) == Some(removed)
    ensures FullTransaction(removed, Holding(map[a := account.(operationIds := [])])) == Some(back)
    ensures LinksOf(back.links, a) == {o}
  {
    stored := StoredOnce(a, account);
    removed := ActiveForgets(stored, map[a := account]);
    back := RestoredBare(removed, a, account.(operationIds := []));
  }

  lemma RestoredBare(removed: Database, a: Id, bare: Account) returns (back: Database)
    requires Describes(removed, Holding(map[])) && bare.operationIds == []
    ensures FullTransaction(removed, Holding(map[a := bare])) == Some(back)
    ensures LinksOf(back.links, a) == LinksOf(removed.links, a)
  {
    HoldingIsSound(map[a := bare]);
    back := HoldingStored(removed, Holding(map[]), map[a := bare], a);
  }
}
