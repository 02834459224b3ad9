/** The operation tables: immutable bodies, their finality, and the links from
    accounts to the operations that touched them. */
module OperationStore {
  import opened MachineInts
  import opened LedgerModel
  import opened Ordering
  import opened StateTables

  datatype Body = Body(createdAt: i64, signed: Signed)

  /** The immutable part of a record; `None` when the record contradicts what was signed. */
  function BodyFor(o: Operation): Option<Body> {
    match o.signed
    case None => None
    case Some(signed) =>
      if o.id == signed.digest && o.claims == signed.claims then Some(Body(o.createdAt, signed)) else None
  }

  function Rejoined(b: Body, id: Id, finality: Finality): Option<Operation> {
    if b.signed.digest == id then Some(Operation(id, b.signed.claims, b.createdAt, Some(b.signed), finality)) else None
  }

  /** Splitting a record and joining its parts under its id gives it back. */
  lemma RecordRoundTrip(o: Operation, b: Body, finality: Finality)
    ensures BodyFor(o) == Some(b) && o.finality == finality <==> Rejoined(b, o.id, finality) == Some(o)
  {
  }

  // ---- Bodies and finality ----

  datatype OperationRows = OperationRows(bodies: map<Id, Body>, finality: map<Id, Finality>)

  predicate Insertable(bodies: map<Id, Body>, before: map<Id, Operation>, after: map<Id, Operation>, id: Id)
    requires id in after
  {
    && BodyFor(after[id]).Some?
    && if id in before then BodyFor(before[id]) == BodyFor(after[id]) else id !in bodies
  }

  predicate AllBodied(operations: map<Id, Operation>) {
    forall id :: id in operations ==> BodyFor(operations[id]).Some?
  }

  function NewBodies(before: map<Id, Operation>, after: map<Id, Operation>): map<Id, Body>
    requires AllBodied(after)
  {
    map id | id in after && id !in before :: BodyFor(after[id]).value
  }

  function Finalities(operations: map<Id, Operation>): map<Id, Finality> {
    map id | id in operations :: operations[id].finality
  }

  /** The tables after `before` gives way to `after`; `None` when a body would change. */
  function PersistedOperations(rows: OperationRows, before: map<Id, Operation>,
                               after: map<Id, Operation>): Option<OperationRows> {
    if !AllBodied(after) || !forall id :: id in after ==> Insertable(rows.bodies, before, after, id) then None
    else Some(OperationRows((rows.bodies - (before.Keys - after.Keys)) + NewBodies(before, after),
                            Diffed(rows.finality, Finalities(before), Finalities(after))))
  }

  lemma NewBodiesNext(before: map<Id, Operation>, seen: map<Id, Operation>, id: Id, o: Operation)
    requires AllBodied(seen) && id !in seen && BodyFor(o).Some?
    ensures AllBodied(seen[id := o])
    ensures NewBodies(before, seen[id := o])
            == if id in before then NewBodies(before, seen) else NewBodies(before, seen)[id := BodyFor(o).value]
  {
  }

  method PersistBodies(table: Table<Id, Body>, before: map<Id, Operation>, after: map<Id, Operation>) returns (ok: bool)
    modifies table
    ensures ok
            <==> AllBodied(after)
                 && forall id :: id in after ==>
                      Insertable(old(table.rows) - (before.Keys - after.Keys), before, after, id)
    ensures ok ==> table.rows == (old(table.rows) - (before.Keys - after.Keys)) + NewBodies(before, after)
  {
    RemoveAll(table, before.Keys - after.Keys);
    ghost var kept := table.rows;
    var left := after.Keys;
    ghost var seen: map<Id, Operation> := map[];
    ghost var added := NewBodies(before, seen);
    assert kept + added == kept;
    while left != {}
      invariant left <= after.Keys && seen.Keys == after.Keys - left && AllBodied(seen)
      invariant forall id :: id in seen ==> seen[id] == after[id] && Insertable(kept, before, after, id)
      invariant added == NewBodies(before, seen) && table.rows == kept + added
    {
      var id :| id in left;
      var body := BodyFor(after[id]);
      assert id !in added;
      if body.None? || (if id in before then BodyFor(before[id]) != body else id in table.rows) {
        assert !Insertable(kept, before, after, id);
        return false;
      }
      NewBodiesNext(before, seen, id, after[id]);
      if id !in before {
        MergeUpdate(kept, added, id, body.value);
        table.rows := table.rows[id := body.value];
        added := added[id := body.value];
      }
      seen := seen[id := after[id]];
      left := left - {id};
    }
    assert seen == after;
    return true;
  }

  lemma SameInsertable(bodies: map<Id, Body>, before: map<Id, Operation>, after: map<Id, Operation>)
    ensures (forall id :: id in after ==> Insertable(bodies - (before.Keys - after.Keys), before, after, id))
            <==> forall id :: id in after ==> Insertable(bodies, before, after, id)
  {
  }

  /** One pass over the records, both tables. Finality rows are rewritten where they changed. */
  method PersistOperations(bodies: Table<Id, Body>, finality: Table<Id, Finality>, before: map<Id, Operation>,
                           after: map<Id, Operation>)
    returns (ok: bool)
    modifies bodies, finality
    ensures ok <==> PersistedOperations(OperationRows(old(bodies.rows), old(finality.rows)), before, after).Some?
    ensures ok ==> Some(OperationRows(bodies.rows, finality.rows))
                   == PersistedOperations(OperationRows(old(bodies.rows), old(finality.rows)), before, after)
  {
    SameInsertable(bodies.rows, before, after);
    ok := PersistBodies(bodies, before, after);
    if ok {
      PersistMap(finality, Finalities(before), Finalities(after));
    }
  }

  predicate Readable(rows: OperationRows, id: Id) {
    id in rows.bodies && id in rows.finality && Rejoined(rows.bodies[id], id, rows.finality[id]).Some?
  }

  function Joined(rows: OperationRows, id: Id): Operation
    requires Readable(rows, id)
  {
    Rejoined(rows.bodies[id], id, rows.finality[id]).value
  }

  function LoadedOperations(rows: OperationRows): Option<map<Id, Operation>> {
    if forall id :: id in rows.bodies ==> Readable(rows, id)
    then Some(map id | id in rows.bodies :: Joined(rows, id)) else None
  }

  function LoadedPending(rows: OperationRows, pending: seq<Id>): Option<map<Id, Operation>> {
    if forall id :: id in pending ==> Readable(rows, id) then Some(map id | id in pending :: Joined(rows, id)) else None
  }

  /** The tables are exactly these records, each under its own id. */
  ghost predicate HoldsOperations(rows: OperationRows, operations: map<Id, Operation>) {
    && rows.bodies.Keys == operations.Keys && rows.finality.Keys == operations.Keys
    && forall id :: id in operations ==> Readable(rows, id) && Joined(rows, id) == operations[id]
  }

  lemma OperationsLoadBack(rows: OperationRows, operations: map<Id, Operation>)
    requires HoldsOperations(rows, operations)
    ensures LoadedOperations(rows) == Some(operations)
  {
    assert forall id :: id in rows.bodies ==> id in operations && Readable(rows, id);
    assert LoadedOperations(rows).value == operations;
  }

  function Restricted(operations: map<Id, Operation>, ids: seq<Id>): map<Id, Operation> {
    map id | id in operations && id in ids :: operations[id]
  }

  lemma PendingLoadBack(rows: OperationRows, operations: map<Id, Operation>, pending: seq<Id>)
    requires HoldsOperations(rows, operations)
    ensures LoadedPending(rows, pending).Some? <==> forall id :: id in pending ==> id in operations
    ensures LoadedPending(rows, pending).Some? ==> LoadedPending(rows, pending).value == Restricted(operations, pending)
  {
  }

  function Merged(all: map<Id, Operation>, before: map<Id, Operation>, after: map<Id, Operation>): map<Id, Operation> {
    (all - (before.Keys - after.Keys)) + after
  }

  predicate Keyed(operations: map<Id, Operation>) {
    forall id :: id in operations ==> operations[id].id == id
  }

  predicate PartOf(part: map<Id, Operation>, all: map<Id, Operation>) {
    forall id :: id in part ==> id in all && part[id] == all[id]
  }

  /** The record says what was signed, under the id of what was signed. */
  predicate Attested(o: Operation) {
    o.signed.Some? && o.id == o.signed.value.digest && o.claims == o.signed.value.claims
  }

  /** Attested, and created and signed as it was if it was known before. */
  predicate StillAttested(all: map<Id, Operation>, id: Id, o: Operation) {
    Attested(o) && (id in all ==> o.signed == all[id].signed && o.createdAt == all[id].createdAt)
  }

  lemma HeldIsAttested(rows: OperationRows, all: map<Id, Operation>, id: Id)
    requires HoldsOperations(rows, all) && id in all
    ensures Attested(all[id]) && BodyFor(all[id]) == Some(rows.bodies[id])
  {
    RecordRoundTrip(all[id], rows.bodies[id], rows.finality[id]);
  }

  /** Records are written exactly when each is attested, none known before was signed or created otherwise, and none
      is known to the tables without having been seen. */
  lemma OperationsReplace(rows: OperationRows, all: map<Id, Operation>, before: map<Id, Operation>,
                          after: map<Id, Operation>)
    requires HoldsOperations(rows, all) && PartOf(before, all)
    ensures PersistedOperations(rows, before, after).Some?
            <==> forall id :: id in after ==> StillAttested(all, id, after[id]) && (id in all ==> id in before)
  {
    forall id | id in after
      ensures Insertable(rows.bodies, before, after, id)
              <==> StillAttested(all, id, after[id]) && (id in all ==> id in before)
    {
      if id in all {
        HeldIsAttested(rows, all, id);
      }
    }
  }

  lemma PendingReplace(rows: OperationRows, all: map<Id, Operation>, pending: seq<Id>, after: map<Id, Operation>)
    requires HoldsOperations(rows, all)
    ensures PersistedOperations(rows, Restricted(all, pending), after).Some?
            <==> forall id :: id in after ==> StillAttested(all, id, after[id]) && (id in all ==> id in pending)
  {
    OperationsReplace(rows, all, Restricted(all, pending), after);
  }

  lemma MergedReads(rows: OperationRows, all: map<Id, Operation>, before: map<Id, Operation>,
                    after: map<Id, Operation>, id: Id)
    requires HoldsOperations(rows, all) && PartOf(before, all) && Keyed(after)
    requires PersistedOperations(rows, before, after).Some? && id in Merged(all, before, after)
    ensures Readable(PersistedOperations(rows, before, after).value, id)
    ensures Joined(PersistedOperations(rows, before, after).value, id) == Merged(all, before, after)[id]
  {
    if id in after {
      assert Insertable(rows.bodies, before, after, id);
      RecordRoundTrip(after[id], BodyFor(after[id]).value, after[id].finality);
      if id in before {
        assert Readable(rows, id) && Joined(rows, id) == before[id];
        RecordRoundTrip(before[id], rows.bodies[id], rows.finality[id]);
      }
    } else {
      assert Readable(rows, id);
    }
  }

  lemma MergedKeys(rows: OperationRows, all: map<Id, Operation>, before: map<Id, Operation>, after: map<Id, Operation>)
    requires HoldsOperations(rows, all) && PartOf(before, all) && PersistedOperations(rows, before, after).Some?
    ensures PersistedOperations(rows, before, after).value.bodies.Keys == Merged(all, before, after).Keys
    ensures PersistedOperations(rows, before, after).value.finality.Keys == Merged(all, before, after).Keys
  {
    assert Finalities(before).Keys == before.Keys && Finalities(after).Keys == after.Keys;
    var written := PersistedOperations(rows, before, after).value;
    forall id
      ensures id in written.finality <==> id in Merged(all, before, after)
    {
      if id in after && id in before {
        assert id in rows.finality;
      }
    }
    forall id
      ensures id in written.bodies <==> id in Merged(all, before, after)
    {
      if id in after && id in before {
        assert id in rows.bodies;
      }
    }
  }

  /** A transaction that saw part of the records changes that part only. */
  lemma OperationsMerged(rows: OperationRows, all: map<Id, Operation>, before: map<Id, Operation>,
                         after: map<Id, Operation>)
    requires HoldsOperations(rows, all) && PartOf(before, all) && Keyed(after)
    requires PersistedOperations(rows, before, after).Some?
    ensures HoldsOperations(PersistedOperations(rows, before, after).value, Merged(all, before, after))
  {
    var written, merged := PersistedOperations(rows, before, after).value, Merged(all, before, after);
    MergedKeys(rows, all, before, after);
    forall id | id in merged
      ensures Readable(written, id) && Joined(written, id) == merged[id]
    {
      MergedReads(rows, all, before, after, id);
    }
  }

  // ---- Account links ----

  datatype Link = Link(account: Id, operation: Id)

  function Links(accounts: map<Id, Account>): set<Link> {
    set a, o | a in accounts && o in accounts[a].operationIds :: Link(a, o)
  }

  function PersistedLinks(links: set<Link>, before: map<Id, Account>, after: map<Id, Account>): set<Link> {
    (links - (Links(before) - Links(after))) + (Links(after) - Links(before))
  }

  function LinksOf(links: set<Link>, account: Id): set<Id> {
    set l | l in links && l.account == account :: l.operation
  }

  /** Where a record sorts: creation time, then nonce. */
  function RankOf(o: Operation): int {
    o.createdAt * (U64_MAX + 1) + o.claims.nonce
  }

  lemma RankIsLexicographic(o: Operation, p: Operation)
    ensures RankOf(o) < RankOf(p)
            <==> o.createdAt < p.createdAt || (o.createdAt == p.createdAt && o.claims.nonce < p.claims.nonce)
  {
  }

  function Ranks(operations: map<Id, Operation>): map<Id, int> {
    map id | id in operations :: RankOf(operations[id])
  }

  ghost function Linked(accounts: map<Id, Account>, links: set<Link>,
                        operations: map<Id, Operation>): map<Id, Account> {
    map a | a in accounts :: accounts[a].(operationIds := Sorted(Ranks(operations), LinksOf(links, a)))
  }

  lemma LinksOfAccount(accounts: map<Id, Account>, a: Id)
    requires a in accounts
    ensures LinksOf(Links(accounts), a) == Elements(accounts[a].operationIds)
  {
    forall o
      ensures o in LinksOf(Links(accounts), a) <==> o in accounts[a].operationIds
    {
      if o in accounts[a].operationIds {
        assert Link(a, o) in Links(accounts);
      }
    }
  }

  lemma LinksChange(links: set<Link>, before: map<Id, Account>, after: map<Id, Account>, a: Id)
    ensures LinksOf(PersistedLinks(links, before, after), a)
            == (LinksOf(links, a) - (LinksOf(Links(before), a) - LinksOf(Links(after), a)))
              + (LinksOf(Links(after), a) - LinksOf(Links(before), a))
  {
  }

  /** Accounts shown with their stored links have exactly those links. */
  lemma ShownLinks(accounts: map<Id, Account>, links: set<Link>, ranks: map<Id, int>, a: Id)
    requires forall b :: b in accounts ==> accounts[b].operationIds == Sorted(ranks, LinksOf(links, b))
    ensures LinksOf(Links(accounts), a) == if a in accounts then LinksOf(links, a) else {}
  {
  }

  /** An account shown with its links leaves exactly the links it was given; one not shown keeps its old ones too. */
  lemma LinksWritten(links: set<Link>, before: map<Id, Account>, after: map<Id, Account>, a: Id)
    requires LinksOf(Links(before), a) == (if a in before then LinksOf(links, a) else {}) && a in after
    ensures var ids := Elements(after[a].operationIds);
            LinksOf(PersistedLinks(links, before, after), a) == if a in before then ids else LinksOf(links, a) + ids
  {
    LinksChange(links, before, after, a);
    LinksOfAccount(after, a);
  }
}
