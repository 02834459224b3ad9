/** The state tables of one database: the current state row by row, and the
    finalized checkpoint as a sparse overlay on it. */
module StateStore {
  import opened MachineInts
  import opened LedgerModel
  import opened StateTables

  // ---- Network aliases ----

  predicate AliasesSound(networks: map<Id, Network>) {
    && (forall c :: c in networks ==> networks[c].commitment == c)
    && forall c, d :: c in networks && d in networks && networks[c].alias == networks[d].alias ==> c == d
  }

  /** The aliases the networks imply; `None` when a row contradicts its key or two rows share an alias. */
  function DerivedAliases(networks: map<Id, Network>): Option<map<Id, Id>> {
    if AliasesSound(networks) then Some(map c | c in networks :: networks[c].alias := c) else None
  }

  lemma AliasListed(seen: map<Id, Network>, alias: Id)
    requires AliasesSound(seen)
    ensures alias in DerivedAliases(seen).value <==> exists d :: d in seen && seen[d].alias == alias
  {
  }

  lemma SoundExtends(seen: map<Id, Network>, c: Id, network: Network)
    requires c !in seen && AliasesSound(seen)
    ensures AliasesSound(seen[c := network])
            <==> network.commitment == c && forall d :: d in seen ==> seen[d].alias != network.alias
  {
    var more := seen[c := network];
    if AliasesSound(more) {
      assert more[c] == network;
      forall d | d in seen
        ensures seen[d].alias != network.alias
      {
        assert more[d] == seen[d];
      }
    }
  }

  lemma AliasesExtend(seen: map<Id, Network>, c: Id, network: Network)
    requires c !in seen && AliasesSound(seen)
    ensures AliasesSound(seen[c := network])
            <==> network.commitment == c && network.alias !in DerivedAliases(seen).value
    ensures AliasesSound(seen[c := network])
            ==> DerivedAliases(seen[c := network]).value == DerivedAliases(seen).value[network.alias := c]
  {
    SoundExtends(seen, c, network);
    AliasListed(seen, network.alias);
  }

  lemma UnsoundPart(networks: map<Id, Network>, part: map<Id, Network>)
    requires (forall d :: d in part ==> d in networks && part[d] == networks[d]) && !AliasesSound(part)
    ensures !AliasesSound(networks)
  {
  }

  method DeriveAliases(networks: map<Id, Network>) returns (aliases: Option<map<Id, Id>>)
    ensures aliases == DerivedAliases(networks)
  {
    var found: map<Id, Id> := map[];
    var left := networks.Keys;
    while left != {}
      invariant left <= networks.Keys
      invariant DerivedAliases(networks - left) == Some(found)
    {
      var c :| c in left;
      AliasesExtend(networks - left, c, networks[c]);
      assert networks - (left - {c}) == (networks - left)[c := networks[c]];
      if networks[c].commitment != c || networks[c].alias in found {
        UnsoundPart(networks, networks - (left - {c}));
        return None;
      }
      found := found[networks[c].alias := c];
      left := left - {c};
    }
    assert networks - left == networks;
    return Some(found);
  }

  // ---- Writing ----

  datatype Rows = Rows(
    accounts: map<Id, Account>, networks: map<Id, Network>, nodes: map<nat, Node>,
    ipSlots: map<nat, Row>, availabilitySlots: map<nat, Row>, payments: map<nat, Row>, proposals: map<nat, Row>,
    spends: map<nat, Row>, actions: map<nat, Row>, evidence: map<nat, Row>)

  datatype Overlays = Overlays(
    accounts: map<Id, Option<Account>>, networks: map<Id, Option<Network>>, nodes: map<nat, Option<Node>>,
    ipSlots: map<nat, Option<Row>>, availabilitySlots: map<nat, Option<Row>>, payments: map<nat, Option<Row>>,
    proposals: map<nat, Option<Row>>,
    spends: map<nat, Option<Row>>, actions: map<nat, Option<Row>>, evidence: map<nat, Option<Row>>)

  const NO_OVERLAYS := Overlays(map[], map[], map[], map[], map[], map[], map[], map[], map[], map[])

  datatype StateRows = StateRows(current: Rows, committed: Option<Ledger>, overlays: Overlays)

  const EMPTY_ROWS := Rows(map[], map[], map[], map[], map[], map[], map[], map[], map[], map[])

  /** The part of a ledger stored as one record. */
  function Stripped(l: Ledger): Ledger {
    l.(blocks := [], operations := map[], collections := EMPTY_COLLECTIONS, checkpoint := None)
  }

  function RowsDiffed(rows: Rows, before: Collections, after: Collections): Rows {
    Rows(Diffed(rows.accounts, before.accounts, after.accounts),
         Diffed(rows.networks, before.networks, after.networks),
         Diffed(rows.nodes, before.nodes, after.nodes),
         Diffed(rows.ipSlots, before.ipSlots, after.ipSlots),
         Diffed(rows.availabilitySlots, before.availabilitySlots, after.availabilitySlots),
         Diffed(rows.payments, before.payments, after.payments),
         Diffed(rows.proposals, before.proposals, after.proposals),
         Diffed(rows.spends, Indexed(before.spends), Indexed(after.spends)),
         Diffed(rows.actions, Indexed(before.actions), Indexed(after.actions)),
         Diffed(rows.evidence, Indexed(before.evidence), Indexed(after.evidence)))
  }

  function OverlaysOf(current: Collections, committed: Collections): Overlays {
    Overlays(Overlay(current.accounts, committed.accounts),
             Overlay(current.networks, committed.networks),
             Overlay(current.nodes, committed.nodes),
             Overlay(current.ipSlots, committed.ipSlots),
             Overlay(current.availabilitySlots, committed.availabilitySlots),
             Overlay(current.payments, committed.payments),
             Overlay(current.proposals, committed.proposals),
             Overlay(Indexed(current.spends), Indexed(committed.spends)),
             Overlay(Indexed(current.actions), Indexed(committed.actions)),
             Overlay(Indexed(current.evidence), Indexed(committed.evidence)))
  }

  function PersistState(db: StateRows, before: Ledger, after: Ledger): StateRows {
    var current := RowsDiffed(db.current, before.collections, after.collections);
    match after.checkpoint
    case Some(committed) => StateRows(current, Some(Stripped(committed)),
                                      OverlaysOf(after.collections, committed.collections))
    case None => StateRows(current, None, NO_OVERLAYS)
  }

  // ---- Reading ----

  function RowsRead(rows: Rows): Option<Collections> {
    var aliases, spends, actions, evidence :=
      DerivedAliases(rows.networks), Vector(rows.spends), Vector(rows.actions), Vector(rows.evidence);
    if aliases.None? || spends.None? || actions.None? || evidence.None? then None
    else Some(Collections(rows.accounts, rows.networks, aliases.value, rows.nodes, rows.ipSlots, rows.availabilitySlots,
                          rows.payments, rows.proposals, spends.value, actions.value, evidence.value))
  }

  function AsRows(c: Collections): Rows {
    Rows(c.accounts, c.networks, c.nodes, c.ipSlots, c.availabilitySlots, c.payments, c.proposals,
         Indexed(c.spends), Indexed(c.actions), Indexed(c.evidence))
  }

  function RowsOverlaid(rows: Rows, overlays: Overlays): Rows {
    Rows(Applied(rows.accounts, overlays.accounts),
         Applied(rows.networks, overlays.networks),
         Applied(rows.nodes, overlays.nodes),
         Applied(rows.ipSlots, overlays.ipSlots),
         Applied(rows.availabilitySlots, overlays.availabilitySlots),
         Applied(rows.payments, overlays.payments),
         Applied(rows.proposals, overlays.proposals),
         Applied(rows.spends, overlays.spends),
         Applied(rows.actions, overlays.actions),
         Applied(rows.evidence, overlays.evidence))
  }

  /** Fills the collections and the checkpoint of a ledger read as one record. */
  function HydrateState(db: StateRows, l: Ledger): Option<Ledger> {
    match RowsRead(db.current)
    case None => None
    case Some(current) =>
      match db.committed
      case None => Some(l.(collections := current, checkpoint := None))
      case Some(committed) =>
        match RowsRead(RowsOverlaid(AsRows(current), db.overlays))
        case None => None
        case Some(restored) => Some(l.(collections := current, checkpoint := Some(committed.(collections := restored))))
  }

  // ---- Round trip ----

  function BodyOf(a: Account): Row {
    a.body
  }

  /** Equal rows, account links aside. */
  ghost predicate SameRows(a: Rows, b: Rows) {
    SameBy(BodyOf, a.accounts, b.accounts) && a.(accounts := map[]) == b.(accounts := map[])
  }

  lemma DiffIsAfter<K, V>(before: map<K, V>, after: map<K, V>)
    ensures Diffed(before, before, after) == after
  {
  }

  lemma OverlayIsCommitted<K, V>(current: map<K, V>, committed: map<K, V>)
    ensures Applied(current, Overlay(current, committed)) == committed
  {
  }

  lemma RowsReachAfter(rows: Rows, before: Collections, after: Collections)
    requires SameRows(rows, AsRows(before))
    ensures SameRows(RowsDiffed(rows, before, after), AsRows(after))
  {
    DiffReaches(BodyOf, rows.accounts, before.accounts, after.accounts);
    DiffIsAfter(before.networks, after.networks);
    DiffIsAfter(before.nodes, after.nodes);
    DiffIsAfter(before.ipSlots, after.ipSlots);
    DiffIsAfter(before.availabilitySlots, after.availabilitySlots);
    DiffIsAfter(before.payments, after.payments);
    DiffIsAfter(before.proposals, after.proposals);
    DiffIsAfter(Indexed(before.spends), Indexed(after.spends));
    DiffIsAfter(Indexed(before.actions), Indexed(after.actions));
    DiffIsAfter(Indexed(before.evidence), Indexed(after.evidence));
  }

  lemma OverlaysReachCommitted(rows: Rows, current: Collections, committed: Collections)
    requires SameRows(rows, AsRows(current))
    ensures SameRows(RowsOverlaid(rows, OverlaysOf(current, committed)), AsRows(committed))
  {
    OverlayRestores(BodyOf, rows.accounts, current.accounts, committed.accounts);
    OverlayIsCommitted(current.networks, committed.networks);
    OverlayIsCommitted(current.nodes, committed.nodes);
    OverlayIsCommitted(current.ipSlots, committed.ipSlots);
    OverlayIsCommitted(current.availabilitySlots, committed.availabilitySlots);
    OverlayIsCommitted(current.payments, committed.payments);
    OverlayIsCommitted(current.proposals, committed.proposals);
    OverlayIsCommitted(Indexed(current.spends), Indexed(committed.spends));
    OverlayIsCommitted(Indexed(current.actions), Indexed(committed.actions));
    OverlayIsCommitted(Indexed(current.evidence), Indexed(committed.evidence));
  }

  /** The database holds this ledger's collections and its checkpoint's. */
  ghost predicate Stored(db: StateRows, l: Ledger) {
    && SameRows(db.current, AsRows(l.collections))
    && match l.checkpoint
       case None => db.committed == None
       case Some(c) =>
         db.committed == Some(Stripped(c)) && SameRows(RowsOverlaid(db.current, db.overlays), AsRows(c.collections))
  }

  /** Whatever the old and the new state are, writing the difference stores the new. */
  lemma PersistStores(db: StateRows, before: Ledger, after: Ledger)
    requires SameRows(db.current, AsRows(before.collections))
    ensures Stored(PersistState(db, before, after), after)
  {
    RowsReachAfter(db.current, before.collections, after.collections);
    if after.checkpoint.Some? {
      var current := RowsDiffed(db.current, before.collections, after.collections);
      OverlaysReachCommitted(current, after.collections, after.checkpoint.value.collections);
    }
  }

  function UnlinkedCollections(c: Collections): Collections {
    c.(accounts := Unlinked(c.accounts))
  }

  /** A ledger with its derived aliases, without blocks, operations and account links. */
  ghost function Essence(c: Collections): Collections
    requires DerivedAliases(c.networks).Some?
  {
    c.(accounts := Unlinked(c.accounts), aliases := DerivedAliases(c.networks).value)
  }

  lemma SameBodiesUnlink(a: map<Id, Account>, b: map<Id, Account>)
    requires SameBy(BodyOf, a, b)
    ensures Unlinked(a) == Unlinked(b)
  {
  }

  /** Rows like a state's read back as that state, exactly when its aliases derive. */
  lemma RowsReadBack(rows: Rows, c: Collections)
    requires SameRows(rows, AsRows(c))
    ensures RowsRead(rows).Some? <==> DerivedAliases(c.networks).Some?
    ensures RowsRead(rows).Some? ==> UnlinkedCollections(RowsRead(rows).value) == Essence(c)
    ensures RowsRead(rows).Some? ==>
              RowsRead(rows).value.accounts == rows.accounts && AsRows(RowsRead(rows).value) == rows
  {
    VectorReadsBack(c.spends);
    VectorReadsBack(c.actions);
    VectorReadsBack(c.evidence);
    SameBodiesUnlink(rows.accounts, c.accounts);
    assert rows.(accounts := map[]).networks == AsRows(c).(accounts := map[]).networks;
  }

  ghost predicate Derivable(l: Ledger) {
    DerivedAliases(l.collections.networks).Some?
      && (l.checkpoint.Some? ==> DerivedAliases(l.checkpoint.value.collections.networks).Some?)
  }

  /** A stored ledger hydrates exactly when the aliases of both its states
      derive, and then both states come back, account links aside. */
  lemma StoredReloads(db: StateRows, l: Ledger, record: Ledger)
    requires Stored(db, l)
    ensures HydrateState(db, record).Some? <==> Derivable(l)
    ensures Derivable(l) ==>
              var read := HydrateState(db, record).value;
              && UnlinkedCollections(read.collections) == Essence(l.collections)
              && read == record.(collections := read.collections, checkpoint := read.checkpoint)
              && (read.checkpoint.Some? <==> l.checkpoint.Some?)
              && (read.checkpoint.Some? ==>
                    && read.checkpoint.value
                      == Stripped(l.checkpoint.value).(collections := read.checkpoint.value.collections)
                    && UnlinkedCollections(read.checkpoint.value.collections)
                      == Essence(l.checkpoint.value.collections))
  {
    RowsReadBack(db.current, l.collections);
    if l.checkpoint.Some? && RowsRead(db.current).Some? {
      RowsReadBack(RowsOverlaid(db.current, db.overlays), l.checkpoint.value.collections);
    }
  }
}
