/** The ledger state a node keeps, and the readings of it that consensus uses.
    Identifiers (addresses, hashes, names) are numbers: only their equality and
    their order matter here. A record whose contents are never looked into is a
    `Row`. */
module LedgerModel {
  import opened MachineInts

  type Id = nat
  type Row = nat

  datatype Account = Account(body: Row, operationIds: seq<Id>)
  datatype Network = Network(commitment: Id, alias: Id, body: Row)
  datatype Node = Node(lastHeartbeat: Option<i64>, body: Row)

  /** A vote that committed a block. */
  datatype VoteType = Prevote | Precommit
  datatype Vote = Vote(ledgerId: Id, height: nat, round: u32, voteType: VoteType, blockHash: Option<Id>,
                       validatorSetHash: Id, validator: u64, timestamp: i64, signature: Id)

  datatype Block = Block(ledgerId: Id, height: nat, timestamp: i64, hash: Id, round: u32, validatorSetHash: Id,
                         operationIds: seq<Id>, votes: seq<Vote>, rest: Row)

  /** What a signer signed; `digest` is the operation id derived from it. */
  datatype Claims = Claims(kind: Id, signer: Id, nonce: u64, payload: Row, signature: Id)
  datatype Signed = Signed(digest: Id, claims: Claims)

  datatype Status = Pending | Finalized | Failed
  datatype Finality = Finality(status: Status, blockHeight: Option<nat>, rest: Row)
  datatype Operation = Operation(id: Id, claims: Claims, createdAt: i64, signed: Option<Signed>, finality: Finality)

  /** The collections that have a table each. */
  datatype Collections = Collections(
    accounts: map<Id, Account>, networks: map<Id, Network>, aliases: map<Id, Id>, nodes: map<nat, Node>,
    ipSlots: map<nat, Row>, availabilitySlots: map<nat, Row>, payments: map<nat, Row>, proposals: map<nat, Row>,
    spends: seq<Row>, actions: seq<Row>, evidence: seq<Row>)

  const EMPTY_COLLECTIONS := Collections(map[], map[], map[], map[], map[], map[], map[], map[], [], [], [])

  /** Everything else: `agreed` is hashed into the state root, `running` is the
      part of the consensus round that is not. */
  datatype Core = Core(agreed: Row, running: Row, blockInterval: i64, pending: seq<Id>)

  datatype Pruned = Pruned(through: nat, tipHash: Option<Id>, tipTime: Option<i64>)

  datatype Ledger = Ledger(core: Core, pruned: Pruned, prunedOperations: u64, historyFrom: nat,
                           collections: Collections,
                           blocks: seq<Block>, operations: map<Id, Operation>, checkpoint: Option<Ledger>)

  // ---- Chain readings ----

  function Height(l: Ledger): nat {
    l.pruned.through + |l.blocks|
  }

  function TipHash(l: Ledger): Option<Id> {
    if l.blocks != [] then Some(l.blocks[|l.blocks| - 1].hash) else l.pruned.tipHash
  }

  function TipTime(l: Ledger): Option<i64> {
    if l.blocks != [] then Some(l.blocks[|l.blocks| - 1].timestamp) else l.pruned.tipTime
  }

  function NextBlockAt(l: Ledger): Option<i64> {
    match TipTime(l)
    case Some(time) => Some(SatAddI64(time, l.core.blockInterval))
    case None => None
  }

  function Unlinked(accounts: map<Id, Account>): map<Id, Account> {
    map a | a in accounts :: accounts[a].(operationIds := [])
  }

  function Silenced(nodes: map<nat, Node>): map<nat, Node> {
    map n | n in nodes :: nodes[n].(lastHeartbeat := None)
  }

  /** The value whose digest is the state root. */
  function Rooted(l: Ledger): Ledger {
    Ledger(l.core.(running := 0, pending := []), Pruned(0, None, None), 0, 1,
           l.collections.(accounts := Unlinked(l.collections.accounts), nodes := Silenced(l.collections.nodes)),
           [], map[], None)
  }

  /** The readings that consensus takes of a ledger. */
  datatype Reading = Reading(height: nat, tipHash: Option<Id>, tipTime: Option<i64>,
                             nextBlockAt: Option<i64>, root: Ledger)

  function Read(l: Ledger): Reading {
    Reading(Height(l), TipHash(l), TipTime(l), NextBlockAt(l), Rooted(l))
  }

  /** Retained blocks carry the heights that follow the pruned prefix. */
  predicate Contiguous(through: nat, blocks: seq<Block>) {
    forall i :: 0 <= i < |blocks| ==> blocks[i].height == through + i + 1
  }
}
