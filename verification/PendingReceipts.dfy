/** Receipts waiting to be settled, one per authorization and direction.
    Storing and flushing race: a flush removes a row after its settlement was
    submitted, while newer receipts may have arrived. */
module PendingReceipts {
  import opened MachineInts
  import opened RelayModel

  datatype Key = Key(authorization: nat, direction: Direction)

  datatype Receipt = Receipt(sequence: u64, bytes: u64, final: bool, rest: nat)

  datatype Event = Store(key: Key, receipt: Receipt)
                 | Remove(key: Key, maximumSequence: u64, submittedFinal: bool)

  predicate Replaces(existing: Receipt, receipt: Receipt) {
    (!existing.final || receipt.final) && receipt.sequence >= existing.sequence && receipt.bytes >= existing.bytes
  }

  /** A removal that is for this receipt: for a later one, or for the same sequence and at least as final. */
  predicate Covers(e: Event, key: Key, r: Receipt) {
    && e.Remove? && e.key == key
    && (r.sequence < e.maximumSequence || (r.sequence == e.maximumSequence && (e.submittedFinal || !r.final)))
  }

  function After(rows: map<Key, Receipt>, e: Event): map<Key, Receipt> {
    match e
    case Store(key, receipt) => if key in rows && !Replaces(rows[key], receipt) then rows else rows[key := receipt]
    case Remove(key, _, _) => if key in rows && Covers(e, key, rows[key]) then rows - {key} else rows
  }

  class Table {
    var rows: map<Key, Receipt>

    constructor ()
      ensures rows == map[]
    {
      rows := map[];
    }

    method StoreSettlement(key: Key, receipt: Receipt)
      modifies this
      ensures rows == After(old(rows), Store(key, receipt))
    {
      var replace := true;
      if key in rows {
        var existing := rows[key];
        replace := (!existing.final || receipt.final) && receipt.sequence >= existing.sequence
          && receipt.bytes >= existing.bytes;
      }
      if replace {
        rows := rows[key := receipt];
      }
    }

    method RemoveIfNotNewer(key: Key, maximumSequence: u64, submittedFinal: bool)
      modifies this
      ensures rows == After(old(rows), Remove(key, maximumSequence, submittedFinal))
    {
      var remove := false;
      if key in rows {
        var existing := rows[key];
        remove := existing.sequence < maximumSequence
          || (existing.sequence == maximumSequence && (submittedFinal || !existing.final));
      }
      if remove {
        rows := rows - {key};
      }
    }
  }

  // ---- Runs ----

  function Run(rows: map<Key, Receipt>, events: seq<Event>): map<Key, Receipt>
    decreases |events|
  {
    if events == [] then rows else Run(After(rows, events[0]), events[1..])
  }

  /** Neither earlier, nor shorter, nor less final. */
  predicate NoOlder(r: Receipt, than: Receipt) {
    r.sequence >= than.sequence && r.bytes >= than.bytes && (than.final ==> r.final)
  }

  lemma StepKeeps(rows: map<Key, Receipt>, key: Key, r: Receipt, e: Event)
    requires key in rows && NoOlder(rows[key], r) && !Covers(e, key, r)
    ensures key in After(rows, e) && NoOlder(After(rows, e)[key], r)
  {
  }

  /** Over any interleaving, a receipt once stored is kept, or replaced by one
      no older, until some removal covers it. */
  lemma {:induction false} ReceiptKept(rows: map<Key, Receipt>, key: Key, r: Receipt, events: seq<Event>)
    requires key in rows && NoOlder(rows[key], r)
    requires forall i :: 0 <= i < |events| ==> !Covers(events[i], key, r)
    ensures key in Run(rows, events) && NoOlder(Run(rows, events)[key], r)
    decreases |events|
  {
    if events != [] {
      StepKeeps(rows, key, r, events[0]);
      ReceiptKept(After(rows, events[0]), key, r, events[1..]);
    }
  }

  lemma {:induction false} RunAppends(rows: map<Key, Receipt>, some: seq<Event>, more: seq<Event>)
    ensures Run(rows, some + more) == Run(Run(rows, some), more)
    decreases |some|
  {
    if some == [] {
      assert some + more == more;
    } else {
      assert (some + more)[1..] == some[1..] + more;
      RunAppends(After(rows, some[0]), some[1..], more);
    }
  }

  /** A receipt that vanished, or gave way to an older one, was covered by a later removal. */
  lemma DroppedOnlyWhenCovered(before: seq<Event>, after: seq<Event>, key: Key, r: Receipt) returns (i: nat)
    requires Lookup(Run(map[], before), key) == Some(r)
    requires key !in Run(map[], before + after) || !NoOlder(Run(map[], before + after)[key], r)
    ensures i < |after| && Covers(after[i], key, r)
  {
    var rows := Run(map[], before);
    RunAppends(map[], before, after);
    if forall k :: 0 <= k < |after| ==> !Covers(after[k], key, r) {
      ReceiptKept(rows, key, r, after);
    }
    i :| 0 <= i < |after| && Covers(after[i], key, r);
  }

  function Lookup(rows: map<Key, Receipt>, key: Key): Option<Receipt> {
    if key in rows then Some(rows[key]) else None
  }

  /** Without removals the rows only move forward. */
  lemma {:induction false} StoresNeverRegress(rows: map<Key, Receipt>, events: seq<Event>, key: Key)
    requires forall i :: 0 <= i < |events| ==> events[i].Store?
    requires key in rows
    ensures key in Run(rows, events) && NoOlder(Run(rows, events)[key], rows[key])
  {
    ReceiptKept(rows, key, rows[key], events);
  }
}
