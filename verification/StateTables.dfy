/** The row-level operations of the state store: tables updated by the
    difference of two states, and sparse overlays that keep a second state as
    its difference from the first. A row is compared as its serialized bytes;
    here equal values stand for equal bytes. */
module StateTables {
  import opened MachineInts

  class Table<K(==), V(==)> {
    var rows: map<K, V>

    constructor ()
      ensures rows == map[]
    {
      rows := map[];
    }
  }

  function Lookup<K, V>(m: map<K, V>, k: K): Option<V> {
    if k in m then Some(m[k]) else None
  }

  // ---- Differences ----

  predicate Unchanged<K, V(==)>(before: map<K, V>, after: map<K, V>, k: K)
    requires k in after
  {
    k in before && before[k] == after[k]
  }

  function Changed<K, V(==)>(before: map<K, V>, after: map<K, V>): map<K, V> {
    map k | k in after && !Unchanged(before, after, k) :: after[k]
  }

  /** The table after the difference from `before` to `after` is written. */
  function Diffed<K, V(==)>(rows: map<K, V>, before: map<K, V>, after: map<K, V>): map<K, V> {
    (rows - (before.Keys - after.Keys)) + Changed(before, after)
  }

  method RemoveAll<K, V(==)>(table: Table<K, V>, keys: set<K>)
    modifies table
    ensures table.rows == old(table.rows) - keys
  {
    var left := keys;
    while left != {}
      invariant left <= keys && table.rows == old(table.rows) - (keys - left)
    {
      var k :| k in left;
      table.rows := table.rows - {k};
      left := left - {k};
    }
  }

  method PersistMap<K, V(==)>(table: Table<K, V>, before: map<K, V>, after: map<K, V>)
    modifies table
    ensures table.rows == Diffed(old(table.rows), before, after)
  {
    RemoveAll(table, before.Keys - after.Keys);
    ghost var kept := table.rows;
    var left := after.Keys;
    while left != {}
      invariant left <= after.Keys
      invariant table.rows == kept + (Changed(before, after) - left)
    {
      var k :| k in left;
      if !Unchanged(before, after, k) {
        table.rows := table.rows[k := after[k]];
      }
      left := left - {k};
    }
    assert Changed(before, after) - left == Changed(before, after);
  }

  /** Alike in keys, and in values as far as `f` looks. */
  ghost predicate SameBy<K, V, W>(f: V -> W, a: map<K, V>, b: map<K, V>) {
    a.Keys == b.Keys && forall k :: k in a ==> f(a[k]) == f(b[k])
  }

  lemma SameIsEqual<K, V>(f: V -> V, a: map<K, V>, b: map<K, V>)
    requires SameBy(f, a, b) && forall v :: f(v) == v
    ensures a == b
  {
  }

  /** Writing a difference onto a table of the old state gives a table of the new. */
  lemma DiffReaches<K, V, W>(f: V -> W, rows: map<K, V>, before: map<K, V>, after: map<K, V>)
    requires SameBy(f, rows, before)
    ensures SameBy(f, Diffed(rows, before, after), after)
  {
  }

  // ---- Overlays ----

  /** The rows that turn `current` into `committed`; `None` marks a row to drop. */
  function Overlay<K, V(==)>(current: map<K, V>, committed: map<K, V>): map<K, Option<V>> {
    map k | k in current.Keys + committed.Keys && Lookup(current, k) != Lookup(committed, k) :: Lookup(committed, k)
  }

  function Applied<K, V>(base: map<K, V>, overlay: map<K, Option<V>>): map<K, V> {
    map k | k in base.Keys + overlay.Keys && (k in overlay ==> overlay[k].Some?) ::
      if k in overlay then overlay[k].value else base[k]
  }

  method PersistOverlay<K, V(==)>(table: Table<K, Option<V>>, current: map<K, V>, committed: map<K, V>)
    modifies table
    ensures table.rows == Overlay(current, committed)
  {
    RemoveAll(table, table.rows.Keys);
    var keys := current.Keys + committed.Keys;
    var left := keys;
    ghost var all := Overlay(current, committed);
    assert all.Keys <= keys;
    while left != {}
      invariant left <= keys && table.rows == all - left
    {
      var k :| k in left;
      if Lookup(current, k) != Lookup(committed, k) {
        table.rows := table.rows[k := Lookup(committed, k)];
      }
      left := left - {k};
    }
    assert all - left == all;
  }

  method ApplyOverlay<K, V(==)>(table: Table<K, Option<V>>, target: map<K, V>) returns (applied: map<K, V>)
    ensures applied == Applied(target, table.rows)
  {
    applied := target;
    var left := table.rows.Keys;
    while left != {}
      invariant left <= table.rows.Keys
      invariant applied == Applied(target, table.rows - left)
    {
      var k :| k in left;
      match table.rows[k] {
        case Some(record) => applied := applied[k := record];
        case None => applied := applied - {k};
      }
      left := left - {k};
    }
    assert table.rows - left == table.rows;
  }

  /** An overlay restores the committed state from any base like the current one. */
  lemma OverlayRestores<K, V, W>(f: V -> W, base: map<K, V>, current: map<K, V>, committed: map<K, V>)
    requires SameBy(f, base, current)
    ensures SameBy(f, Applied(base, Overlay(current, committed)), committed)
  {
  }

  // ---- Vectors as tables of indexed rows ----

  function Indexed<V>(s: seq<V>): map<nat, V> {
    map i: nat | 0 <= i < |s| :: s[i]
  }

  predicate Gapless<V>(rows: map<nat, V>) {
    (forall i :: 0 <= i < |rows| ==> i in rows) && forall i :: i in rows ==> i < |rows|
  }

  function Listed<V>(rows: map<nat, V>): seq<V>
    requires Gapless(rows)
  {
    seq(|rows|, i requires 0 <= i < |rows| => rows[i])
  }

  function Vector<V>(rows: map<nat, V>): Option<seq<V>> {
    if Gapless(rows) then Some(Listed(rows)) else None
  }

  lemma {:induction false} IndexedSize<V>(s: seq<V>)
    ensures |Indexed(s)| == |s|
  {
    if s == [] {
      assert Indexed(s) == map[];
    } else {
      var n := |s| - 1;
      IndexedSize(s[..n]);
      assert Indexed(s) == Indexed(s[..n])[n := s[n]];
    }
  }

  lemma VectorReadsBack<V>(s: seq<V>)
    ensures Vector(Indexed(s)) == Some(s)
  {
    IndexedSize(s);
    assert Gapless(Indexed(s));
    assert Listed(Indexed(s)) == s;
  }

  ghost function Range(low: nat, high: nat): (range: set<nat>)
    ensures forall i :: i in range <==> low <= i < high
    decreases high
  {
    if high <= low then {} else Range(low, high - 1) + {high - 1}
  }

  method TrimRows<V(==)>(table: Table<nat, V>, low: nat, high: nat)
    modifies table
    ensures table.rows == old(table.rows) - Range(low, high)
  {
    var index := low;
    while index < high
      invariant low <= index && table.rows == old(table.rows) - Range(low, index)
      invariant index <= high || index == low
    {
      table.rows := table.rows - {index};
      index := index + 1;
    }
  }

  lemma ChangedNext<V>(before: seq<V>, after: seq<V>, index: nat)
    requires index < |after|
    ensures var done := Changed(Indexed(before), Indexed(after[..index]));
            Changed(Indexed(before), Indexed(after[..index + 1]))
            == if index < |before| && before[index] == after[index] then done else done[index := after[index]]
  {
  }

  lemma MergeUpdate<K, V>(kept: map<K, V>, done: map<K, V>, k: K, v: V)
    ensures kept + done[k := v] == (kept + done)[k := v]
  {
  }

  method WriteRows<V(==)>(table: Table<nat, V>, before: seq<V>, after: seq<V>)
    modifies table
    ensures table.rows == old(table.rows) + Changed(Indexed(before), Indexed(after))
  {
    ghost var kept := table.rows;
    ghost var done := Changed(Indexed(before), Indexed(after[..0]));
    assert kept + done == kept;
    for index := 0 to |after|
      invariant done == Changed(Indexed(before), Indexed(after[..index]))
      invariant table.rows == kept + done
    {
      ChangedNext(before, after, index);
      if !(index < |before| && before[index] == after[index]) {
        MergeUpdate(kept, done, index, after[index]);
        table.rows := table.rows[index := after[index]];
        done := done[index := after[index]];
      }
    }
    assert after[..|after|] == after;
  }

  /** Removing the old tail and writing the changed indices is a difference too. */
  method PersistVector<V(==)>(table: Table<nat, V>, before: seq<V>, after: seq<V>)
    modifies table
    ensures table.rows == Diffed(old(table.rows), Indexed(before), Indexed(after))
  {
    TrimRows(table, |after|, |before|);
    assert Range(|after|, |before|) == Indexed(before).Keys - Indexed(after).Keys;
    WriteRows(table, before, after);
  }

  method ApplyVectorOverlay<V(==)>(table: Table<nat, Option<V>>, target: seq<V>) returns (applied: Option<seq<V>>)
    ensures applied == Vector(Applied(Indexed(target), table.rows))
  {
    var rows := ApplyOverlay(table, Indexed(target));
    applied := Vector(rows);
  }

  /** Whatever the two lengths, the contiguity check passes on what was written. */
  lemma VectorOverlayRestores<V>(current: seq<V>, committed: seq<V>)
    ensures Vector(Applied(Indexed(current), Overlay(Indexed(current), Indexed(committed)))) == Some(committed)
  {
    OverlayRestores((v: V) => v, Indexed(current), Indexed(current), Indexed(committed));
    SameIsEqual((v: V) => v,
                Applied(Indexed(current), Overlay(Indexed(current), Indexed(committed))), Indexed(committed));
    VectorReadsBack(committed);
  }
}
