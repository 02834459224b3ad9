/** Listing a set of identifiers in order: by a rank where there is one, ranked
    after unranked, ties by identifier. */
module Ordering {

  predicate Less(ranks: map<nat, int>, a: nat, b: nat) {
    if a in ranks && b in ranks && ranks[a] != ranks[b] then ranks[a] < ranks[b]
    else if a in ranks <==> b in ranks then a < b
    else b in ranks
  }

  predicate Ascending(ranks: map<nat, int>, s: seq<nat>) {
    forall i, j :: 0 <= i < j < |s| ==> Less(ranks, s[i], s[j])
  }

  function Elements(s: seq<nat>): set<nat> {
    set x | x in s
  }

  lemma ElementsAppend(s: seq<nat>, x: nat)
    ensures Elements(s + [x]) == Elements(s) + {x}
  {
  }

  lemma AscendAppend(ranks: map<nat, int>, s: seq<nat>, m: nat)
    requires Ascending(ranks, s) && forall x :: x in Elements(s) ==> Less(ranks, x, m)
    ensures Ascending(ranks, s + [m])
  {
  }

  ghost predicate IsGreatest(ranks: map<nat, int>, ids: set<nat>, m: nat) {
    m in ids && forall x :: x in ids ==> x == m || Less(ranks, x, m)
  }

  lemma {:induction false} GreatestExists(ranks: map<nat, int>, ids: set<nat>) returns (m: nat)
    requires ids != {}
    ensures IsGreatest(ranks, ids, m)
    decreases |ids|
  {
    var x :| x in ids;
    var rest := ids - {x};
    if rest == {} {
      assert ids == {x};
      m := x;
    } else {
      var top := GreatestExists(ranks, rest);
      m := if Less(ranks, top, x) then x else top;
      forall y | y in ids
        ensures y == m || Less(ranks, y, m)
      {
        assert y == x || y in rest;
      }
    }
  }

  ghost function Greatest(ranks: map<nat, int>, ids: set<nat>): (m: nat)
    requires ids != {}
    ensures IsGreatest(ranks, ids, m)
  {
    assert exists m :: IsGreatest(ranks, ids, m) by {
      var m := GreatestExists(ranks, ids);
    }
    var m :| IsGreatest(ranks, ids, m);
    m
  }

  ghost function Sorted(ranks: map<nat, int>, ids: set<nat>): (s: seq<nat>)
    ensures Elements(s) == ids && Ascending(ranks, s) && |s| == |ids|
    decreases |ids|
  {
    if ids == {} then []
    else
      var m := Greatest(ranks, ids);
      var init := Sorted(ranks, ids - {m});
      ElementsAppend(init, m);
      AscendAppend(ranks, init, m);
      init + [m]
  }

  /** An ascending list is the one listing of its elements. */
  lemma {:induction false} SortedIsUnique(ranks: map<nat, int>, s: seq<nat>)
    requires Ascending(ranks, s)
    ensures Sorted(ranks, Elements(s)) == s
    decreases |s|
  {
    if s != [] {
      var n := |s| - 1;
      assert s[n] in Elements(s);
      var m := Greatest(ranks, Elements(s));
      assert m in s;
      assert m == s[n];
      assert s == s[..n] + [m];
      assert Elements(s[..n]) == Elements(s) - {m};
      SortedIsUnique(ranks, s[..n]);
    }
  }

  lemma SlicesAscend(ranks: map<nat, int>, s: seq<nat>, from: nat)
    requires Ascending(ranks, s) && from <= |s|
    ensures Ascending(ranks, s[from..])
  {
  }
}
