/** The hub's bookkeeping as values: which connections are registered, how they
    are grouped by member, and which routes join them. */
module HubRegistry {
  import opened MachineInts
  import opened NodeRelay

  datatype Peer = Peer(networkId: string, memberId: string)

  type Groups = map<Peer, seq<u64>>

  // ---- Grouping ----

  ghost predicate Ascending(ids: seq<u64>) {
    forall i, j :: 0 <= i < j < |ids| ==> ids[i] < ids[j]
  }

  predicate Lists(groups: Groups, member: Peer, id: u64) {
    member in groups && id in groups[member]
  }

  /** Each list holds exactly the connections of its member, in registration order, and no list is empty. */
  ghost predicate Grouped(peers: map<u64, Peer>, groups: Groups) {
    && (forall member :: member in groups ==> groups[member] != [] && Ascending(groups[member]))
    && (forall member, id :: Lists(groups, member, id) ==> id in peers && peers[id] == member)
    && (forall id :: id in peers ==> Lists(groups, peers[id], id))
  }

  lemma AscendingLast(ids: seq<u64>)
    requires Ascending(ids) && ids != []
    ensures ids[|ids| - 1] in ids
    ensures forall id :: id in ids[..|ids| - 1] <==> id in ids && id != ids[|ids| - 1]
    ensures forall id :: id in ids ==> id <= ids[|ids| - 1]
  {
  }

  lemma {:induction false} AscendingUnique(a: seq<u64>, b: seq<u64>)
    requires Ascending(a) && Ascending(b) && forall id :: id in a <==> id in b
    ensures a == b
    decreases |a|
  {
    if a == [] {
      if b != [] { AscendingLast(b); }
    } else {
      assert a[0] in b;
      AscendingLast(a);
      AscendingLast(b);
      var a', b' := a[..|a| - 1], b[..|b| - 1];
      assert a[|a| - 1] in b && b[|b| - 1] in a;
      forall id ensures id in a' <==> id in b' { assert id in a <==> id in b; }
      AscendingUnique(a', b');
    }
  }

  lemma GroupIsSame(peers: map<u64, Peer>, a: Groups, b: Groups, member: Peer)
    requires Grouped(peers, a) && Grouped(peers, b) && member in a
    ensures member in b && a[member] == b[member]
  {
    var first := a[member][0];
    assert Lists(a, member, first) && Lists(b, member, first);
    forall id ensures id in a[member] <==> id in b[member] {
      assert Lists(a, member, id) <==> Lists(b, member, id);
    }
    AscendingUnique(a[member], b[member]);
  }

  /** There is only one such grouping: the member table is a function of the peer table. */
  lemma GroupingIsUnique(peers: map<u64, Peer>, a: Groups, b: Groups)
    requires Grouped(peers, a) && Grouped(peers, b)
    ensures a == b
  {
    forall member | member in a ensures member in b && a[member] == b[member] { GroupIsSame(peers, a, b, member); }
    forall member | member in b ensures member in a { GroupIsSame(peers, b, a, member); }
  }

  function Enrolled(groups: Groups, member: Peer): seq<u64> {
    if member in groups then groups[member] else []
  }

  /** A number above all others joins its member's list; a number still in use cannot. */
  lemma EnrollGroups(peers: map<u64, Peer>, groups: Groups, member: Peer, id: u64)
    requires Grouped(peers, groups) && forall other :: other in peers ==> other <= id
    ensures Grouped(peers[id := member], groups[member := Enrolled(groups, member) + [id]]) <==> id !in peers
  {
    var current := Enrolled(groups, member);
    var peers', groups' := peers[id := member], groups[member := current + [id]];
    assert forall m, k :: Lists(groups', m, k) <==> Lists(groups, m, k) || (m == member && k == id);
    if id in peers {
      assert Lists(groups, peers[id], id);
      if peers[id] == member {
        var i :| 0 <= i < |current| && current[i] == id;
        assert (current + [id])[i] == (current + [id])[|current|];
        assert !Ascending(groups'[member]);
      } else {
        assert Lists(groups', peers[id], id);
      }
    } else {
      forall i | 0 <= i < |current| ensures current[i] < id { assert Lists(groups, member, current[i]); }
      assert Ascending(groups'[member]);
    }
  }

  function Without(ids: seq<u64>, gone: u64): seq<u64> {
    if ids == [] then []
    else (if ids[0] == gone then [] else [ids[0]]) + Without(ids[1..], gone)
  }

  lemma AscendingFirst(ids: seq<u64>)
    requires Ascending(ids) && ids != []
    ensures Ascending(ids[1..]) && forall id :: id in ids[1..] ==> ids[0] < id
  {
  }

  lemma AscendingPrepend(first: u64, rest: seq<u64>)
    requires Ascending(rest) && forall id :: id in rest ==> first < id
    ensures Ascending([first] + rest)
  {
    assert forall i :: 0 <= i < |rest| ==> rest[i] in rest;
  }

  lemma {:induction false} WithoutKeeps(ids: seq<u64>, gone: u64)
    requires Ascending(ids)
    ensures Ascending(Without(ids, gone))
    ensures forall id :: id in Without(ids, gone) <==> id in ids && id != gone
    decreases |ids|
  {
    if ids != [] {
      WithoutKeeps(ids[1..], gone);
      var rest := Without(ids[1..], gone);
      assert ids == [ids[0]] + ids[1..];
      AscendingFirst(ids);
      if ids[0] == gone {
        assert Without(ids, gone) == rest;
      } else {
        AscendingPrepend(ids[0], rest);
      }
    }
  }

  /** The groups after a connection leaves; a member's last connection takes its list with it. */
  function Dismissed(groups: Groups, member: Peer, gone: u64): Groups {
    if member !in groups then groups
    else
      var rest := Without(groups[member], gone);
      if rest == [] then groups - {member} else groups[member := rest]
  }

  lemma DismissGroups(peers: map<u64, Peer>, groups: Groups, gone: u64)
    requires Grouped(peers, groups) && gone in peers
    ensures Grouped(peers - {gone}, Dismissed(groups, peers[gone], gone))
  {
    var member := peers[gone];
    assert Lists(groups, member, gone);
    var rest := Without(groups[member], gone);
    WithoutKeeps(groups[member], gone);
    var groups' := Dismissed(groups, member, gone);
    assert rest == [] || rest[0] in rest;
    forall m, k ensures Lists(groups', m, k) <==> Lists(groups, m, k) && k != gone {
      if Lists(groups, m, gone) { assert m == member; }
    }
  }

  // ---- Routes ----

  /** Both ends of every route are registered connections of one network, and channel 0 is never used. */
  ghost predicate Joined(peers: map<u64, Peer>, routes: map<u32, Route>) {
    forall channel :: channel in routes ==>
      && channel != 0
      && routes[channel].source in peers && routes[channel].destination in peers
      && peers[routes[channel].source].networkId == peers[routes[channel].destination].networkId
  }

  function AuthorizationOf(route: Route): Option<string> {
    if route.authorization.Some? then Some(route.authorization.value.authorization.authorizationId) else None
  }

  /** No two live paid routes spend one authorization. */
  ghost predicate OneRouteEach(routes: map<u32, Route>) {
    forall a, b :: a in routes && b in routes && a != b && AuthorizationOf(routes[a]).Some? ==>
      AuthorizationOf(routes[a]) != AuthorizationOf(routes[b])
  }

  predicate Touches(route: Route, connection: u64) {
    route.source == connection || route.destination == connection
  }

  function ChannelsOf(routes: map<u32, Route>, connection: u64): set<u32> {
    set channel | channel in routes && Touches(routes[channel], connection)
  }

  lemma RoutesAfterDisconnect(peers: map<u64, Peer>, routes: map<u32, Route>, connection: u64)
    requires Joined(peers, routes) && OneRouteEach(routes)
    ensures var rest := routes - ChannelsOf(routes, connection);
            Joined(peers - {connection}, rest) && OneRouteEach(rest)
  {
  }

  lemma RoutesAfterArrival(peers: map<u64, Peer>, routes: map<u32, Route>, id: u64, member: Peer)
    requires Joined(peers, routes) && id !in peers
    ensures Joined(peers[id := member], routes)
  {
  }

  predicate SameEnds(before: Route, after: Route) {
    && after.source == before.source && after.destination == before.destination
    && after.authorization == before.authorization && after.recovery == before.recovery
  }

  lemma RoutesUpdated(peers: map<u64, Peer>, routes: map<u32, Route>, after: map<u32, Route>)
    requires Joined(peers, routes) && OneRouteEach(routes) && after.Keys == routes.Keys
    requires forall c :: c in routes ==> SameEnds(routes[c], after[c])
    ensures Joined(peers, after) && OneRouteEach(after)
  {
  }

  lemma RouteUpdated(peers: map<u64, Peer>, routes: map<u32, Route>, channel: u32, route: Route)
    requires Joined(peers, routes) && OneRouteEach(routes) && channel in routes && SameEnds(routes[channel], route)
    ensures Joined(peers, routes[channel := route]) && OneRouteEach(routes[channel := route])
  {
  }

  lemma RouteAdded(peers: map<u64, Peer>, routes: map<u32, Route>, channel: u32, route: Route)
    requires Joined(peers, routes) && OneRouteEach(routes) && channel != 0 && channel !in routes
    requires route.source in peers && route.destination in peers
    requires peers[route.source].networkId == peers[route.destination].networkId
    requires AuthorizationOf(route).Some? ==> forall c :: c in routes ==>
               AuthorizationOf(routes[c]) != AuthorizationOf(route)
    ensures Joined(peers, routes[channel := route]) && OneRouteEach(routes[channel := route])
  {
  }

  lemma RouteDropped(peers: map<u64, Peer>, routes: map<u32, Route>, channel: u32)
    requires Joined(peers, routes) && OneRouteEach(routes)
    ensures Joined(peers, routes - {channel}) && OneRouteEach(routes - {channel})
  {
  }

  // ---- Channel numbers ----

  function Bump(channel: u32): u32 {
    if channel == U32_MAX then 1 else channel + 1
  }

  /** How many bumps lead from one channel number to another. */
  function Distance(from: u32, to: u32): nat {
    if from < to then to - from else U32_MAX - from + to
  }

  /** `other` comes before `channel` in the search that starts after `last`. */
  predicate Before(last: u32, other: u32, channel: u32) {
    Distance(last, other) < Distance(last, channel)
  }

  lemma {:induction false} InitialSegmentSize(n: nat, ids: set<u32>)
    requires n <= U32_MAX && forall id: u32 :: 1 <= id <= n ==> id in ids
    ensures |ids| >= n
  {
    if n > 0 {
      InitialSegmentSize(n - 1, ids - {n});
    }
  }

  lemma FreeChannelExists(routes: map<u32, Route>)
    requires |routes| < U32_MAX
    ensures exists channel: u32 :: channel != 0 && channel !in routes
  {
    assert |routes.Keys| == |routes|;
    if forall channel: u32 :: channel != 0 ==> channel in routes {
      InitialSegmentSize(U32_MAX, routes.Keys);
    }
  }
}
