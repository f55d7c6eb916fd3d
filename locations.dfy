/** verify_locations.py: the breadth-first reachability check over
    LOCATIONS and the connection analysis (locations with no connection,
    connections with no way back). */
module Locations {
  import opened Catalog
  import opened Graph

  /** Every connection names a key of LOCATIONS, as the search's
      `LOCATIONS[current]` lookup needs. */
  predicate Closed(locations: map<string, Location>)
  {
    forall u, v :: u in locations && v in locations[u].connections ==> v in locations
  }

  predicate Distinct(s: seq<string>)
  {
    forall i, j :: 0 <= i < j < |s| ==> s[i] != s[j]
  }

  /** The inner loop: every connection not yet visited is marked visited
      and queued, once. */
  method EnqueueNew(conns: seq<string>, visited: set<string>, queue: seq<string>)
    returns (visited': set<string>, queue': seq<string>)
    requires forall i :: 0 <= i < |queue| ==> queue[i] in visited
    requires Distinct(queue)
    ensures visited' == visited + (set c | c in conns)
    ensures |queue'| >= |queue| && queue'[..|queue|] == queue
    ensures forall i :: |queue| <= i < |queue'| ==> queue'[i] !in visited
    ensures forall i :: 0 <= i < |queue'| ==> queue'[i] in visited'
    ensures Distinct(queue')
    ensures forall x :: x in visited' && x !in visited ==> x in queue'
    ensures visited' == visited ==> queue' == queue
  {
    visited', queue' := visited, queue;
    var j := 0;
    while j < |conns|
      invariant 0 <= j <= |conns|
      invariant visited' == visited + (set c | c in conns[..j])
      invariant |queue'| >= |queue| && queue'[..|queue|] == queue
      invariant forall i :: |queue| <= i < |queue'| ==> queue'[i] !in visited
      invariant forall i :: 0 <= i < |queue'| ==> queue'[i] in visited'
      invariant Distinct(queue')
      invariant forall x :: x in visited' && x !in visited ==> x in queue'
      invariant visited' == visited ==> queue' == queue
    {
      var c := conns[j];
      assert conns[..j + 1] == conns[..j] + [c];
      if c !in visited' {
        visited' := visited' + {c};
        queue' := queue' + [c];
      }
      j := j + 1;
    }
    assert conns[..j] == conns;
  }

  /** The loop invariant of the search after `steps` rounds: everything
      visited is a location within `steps` hops, the queue holds visited
      locations once each, and a visited location off the queue has all its
      connections visited. */
  ghost predicate SearchInv(locations: map<string, Location>, start: string, visited: set<string>,
                            queue: seq<string>, steps: nat)
  {
    && start in visited && visited <= locations.Keys
    && visited <= Within(locations, start, steps)
    && (forall i :: 0 <= i < |queue| ==> queue[i] in visited)
    && Distinct(queue)
    && (forall x, v :: x in visited && x !in queue && v in Conn(locations, x) ==> v in visited)
  }

  lemma Shrinks(keys: set<string>, a: set<string>, b: set<string>, w: string)
    requires a <= b && w in b && w !in a && w in keys
    ensures |keys - b| < |keys - a|
  {
    var d := (keys - a) - (keys - b);
    assert w in d;
    assert keys - a == (keys - b) + d;
    assert (keys - b) * d == {};
  }

  /** One round of the search (pop the head, enqueue its unvisited
      connections) keeps the invariant and either visits a new location or
      shortens the queue. */
  lemma SearchStep(locations: map<string, Location>, start: string, visited: set<string>,
                   queue: seq<string>, steps: nat, visited': set<string>, queue': seq<string>)
    requires Closed(locations) && queue != []
    requires SearchInv(locations, start, visited, queue, steps)
    requires visited' == visited + (set c | c in locations[queue[0]].connections)
    requires |queue'| >= |queue| - 1 && queue'[..|queue| - 1] == queue[1..]
    requires forall i :: |queue| - 1 <= i < |queue'| ==> queue'[i] !in visited
    requires forall i :: 0 <= i < |queue'| ==> queue'[i] in visited'
    requires Distinct(queue')
    requires forall x :: x in visited' && x !in visited ==> x in queue'
    requires visited' == visited ==> queue' == queue[1..]
    ensures SearchInv(locations, start, visited', queue', steps + 1)
    ensures visited' != visited ==> |locations.Keys - visited'| < |locations.Keys - visited|
  {
    var current := queue[0];
    forall v | v in locations[current].connections
      ensures v in Within(locations, start, steps + 1)
    {
      SuccOf(locations, Within(locations, start, steps), current, v);
    }
    WithinMonotone(locations, start, steps, steps + 1);
    forall x, v | x in visited' && x !in queue' && v in Conn(locations, x)
      ensures v in visited'
    {
      if x != current {
        assert x in visited;
      }
    }
    if visited' != visited {
      var w :| w in visited' && w !in visited;
      Shrinks(locations.Keys, visited, visited', w);
    }
  }

  /** verify_all_locations_reachable: a breadth-first search from `start`;
      the visited set is exactly the set of reachable locations, and the
      answer is whether every location is in it. */
  method VerifyAllLocationsReachable(locations: map<string, Location>, start: string)
    returns (ok: bool, visited: set<string>, unreachable: set<string>)
    requires start in locations && Closed(locations)
    ensures forall t :: t in visited <==> Reachable(locations, start, t)
    ensures unreachable == locations.Keys - visited
    ensures ok <==> forall t :: t in locations ==> Reachable(locations, start, t)
  {
    visited := {start};
    var queue := [start];
    ghost var steps: nat := 0;
    while queue != []
      invariant SearchInv(locations, start, visited, queue, steps)
      decreases |locations.Keys - visited|, |queue|
    {
      var current := queue[0];
      ghost var before, queued := visited, queue;
      visited, queue := EnqueueNew(locations[current].connections, visited, queue[1..]);
      SearchStep(locations, start, before, queued, steps, visited, queue);
      steps := steps + 1;
    }
    forall t | Reachable(locations, start, t)
      ensures t in visited
    {
      var n: nat :| t in Within(locations, start, n);
      ClosedHoldsWithin(locations, start, visited, n);
    }
    unreachable := locations.Keys - visited;
    ok := unreachable == {};
  }

  // ---------------------------------------------------------------- connection analysis

  /** The locations of `order` whose connection list is empty, in order. */
  function NoConnections(locations: map<string, Location>, order: seq<string>): seq<string>
  {
    if order == [] then []
    else
      var n := |order| - 1;
      NoConnections(locations, order[..n]) + (if Conn(locations, order[n]) == [] then [order[n]] else [])
  }

  /** The pairs (a, b) with b in a's connections, b a location, and a not in
      b's connections: a's pairs in connection order, after those of the
      locations before it. */
  function OneWayFrom(locations: map<string, Location>, a: string, conns: seq<string>): seq<(string, string)>
  {
    if conns == [] then []
    else
      var n := |conns| - 1;
      OneWayFrom(locations, a, conns[..n]) +
        (if conns[n] in locations && a !in Conn(locations, conns[n]) then [(a, conns[n])] else [])
  }

  function OneWay(locations: map<string, Location>, order: seq<string>): seq<(string, string)>
  {
    if order == [] then []
    else
      var n := |order| - 1;
      OneWay(locations, order[..n]) + OneWayFrom(locations, order[n], Conn(locations, order[n]))
  }

  lemma {:induction false} NoConnectionsMembers(locations: map<string, Location>, order: seq<string>, k: string)
    ensures k in NoConnections(locations, order) <==> k in order && Conn(locations, k) == []
  {
    if order != [] {
      var n := |order| - 1;
      NoConnectionsMembers(locations, order[..n], k);
      assert order == order[..n] + [order[n]];
    }
  }

  lemma {:induction false} OneWayFromMembers(locations: map<string, Location>, a: string, conns: seq<string>, p: (string, string))
    ensures p in OneWayFrom(locations, a, conns) <==>
      p.0 == a && p.1 in conns && p.1 in locations && a !in Conn(locations, p.1)
  {
    if conns != [] {
      var n := |conns| - 1;
      OneWayFromMembers(locations, a, conns[..n], p);
      assert conns == conns[..n] + [conns[n]];
    }
  }

  lemma {:induction false} OneWayMembers(locations: map<string, Location>, order: seq<string>, p: (string, string))
    ensures p in OneWay(locations, order) <==>
      p.0 in order && p.1 in Conn(locations, p.0) && p.1 in locations && p.0 !in Conn(locations, p.1)
  {
    if order != [] {
      var n := |order| - 1;
      OneWayMembers(locations, order[..n], p);
      OneWayFromMembers(locations, order[n], Conn(locations, order[n]), p);
      assert order == order[..n] + [order[n]];
    }
  }

  /** The connection analysis of analyze_connections over LOCATIONS in
      its iteration order `order`: no_connections holds exactly the
      locations with an empty list, and (a, b) is one-way exactly when b is
      a location a connects to that does not connect back. */
  method AnalyzeConnections(locations: map<string, Location>, order: seq<string>)
    returns (noConnections: seq<string>, oneWay: seq<(string, string)>)
    requires forall k :: k in locations <==> k in order
    ensures noConnections == NoConnections(locations, order)
    ensures oneWay == OneWay(locations, order)
  {
    noConnections, oneWay := [], [];
    var i := 0;
    while i < |order|
      invariant 0 <= i <= |order|
      invariant noConnections == NoConnections(locations, order[..i])
      invariant oneWay == OneWay(locations, order[..i])
    {
      assert order[..i + 1][..i] == order[..i];
      var id := order[i];
      var conns := Conn(locations, id);
      if conns == [] {
        noConnections := noConnections + [id];
      }
      var pairs := OneWayPairs(locations, id, conns);
      assert OneWay(locations, order[..i + 1]) == oneWay + pairs;
      oneWay := oneWay + pairs;
      i := i + 1;
    }
    assert order[..i] == order;
  }

  /** The inner loop of analyze_connections: the one-way pairs from `a`. */
  method OneWayPairs(locations: map<string, Location>, a: string, conns: seq<string>)
    returns (pairs: seq<(string, string)>)
    ensures pairs == OneWayFrom(locations, a, conns)
  {
    pairs := [];
    var j := 0;
    while j < |conns|
      invariant 0 <= j <= |conns|
      invariant pairs == OneWayFrom(locations, a, conns[..j])
    {
      assert conns[..j + 1][..j] == conns[..j];
      var other := conns[j];
      if other in locations && a !in Conn(locations, other) {
        pairs := pairs + [(a, other)];
      }
      j := j + 1;
    }
    assert conns[..j] == conns;
  }

  /** Both reports over every location in `order`, by membership. */
  lemma ReportMembers(locations: map<string, Location>, order: seq<string>)
    requires forall k :: k in locations <==> k in order
    ensures forall k :: k in NoConnections(locations, order) <==> k in locations && Conn(locations, k) == []
    ensures forall a, b :: (a, b) in OneWay(locations, order) <==>
      a in locations && b in locations[a].connections && b in locations && a !in Conn(locations, b)
  {
    forall k
      ensures k in NoConnections(locations, order) <==> k in locations && Conn(locations, k) == []
    {
      NoConnectionsMembers(locations, order, k);
    }
    forall a, b
      ensures (a, b) in OneWay(locations, order) <==>
        a in locations && b in locations[a].connections && b in locations && a !in Conn(locations, b)
    {
      OneWayMembers(locations, order, (a, b));
    }
  }
}
