/** handle_ship_destruction of game_engine.py: a breadth-first search from
    the player's location for the nearest safe location, the loss of the
    ship's cargo, and the respawn with a ship kept in that location's
    storage.  The new Vessel object, the starter modules, the visited-
    locations set and the end of combat are not part of this model. */
module Respawn {
  import opened Common
  import opened Catalog
  import opened Graph
  import opened PlayerModel

  /** The stations and planets a destroyed ship can respawn at. */
  const SafeLocations: set<string> := {
    "nexus_prime", "forge_station", "meridian_gates", "corsair_haven",
    "titan_alpha", "synthesis_planet", "ironhold_world", "neural_network",
    "axiom_labs", "ironhold_sectors"}

  /** The connections the search queues after visiting a location: those
      not yet visited, in order. */
  function Unvisited(conns: seq<string>, visited: set<string>): seq<string>
  {
    if conns == [] then []
    else
      var n := |conns| - 1;
      Unvisited(conns[..n], visited) + (if conns[n] !in visited then [conns[n]] else [])
  }

  lemma {:induction false} UnvisitedMembers(conns: seq<string>, visited: set<string>, x: string)
    ensures x in Unvisited(conns, visited) <==> x in conns && x !in visited
  {
    if conns != [] {
      var n := |conns| - 1;
      UnvisitedMembers(conns[..n], visited, x);
      assert conns == conns[..n] + [conns[n]];
    }
  }

  /** Stated once on its own so that the proofs below need not rediscover
      it among their other facts. */
  lemma AppendAssoc<T>(x: seq<T>, y: seq<T>, z: seq<T>)
    ensures (x + y) + z == x + (y + z)
  {
  }

  /** Queue entries: each name paired with the distance `d`. */
  function Tag(names: seq<string>, d: int): (r: seq<(string, int)>)
    ensures |r| == |names|
  {
    if names == [] then [] else [(names[0], d)] + Tag(names[1..], d)
  }

  lemma {:induction false} TagAppend(s: seq<string>, t: seq<string>, d: int)
    ensures Tag(s + t, d) == Tag(s, d) + Tag(t, d)
  {
    if s == [] {
      assert s + t == t;
    } else {
      TagAppend(s[1..], t, d);
      assert (s + t)[1..] == s[1..] + t;
      AppendAssoc([(s[0], d)], Tag(s[1..], d), Tag(t, d));
    }
  }

  /** A queue in two layers, `now` at `level` and `next` one step further:
      its head is the first of `now`, and popping it leaves the rest of
      `now` in front. */
  lemma QueuePop(queue: seq<(string, int)>, now: seq<string>, next: seq<string>, level: int)
    requires queue == Tag(now, level) + Tag(next, level + 1) && now != []
    ensures queue[0] == (now[0], level)
    ensures queue[1..] == Tag(now[1..], level) + Tag(next, level + 1)
  {
    var head, t, u := [(now[0], level)], Tag(now[1..], level), Tag(next, level + 1);
    assert Tag(now, level) == head + t;
    AppendAssoc(head, t, u);
    assert queue == head + (t + u);
    assert (head + (t + u))[1..] == t + u;
  }

  /** Appending entries at distance `level + 1` extends the second layer. */
  lemma QueuePush(queue: seq<(string, int)>, now: seq<string>, next: seq<string>, level: int,
                  pushed: seq<string>, d: int, queue': seq<(string, int)>)
    requires queue == Tag(now, level) + Tag(next, level + 1)
    requires d == level + 1 && queue' == queue + Tag(pushed, d)
    ensures queue' == Tag(now, level) + Tag(next + pushed, level + 1)
  {
    TagAppend(next, pushed, level + 1);
    AppendAssoc(Tag(now, level), Tag(next, level + 1), Tag(pushed, level + 1));
  }

  /** The inner loop of the search. */
  method Enqueue(conns: seq<string>, visited: set<string>, queue: seq<(string, int)>, d: int)
    returns (queue': seq<(string, int)>)
    ensures queue' == queue + Tag(Unvisited(conns, visited), d)
  {
    queue' := queue;
    var j := 0;
    while j < |conns|
      invariant 0 <= j <= |conns|
      invariant queue' == queue + Tag(Unvisited(conns[..j], visited), d)
    {
      assert conns[..j + 1][..j] == conns[..j];
      ghost var added := if conns[j] !in visited then [conns[j]] else [];
      TagAppend(Unvisited(conns[..j], visited), added, d);
      AppendAssoc(queue, Tag(Unvisited(conns[..j], visited), d), Tag(added, d));
      assert Tag([conns[j]], d) == [(conns[j], d)];
      if conns[j] !in visited {
        queue' := queue' + [(conns[j], d)];
      }
      j := j + 1;
    }
    assert conns[..j] == conns;
  }

  /** The search's queue is `Tag(now, level) + Tag(next, level + 1)`: the
      locations of `now` lie within `level` hops, those of `next` within
      `level + 1`. */
  ghost predicate Layered(locations: map<string, Location>, start: string, now: seq<string>, next: seq<string>, level: nat)
  {
    && (forall x :: x in now ==> x in Within(locations, start, level))
    && (forall x :: x in next ==> x in Within(locations, start, level + 1))
  }

  /** Everything within `level` hops is visited or waits at `level`. */
  ghost predicate Covers(locations: map<string, Location>, start: string, visited: set<string>, now: seq<string>, level: nat)
  {
    forall x :: x in Within(locations, start, level) ==> x in visited || x in now
  }

  /** Every connection of a visited location is visited or queued. */
  ghost predicate Frontier(locations: map<string, Location>, visited: set<string>, now: seq<string>, next: seq<string>)
  {
    forall u, v :: u in visited && v in Conn(locations, u) ==> v in visited || v in now || v in next
  }

  /** No safe location lies fewer than `n` hops from `start`. */
  ghost predicate NoneCloser(locations: map<string, Location>, safe: set<string>, start: string, n: nat)
  {
    n == 0 || forall s :: s in safe ==> s !in Within(locations, start, n - 1)
  }

  /** The best so far: `fallback` while no safe location has been visited
      (and none lies within `level - 1` hops), else a safe location at a
      distance no other safe location undercuts. */
  ghost predicate Best(locations: map<string, Location>, safe: set<string>, fallback: string, start: string,
                       visited: set<string>, level: nat, closest: string, minDist: Option<int>)
  {
    match minDist
    case None =>
      && closest == fallback
      && (forall x :: x in visited ==> x !in safe)
      && NoneCloser(locations, safe, start, level)
    case Some(m) =>
      && closest in safe && 0 <= m <= level
      && closest in Within(locations, start, m)
      && NoneCloser(locations, safe, start, m)
  }

  /** The search's loop invariant at distance `level`. */
  ghost predicate SearchInv(locations: map<string, Location>, safe: set<string>, fallback: string, start: string,
                            visited: set<string>, now: seq<string>, next: seq<string>, level: nat,
                            closest: string, minDist: Option<int>)
  {
    && Layered(locations, start, now, next, level)
    && Covers(locations, start, visited, now, level)
    && Frontier(locations, visited, now, next)
    && Best(locations, safe, fallback, start, visited, level, closest, minDist)
  }

  /** Once the entries at `level` are used up, the search moves on a level. */
  lemma NextLevel(locations: map<string, Location>, safe: set<string>, fallback: string, start: string,
                  visited: set<string>, next: seq<string>, level: nat, closest: string, minDist: Option<int>)
    requires SearchInv(locations, safe, fallback, start, visited, [], next, level, closest, minDist)
    ensures SearchInv(locations, safe, fallback, start, visited, next, [], level + 1, closest, minDist)
  {
    assert Within(locations, start, level) <= visited;
    forall x | x in Within(locations, start, level + 1)
      ensures x in visited || x in next
    {
      if x !in Within(locations, start, level) {
        var u :| u in Within(locations, start, level) && u in locations && x in locations[u].connections;
        assert u in visited;
      }
    }
  }

  /** Popping an entry already visited keeps the invariant. */
  lemma Skip(locations: map<string, Location>, safe: set<string>, fallback: string, start: string,
             visited: set<string>, now: seq<string>, next: seq<string>, level: nat, closest: string, minDist: Option<int>)
    requires SearchInv(locations, safe, fallback, start, visited, now, next, level, closest, minDist)
    requires now != [] && now[0] in visited
    ensures SearchInv(locations, safe, fallback, start, visited, now[1..], next, level, closest, minDist)
  {
    assert now == [now[0]] + now[1..];
  }

  /** The update of the best so far on visiting `x` at distance `level`:
      taken when `x` is safe and strictly nearer than the best. */
  predicate Improves(safe: set<string>, x: string, level: int, closest: string, minDist: Option<int>,
                     closest': string, minDist': Option<int>)
  {
    if x in safe && (minDist.None? || level < minDist.value)
    then closest' == x && minDist' == Some(level)
    else closest' == closest && minDist' == minDist
  }

  lemma VisitBest(locations: map<string, Location>, safe: set<string>, fallback: string, start: string,
                  visited: set<string>, level: nat, x: string, closest: string, minDist: Option<int>,
                  closest': string, minDist': Option<int>)
    requires Best(locations, safe, fallback, start, visited, level, closest, minDist)
    requires x in Within(locations, start, level)
    requires Improves(safe, x, level, closest, minDist, closest', minDist')
    ensures Best(locations, safe, fallback, start, visited + {x}, level, closest', minDist')
  {
    if minDist.None? {
      if x in safe {
        FoundBest(locations, safe, fallback, start, visited, level, x, closest);
      } else {
        KeptNone(locations, safe, fallback, start, visited, level, x, closest);
      }
    }
  }

  /** A safe location found before any other becomes the best. */
  lemma FoundBest(locations: map<string, Location>, safe: set<string>, fallback: string, start: string,
                  visited: set<string>, level: nat, x: string, closest: string)
    requires Best(locations, safe, fallback, start, visited, level, closest, None)
    requires x in Within(locations, start, level) && x in safe
    ensures Best(locations, safe, fallback, start, visited + {x}, level, x, Some(level))
  {
  }

  /** Visiting an unsafe location while none has been found changes nothing. */
  lemma KeptNone(locations: map<string, Location>, safe: set<string>, fallback: string, start: string,
                 visited: set<string>, level: nat, x: string, closest: string)
    requires Best(locations, safe, fallback, start, visited, level, closest, None)
    requires x !in safe
    ensures Best(locations, safe, fallback, start, visited + {x}, level, closest, None)
  {
  }

  /** Visiting the head keeps the layering, the coverage and the frontier. */
  lemma VisitLayers(locations: map<string, Location>, start: string, visited: set<string>,
                    now: seq<string>, next: seq<string>, level: nat)
    requires Layered(locations, start, now, next, level)
    requires Covers(locations, start, visited, now, level)
    requires Frontier(locations, visited, now, next)
    requires now != []
    ensures var x := now[0];
      var next' := next + Unvisited(Conn(locations, x), visited + {x});
      && Layered(locations, start, now[1..], next', level)
      && Covers(locations, start, visited + {x}, now[1..], level)
      && Frontier(locations, visited + {x}, now[1..], next')
  {
    var x := now[0];
    var visited' := visited + {x};
    var pushed := Unvisited(Conn(locations, x), visited');
    assert now == [x] + now[1..];
    forall y | y in pushed
      ensures y in Within(locations, start, level + 1) && y in Conn(locations, x) && y !in visited'
    {
      UnvisitedMembers(Conn(locations, x), visited', y);
      SuccOf(locations, Within(locations, start, level), x, y);
    }
    forall u, v | u == x && v in Conn(locations, u) && v !in visited'
      ensures v in pushed
    {
      UnvisitedMembers(Conn(locations, x), visited', v);
    }
  }

  /** Visiting one more location of a finite set leaves fewer to visit. */
  lemma Shrinks(keys: set<string>, a: set<string>, w: string)
    requires w in keys && w !in a
    ensures keys - (a + {w}) < keys - a
  {
    assert w in keys - a;
  }

  /** Popping the head entry, at the current level and not yet visited,
      keeps the invariant and visits one more of the finitely many
      locations. */
  lemma Visit(locations: map<string, Location>, safe: set<string>, fallback: string, start: string,
              visited: set<string>, now: seq<string>, next: seq<string>, level: nat,
              closest: string, minDist: Option<int>, closest': string, minDist': Option<int>)
    requires SearchInv(locations, safe, fallback, start, visited, now, next, level, closest, minDist)
    requires now != [] && now[0] !in visited
    requires Improves(safe, now[0], level, closest, minDist, closest', minDist')
    ensures SearchInv(locations, safe, fallback, start, visited + {now[0]}, now[1..],
                      next + Unvisited(Conn(locations, now[0]), visited + {now[0]}), level, closest', minDist')
    ensures Nodes(locations, start) - (visited + {now[0]}) < Nodes(locations, start) - visited
  {
    var x := now[0];
    assert x in Within(locations, start, level);
    VisitLayers(locations, start, visited, now, next, level);
    VisitBest(locations, safe, fallback, start, visited, level, x, closest, minDist, closest', minDist');
    WithinNodes(locations, start, level);
    Shrinks(Nodes(locations, start), visited, x);
  }

  /** An exhausted search has visited everything reachable, so its best is
      the nearest safe location, or `fallback` when none is reachable. */
  lemma Finish(locations: map<string, Location>, safe: set<string>, fallback: string, start: string,
               visited: set<string>, level: nat, closest: string, minDist: Option<int>)
    requires SearchInv(locations, safe, fallback, start, visited, [], [], level, closest, minDist)
    ensures NearestSafe(locations, safe, fallback, start, closest)
  {
    forall n: nat
      ensures Within(locations, start, n) <= visited
    {
      assert start in Within(locations, start, level);
      ClosedHoldsWithin(locations, start, visited, n);
    }
    if minDist.Some? {
      var h: nat := minDist.value;
      forall s, n: nat | s in safe && s in Within(locations, start, n)
        ensures h <= n
      {
        if n < h {
          WithinMonotone(locations, start, n, h - 1);
        }
      }
      assert closest in safe && closest in Within(locations, start, h);
    }
  }

  /** `closest` is a safe location no farther from `start` than any other
      reachable one, or `fallback` when none is reachable. */
  ghost predicate NearestSafe(locations: map<string, Location>, safe: set<string>, fallback: string,
                              start: string, closest: string)
  {
    || (closest == fallback &&
        forall s, n: nat :: s in safe ==> s !in Within(locations, start, n))
    || (exists h: nat :: closest in safe && closest in Within(locations, start, h) &&
          forall s, n: nat :: s in safe && s in Within(locations, start, n) ==> h <= n)
  }

  /** One round of the search that visits the head of the queue: mark it
      visited, take it as the best when it is safe and nearer, and queue its
      unvisited connections one step further. */
  method VisitHead(locations: map<string, Location>, safe: set<string>, ghost fallback: string, ghost start: string,
                   visited: set<string>, queue: seq<(string, int)>, closest: string, minDist: Option<int>,
                   ghost now: seq<string>, ghost next: seq<string>, ghost level: nat)
    returns (visited': set<string>, queue': seq<(string, int)>, closest': string, minDist': Option<int>,
             ghost next': seq<string>)
    requires queue == Tag(now, level) + Tag(next, level + 1) && now != [] && now[0] !in visited
    requires SearchInv(locations, safe, fallback, start, visited, now, next, level, closest, minDist)
    ensures queue' == Tag(now[1..], level) + Tag(next', level + 1)
    ensures SearchInv(locations, safe, fallback, start, visited', now[1..], next', level, closest', minDist')
    ensures Nodes(locations, start) - visited' < Nodes(locations, start) - visited
  {
    QueuePop(queue, now, next, level);
    var loc, dist := queue[0].0, queue[0].1;
    assert loc == now[0] && dist == level;
    closest', minDist' := closest, minDist;
    if loc in safe && (minDist.None? || dist < minDist.value) {
      closest', minDist' := loc, Some(dist);
    }
    Visit(locations, safe, fallback, start, visited, now, next, level, closest, minDist, closest', minDist');
    visited' := visited + {loc};
    queue' := Enqueue(Conn(locations, loc), visited', queue[1..], dist + 1);
    ghost var pushed := Unvisited(Conn(locations, loc), visited');
    QueuePush(queue[1..], now[1..], next, level, pushed, dist + 1, queue');
    next' := next + pushed;
  }

  /** The respawn search of handle_ship_destruction: breadth first from
      `start`, skipping locations already visited; the first safe location
      popped at a smaller distance than the best so far wins, `fallback`
      when none is found. */
  method ClosestSafeLocation(locations: map<string, Location>, safe: set<string>, fallback: string, start: string)
    returns (closest: string)
    ensures NearestSafe(locations, safe, fallback, start, closest)
  {
    var visited: set<string> := {};
    var queue := [(start, 0)];
    closest := fallback;
    var minDist: Option<int> := None;
    ghost var level: nat := 0;
    ghost var now, next := [start], [];
    assert queue == Tag(now, level) + Tag(next, level + 1);
    while queue != []
      invariant queue == Tag(now, level) + Tag(next, level + 1)
      invariant SearchInv(locations, safe, fallback, start, visited, now, next, level, closest, minDist)
      decreases Nodes(locations, start) - visited, |queue|
    {
      if now == [] {
        NextLevel(locations, safe, fallback, start, visited, next, level, closest, minDist);
        now, next, level := next, [], level + 1;
        assert queue == Tag(now, level) + Tag(next, level + 1);
      }
      QueuePop(queue, now, next, level);
      if queue[0].0 in visited {
        Skip(locations, safe, fallback, start, visited, now, next, level, closest, minDist);
        queue := queue[1..];
        now := now[1..];
      } else {
        visited, queue, closest, minDist, next :=
          VisitHead(locations, safe, fallback, start, visited, queue, closest, minDist, now, next, level);
        now := now[1..];
      }
    }
    Finish(locations, safe, fallback, start, visited, level, closest, minDist);
  }

  /** handle_ship_destruction: the player respawns at the nearest safe
      location and loses the whole cargo hold; the storage there is created
      if new, and when it keeps a ship (a VESSEL_CLASSES entry with a
      positive count) one of them is taken out to fly; no other storage
      changes. */
  method HandleShipDestruction(p: Player, c: Catalog, locations: map<string, Location>)
    returns (closest: string, respawnShip: Option<string>)
    modifies p`shipCargo, p`stationInventories, p`location
    ensures NearestSafe(locations, SafeLocations, "nexus_prime", old(p.location), closest)
    ensures p.location == closest
    ensures p.shipCargo == map[]
    ensures var storage := if closest in old(p.stationInventories) then old(p.stationInventories)[closest] else map[];
      && (respawnShip.Some? ==>
            respawnShip.value in storage && respawnShip.value in c.vessels && storage[respawnShip.value] > 0 &&
            p.stationInventories == old(p.stationInventories)[closest := Taken(storage, respawnShip.value, 1)])
      && (respawnShip.None? ==>
            (forall id :: id in storage && id in c.vessels ==> storage[id] <= 0) &&
            p.stationInventories == old(p.stationInventories)[closest := storage])
  {
    closest := ClosestSafeLocation(locations, SafeLocations, "nexus_prime", p.location);
    p.shipCargo := map[];
    p.EnsureStation(closest);
    var storage := p.stationInventories[closest];
    if exists id :: id in storage && id in c.vessels && storage[id] > 0 {
      var id :| id in storage && id in c.vessels && storage[id] > 0;
      p.stationInventories := p.stationInventories[closest := Taken(storage, id, 1)];
      respawnShip := Some(id);
    } else {
      respawnShip := None;
    }
    p.location := closest;
  }
}
