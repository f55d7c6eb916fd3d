/** The location graph of LOCATIONS: each location lists the locations it
    connects to.  Shared by the reachability check of verify_locations.py
    and the respawn search of game_engine.py. */
module Graph {
  import opened Catalog

  /** `LOCATIONS.get(id, {}).get("connections", [])`. */
  function Conn(locations: map<string, Location>, id: string): seq<string>
  {
    if id in locations then locations[id].connections else []
  }

  /** The locations one hop away from some location of `s`. */
  function Succ(locations: map<string, Location>, s: set<string>): set<string>
  {
    set u, v | u in s && u in locations && v in locations[u].connections :: v
  }

  lemma SuccOf(locations: map<string, Location>, s: set<string>, u: string, v: string)
    requires u in s && v in Conn(locations, u)
    ensures v in Succ(locations, s)
  {
  }

  /** The locations at most `n` hops from `src`. */
  function Within(locations: map<string, Location>, src: string, n: nat): (r: set<string>)
    ensures src in r
  {
    if n == 0 then {src}
    else Within(locations, src, n - 1) + Succ(locations, Within(locations, src, n - 1))
  }

  ghost predicate Reachable(locations: map<string, Location>, src: string, t: string)
  {
    exists n: nat :: t in Within(locations, src, n)
  }

  /** Every location any connection mentions, the keys and `src`: a finite
      set that holds every location reachable from `src`. */
  function Nodes(locations: map<string, Location>, src: string): set<string>
  {
    locations.Keys + Succ(locations, locations.Keys) + {src}
  }

  lemma {:induction false} WithinMonotone(locations: map<string, Location>, src: string, m: nat, n: nat)
    requires m <= n
    ensures Within(locations, src, m) <= Within(locations, src, n)
    decreases n - m
  {
    if m < n {
      WithinMonotone(locations, src, m, n - 1);
    }
  }

  /** A set that holds `src` and is closed under connections holds every
      location reachable from `src`. */
  lemma {:induction false} ClosedHoldsWithin(locations: map<string, Location>, src: string, s: set<string>, n: nat)
    requires src in s
    requires forall u, v :: u in s && v in Conn(locations, u) ==> v in s
    ensures Within(locations, src, n) <= s
  {
    if n > 0 {
      var w := Within(locations, src, n - 1);
      ClosedHoldsWithin(locations, src, s, n - 1);
      forall v | v in Succ(locations, w)
        ensures v in s
      {
        var u :| u in w && u in locations && v in locations[u].connections;
        assert v in Conn(locations, u);
      }
    }
  }

  /** A location reachable from `src` is one `Nodes` lists. */
  lemma {:induction false} WithinNodes(locations: map<string, Location>, src: string, n: nat)
    ensures Within(locations, src, n) <= Nodes(locations, src)
  {
    if n > 0 {
      WithinNodes(locations, src, n - 1);
      forall v | v in Succ(locations, Within(locations, src, n - 1))
        ensures v in Nodes(locations, src)
      {
        var u :| u in Within(locations, src, n - 1) && u in locations && v in locations[u].connections;
        SuccOf(locations, locations.Keys, u, v);
      }
    }
  }
}
