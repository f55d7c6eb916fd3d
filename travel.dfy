/** travel_system.py: the distance between two locations, looked up in
    either order with a default, the travel time it takes at a vessel's
    speed, clamped to between 2 and 10 seconds, and its display text. */
module Travel {
  import opened Common

  const DefaultDistance: int := 500

  /** TRAVEL_DISTANCES: one entry per connected pair. */
  const TravelDistances: map<(string, string), int> := map[
    ("nexus_prime", "starlight_waystation") := 150,
    ("nexus_prime", "outer_belts") := 200,
    ("nexus_prime", "meridian_gates") := 300,
    ("nexus_prime", "forge_station") := 250,
    ("nexus_prime", "titan_alpha") := 350,
    ("nexus_prime", "freeport_exchange") := 180,
    ("starlight_waystation", "outer_belts") := 100,
    ("starlight_waystation", "tranquil_belt") := 80,
    ("tranquil_belt", "harvest_fields") := 120,
    ("freeport_exchange", "titan_alpha") := 200,
    ("freeport_exchange", "aurora_reach") := 250,
    ("titan_alpha", "outer_belts") := 180,
    ("titan_alpha", "harvest_fields") := 150,
    ("titan_alpha", "sapphire_fields") := 200,
    ("titan_alpha", "aurora_reach") := 280,
    ("titan_alpha", "eden_prime") := 300,
    ("aurora_reach", "sapphire_fields") := 150,
    ("aurora_reach", "merchant_corridor") := 200,
    ("merchant_corridor", "prosperity_hub") := 250,
    ("merchant_corridor", "meridian_gates") := 300,
    ("prosperity_hub", "eden_prime") := 200,
    ("prosperity_hub", "crystal_gardens") := 350,
    ("eden_prime", "verdant_belt") := 120,
    ("eden_prime", "horizon_vista") := 180,
    ("crystal_gardens", "explorer_outpost") := 400,
    ("explorer_outpost", "uncharted_expanse") := 450,
    ("explorer_outpost", "meridian_gates") := 350,
    ("forge_station", "synthesis_planet") := 200,
    ("forge_station", "ironhold_sectors") := 350,
    ("forge_station", "binary_belt") := 150,
    ("synthesis_planet", "neural_network") := 250,
    ("synthesis_planet", "axiom_labs") := 300,
    ("synthesis_planet", "datacore_prime") := 280,
    ("synthesis_planet", "void_forge") := 400,
    ("neural_network", "axiom_labs") := 200,
    ("neural_network", "silicon_spire") := 220,
    ("neural_network", "datacore_prime") := 180,
    ("datacore_prime", "protocol_labs") := 250,
    ("datacore_prime", "binary_belt") := 150,
    ("datacore_prime", "silicon_spire") := 200,
    ("protocol_labs", "axiom_labs") := 180,
    ("protocol_labs", "quantum_drift") := 350,
    ("protocol_labs", "algorithm_expanse") := 280,
    ("quantum_drift", "chronos_expanse") := 300,
    ("quantum_drift", "singularity_reach") := 400,
    ("quantum_drift", "recursion_point") := 320,
    ("singularity_reach", "void_forge") := 350,
    ("singularity_reach", "axiom_labs") := 300,
    ("void_forge", "circuit_fields") := 180,
    ("void_forge", "convergence_nexus") := 250,
    ("silicon_spire", "algorithm_expanse") := 200,
    ("silicon_spire", "convergence_nexus") := 280,
    ("meridian_gates", "crimson_expanse") := 400,
    ("meridian_gates", "outer_belts") := 250,
    ("crimson_expanse", "ironhold_world") := 350,
    ("crimson_expanse", "ironhold_sectors") := 300,
    ("crimson_expanse", "bastion_prime") := 450,
    ("crimson_expanse", "contested_zone") := 400,
    ("ironhold_world", "ironhold_sectors") := 200,
    ("ironhold_world", "vanguard_citadel") := 350,
    ("ironhold_world", "forge_station") := 400,
    ("ironhold_sectors", "pristine_fields") := 250,
    ("ironhold_sectors", "warforge_belt") := 200,
    ("ironhold_sectors", "iron_expanse") := 280,
    ("bastion_prime", "garrison_outpost") := 300,
    ("bastion_prime", "warforge_belt") := 250,
    ("bastion_prime", "dreadnought_yards") := 400,
    ("bastion_prime", "supremacy_throne") := 500,
    ("garrison_outpost", "bloodstone_fields") := 280,
    ("garrison_outpost", "contested_zone") := 350,
    ("bloodstone_fields", "conquest_reach") := 320,
    ("conquest_reach", "vanguard_citadel") := 380,
    ("conquest_reach", "contested_zone") := 300,
    ("vanguard_citadel", "sovereign_belt") := 200,
    ("vanguard_citadel", "dreadnought_yards") := 350,
    ("vanguard_citadel", "supremacy_throne") := 400,
    ("dreadnought_yards", "iron_expanse") := 250,
    ("dreadnought_yards", "supremacy_throne") := 300,
    ("outer_belts", "shadow_nebula") := 400,
    ("shadow_nebula", "dead_zone_asteroids") := 500,
    ("shadow_nebula", "corsair_haven") := 450,
    ("shadow_nebula", "blackmarket_dock") := 400,
    ("shadow_nebula", "phantom_reach") := 550,
    ("corsair_haven", "dead_zone_asteroids") := 350,
    ("corsair_haven", "blackmarket_dock") := 200,
    ("corsair_haven", "dread_maw") := 600,
    ("phantom_reach", "reaver_belt") := 500,
    ("phantom_reach", "corsair_haven") := 550,
    ("reaver_belt", "dead_zone_asteroids") := 400,
    ("reaver_belt", "dread_maw") := 550,
    ("dread_maw", "abyss_edge") := 650,
    ("abyss_edge", "oblivion_gate") := 700,
    ("oblivion_gate", "dread_maw") := 600,
    ("oblivion_gate", "shadow_nebula") := 800,
    ("axiom_labs", "chronos_expanse") := 350,
    ("chronos_expanse", "synthesis_planet") := 300]

  /** get_travel_distance: the table's entry for `(a, b)`, else for
      `(b, a)`, else the default. */
  function TravelDistance(table: map<(string, string), int>, a: string, b: string): (d: int)
    ensures d == DefaultDistance || (a, b) in table || (b, a) in table
    ensures (a, b) in table ==> d == table[(a, b)]
  {
    if (a, b) in table then table[(a, b)]
    else if (b, a) in table then table[(b, a)]
    else DefaultDistance
  }

  function GetTravelDistance(a: string, b: string): int
  {
    TravelDistance(TravelDistances, a, b)
  }

  /** No pair is listed in both orders. */
  predicate OneOrderOnly(table: map<(string, string), int>)
  {
    forall p :: p in table ==> (p.1, p.0) !in table || p.1 == p.0
  }

  /** With every pair listed in one order only, the distance does not
      depend on the direction of travel. */
  lemma DistanceSymmetric(table: map<(string, string), int>, a: string, b: string)
    requires OneOrderOnly(table)
    ensures TravelDistance(table, a, b) == TravelDistance(table, b, a)
  {
    if (a, b) in table && (b, a) in table {
      assert ((a, b).1, (a, b).0) == (b, a);
    }
  }

  /** The speed factor: a tenth of the speed, at least 1. */
  function SpeedFactor(speed: real): (f: real)
    ensures f >= 1.0
    ensures speed <= 10.0 ==> f == 1.0
  {
    MaxR(speed / 10.0, 1.0)
  }

  /** calculate_travel_time: the distance over the speed factor, truncated,
      then clamped to [2, 10]. */
  function TravelTime(distance: real, speed: real): (t: int)
    ensures 2 <= t <= 10
    ensures speed <= 10.0 ==> t == Max(2, Min(Trunc(distance), 10))
  {
    Max(2, Min(Trunc(distance / SpeedFactor(speed)), 10))
  }

  /** Dividing a non-negative distance by a larger factor gives no more. */
  lemma DivideByMore(d: real, f1: real, f2: real)
    requires d >= 0.0 && 1.0 <= f1 <= f2
    ensures d / f2 <= d / f1
  {
    var q1, q2 := d / f1, d / f2;
    assert q1 * f1 == d && q2 * f2 == d;
    MulLe(q2, f1, f2);
    assert q2 * f1 <= d;
  }

  /** A faster vessel never takes longer over the same distance. */
  lemma TravelTimeSpeedMonotone(distance: real, speed1: real, speed2: real)
    requires distance >= 0.0 && speed1 <= speed2
    ensures TravelTime(distance, speed2) <= TravelTime(distance, speed1)
  {
    DivideByMore(distance, SpeedFactor(speed1), SpeedFactor(speed2));
    TruncMonotone(distance / SpeedFactor(speed2), distance / SpeedFactor(speed1));
  }

  /** A longer distance never takes less time at the same speed. */
  lemma TravelTimeDistanceMonotone(distance1: real, distance2: real, speed: real)
    requires distance1 <= distance2
    ensures TravelTime(distance1, speed) <= TravelTime(distance2, speed)
  {
    var f := SpeedFactor(speed);
    var q1, q2 := distance1 / f, distance2 / f;
    assert q1 * f == distance1 && q2 * f == distance2;
    if q1 > q2 {
      MulLt(f, q2, q1);
      assert false;
    }
    TruncMonotone(q1, q2);
  }

  /** format_travel_time: "Ns" under a minute, else "Mm Rs", or "Mm" on a
      whole minute. */
  function FormatTravelTime(seconds: int): (s: string)
    ensures |s| >= 2
  {
    if seconds < 60 then IntString(seconds) + "s"
    else
      var minutes, remaining := seconds / 60, seconds % 60;
      if remaining > 0 then IntString(minutes) + "m " + IntString(remaining) + "s"
      else IntString(minutes) + "m"
  }

  /** The number of leading decimal digits of `s`. */
  function DigitPrefix(s: string): (k: nat)
    ensures k <= |s| && IsDigits(s[..k])
    ensures k < |s| ==> !('0' <= s[k] <= '9')
  {
    if s == [] || !('0' <= s[0] <= '9') then 0
    else
      var k := DigitPrefix(s[1..]);
      assert forall j :: 0 <= j < k ==> s[..k + 1][j + 1] == s[1..][..k][j];
      k + 1
  }

  lemma {:induction false} DigitPrefixOf(ds: string, tail: string)
    requires IsDigits(ds)
    requires tail == [] || !('0' <= tail[0] <= '9')
    ensures DigitPrefix(ds + tail) == |ds|
  {
    if ds != [] {
      assert (ds + tail)[1..] == ds[1..] + tail;
      DigitPrefixOf(ds[1..], tail);
    }
  }

  /** Reads a display text back into seconds. */
  function ParseTravelTime(t: string): Option<int>
  {
    var k := DigitPrefix(t);
    if k == 0 then None else ParseUnit(DigitsValue(t[..k]), t[k..])
  }

  /** Reads what follows the leading number `n`: a unit, or minutes then seconds. */
  function ParseUnit(n: int, rest: string): Option<int>
  {
    if |rest| == 1 && rest[0] == 's' then Some(n)
    else if |rest| == 1 && rest[0] == 'm' then Some(n * 60)
    else if |rest| >= 2 && rest[0] == 'm' && rest[1] == ' ' then ParseSeconds(n, rest[2..])
    else None
  }

  function ParseSeconds(minutes: int, r: string): Option<int>
  {
    var j := DigitPrefix(r);
    if j > 0 && |r| == j + 1 && r[j] == 's' then Some(minutes * 60 + DigitsValue(r[..j])) else None
  }

  /** The display text of a non-negative time determines it: reading it back
      gives the same number of seconds. */
  lemma FormatRoundTrip(seconds: int)
    requires seconds >= 0
    ensures ParseTravelTime(FormatTravelTime(seconds)) == Some(seconds)
  {
    if seconds < 60 {
      SecondsRoundTrip(seconds);
    } else if seconds % 60 > 0 {
      MinutesSecondsRoundTrip(seconds);
    } else {
      MinutesRoundTrip(seconds);
    }
  }

  lemma SecondsRoundTrip(seconds: int)
    requires 0 <= seconds < 60
    ensures ParseTravelTime(FormatTravelTime(seconds)) == Some(seconds)
  {
    var d := IntString(seconds);
    assert FormatTravelTime(seconds) == d + "s";
    ParseLead(d, "s");
    assert ParseUnit(DigitsValue(d), "s") == Some(DigitsValue(d));
    IntStringValue(seconds);
  }

  lemma MinutesRoundTrip(seconds: int)
    requires seconds >= 60 && seconds % 60 == 0
    ensures ParseTravelTime(FormatTravelTime(seconds)) == Some(seconds)
  {
    var d := IntString(seconds / 60);
    assert FormatTravelTime(seconds) == d + "m";
    ParseLead(d, "m");
    assert ParseUnit(DigitsValue(d), "m") == Some(DigitsValue(d) * 60);
    IntStringValue(seconds / 60);
  }

  lemma MinutesSecondsRoundTrip(seconds: int)
    requires seconds >= 60 && seconds % 60 > 0
    ensures ParseTravelTime(FormatTravelTime(seconds)) == Some(seconds)
  {
    var dm, dr := IntString(seconds / 60), IntString(seconds % 60);
    var rest := "m " + dr + "s";
    assert FormatTravelTime(seconds) == dm + rest;
    ParseLead(dm, rest);
    ParseMinutesSeconds(DigitsValue(dm), dr);
    IntStringValue(seconds / 60);
    IntStringValue(seconds % 60);
  }

  /** A text that opens with a number is read by its unit part. */
  lemma ParseLead(d: string, rest: string)
    requires IsDigits(d) && d != [] && rest != [] && !('0' <= rest[0] <= '9')
    ensures ParseTravelTime(d + rest) == ParseUnit(DigitsValue(d), rest)
  {
    var t := d + rest;
    DigitPrefixOf(d, rest);
    assert t[..|d|] == d && t[|d|..] == rest;
  }

  /** "m " then seconds reads as the minutes plus those seconds. */
  lemma ParseMinutesSeconds(n: int, dr: string)
    requires IsDigits(dr) && dr != []
    ensures ParseUnit(n, "m " + dr + "s") == Some(n * 60 + DigitsValue(dr))
  {
    var rest := "m " + dr + "s";
    assert rest[0] == 'm' && rest[1] == ' ' && rest[2..] == dr + "s";
    var r := dr + "s";
    DigitPrefixOf(dr, "s");
    assert r[..|dr|] == dr && r[|dr|] == 's';
  }
}
