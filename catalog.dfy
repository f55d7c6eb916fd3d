/** The static game data of data.py: the refining yield table, the raw and
    refined resource tables, the generated ship classes and the shape of the
    item and recipe tables. The large item and recipe tables are not written
    out: they reach the rest of the model as a `Catalog` value. */
module Catalog {
  import opened Common

  // ---------------------------------------------------------------- resources

  datatype ResourceDef = ResourceDef(
    name: string,
    basePrice: int,
    volume: real,
    rarity: string,
    miningTier: Option<int>,
    refinesTo: Option<string>)

  /** REFINING_YIELD_RANGES: rarity -> (min yield, max yield). */
  const YieldRanges: map<string, (real, real)> := map[
    "common" := (0.80, 0.95),
    "uncommon" := (0.70, 0.85),
    "rare" := (0.60, 0.75),
    "very_rare" := (0.55, 0.65),
    "legendary" := (0.50, 0.60)]

  /** `REFINING_YIELD_RANGES.get(rarity, (0.7, 0.9))` as refine_ore reads it. */
  function YieldRange(rarity: string): (r: (real, real))
    ensures 0.5 <= r.0 < r.1 <= 0.95
    ensures rarity in YieldRanges ==> r == YieldRanges[rarity]
    ensures rarity !in YieldRanges ==> r == (0.7, 0.9)
  {
    if rarity in YieldRanges then YieldRanges[rarity] else (0.7, 0.9)
  }

  const RawResources: map<string, ResourceDef> := map[
    "raw_voltium" := ResourceDef("Raw Voltium Ore", 100, 1.0, "common", Some(1), Some("voltium")),
    "raw_nexium" := ResourceDef("Raw Nexium Gas", 600, 2.0, "uncommon", Some(1), Some("nexium")),
    "raw_chronite" := ResourceDef("Raw Chronite Crystal", 4000, 0.5, "rare", Some(2), Some("chronite")),
    "raw_titanite" := ResourceDef("Raw Titanite Ore", 200, 3.0, "common", Some(1), Some("titanite")),
    "raw_synthcrystal" := ResourceDef("Raw Synthcrystal", 10000, 0.1, "very_rare", Some(3), Some("synthcrystal")),
    "raw_darkwater" := ResourceDef("Raw Darkwater", 30000, 0.5, "legendary", Some(3), Some("darkwater")),
    "raw_neuralfiber" := ResourceDef("Raw Neural Fiber", 2500, 0.2, "rare", Some(2), Some("neural_fiber")),
    "raw_quantum_dust" := ResourceDef("Raw Quantum Dust", 12000, 0.1, "very_rare", Some(3), Some("quantum_dust"))]

  const RefinedResources: map<string, ResourceDef> := map[
    "voltium" := ResourceDef("Voltium Ingot", 200, 0.4, "common", None, None),
    "nexium" := ResourceDef("Nexium Fuel", 1200, 0.7, "uncommon", None, None),
    "chronite" := ResourceDef("Chronite Wafer", 10000, 0.15, "rare", None, None),
    "titanite" := ResourceDef("Titanite Alloy", 350, 1.2, "common", None, None),
    "synthcrystal" := ResourceDef("Synthcrystal Matrix", 22000, 0.025, "very_rare", None, None),
    "darkwater" := ResourceDef("Darkwater Essence", 65000, 0.1, "legendary", None, None),
    "neural_fiber" := ResourceDef("Neural Fiber Mesh", 5000, 0.06, "rare", None, None),
    "quantum_dust" := ResourceDef("Stabilized Quantum Dust", 30000, 0.025, "very_rare", None, None),
    "plasmic_fuel" := ResourceDef("Plasmic Fuel Cell", 50, 1.0, "common", None, None)]

  /** RESOURCES = {**RAW_RESOURCES, **REFINED_RESOURCES}. */
  const Resources: map<string, ResourceDef> := RawResources + RefinedResources

  /** The keys of RESOURCES in the dictionary's iteration order. */
  const ResourceOrder: seq<string> := [
    "raw_voltium", "raw_nexium", "raw_chronite", "raw_titanite",
    "raw_synthcrystal", "raw_darkwater", "raw_neuralfiber", "raw_quantum_dust",
    "voltium", "nexium", "chronite", "titanite", "synthcrystal", "darkwater",
    "neural_fiber", "quantum_dust", "plasmic_fuel"]

  /** Every yield range lies inside [0.5, 0.95] with its minimum below its maximum. */
  lemma YieldRangesWellFormed()
    ensures forall r :: r in YieldRanges ==> 0.5 <= YieldRanges[r].0 < YieldRanges[r].1 <= 0.95
  {
  }

  /** Every raw resource refines to a key of REFINED_RESOURCES, has a rarity
      of the yield table and a positive volume, and the raw and refined tables
      do not share a key. */
  lemma ResourceTablesConsistent()
    ensures forall k :: k in RawResources ==>
      RawResources[k].refinesTo.Some? && RawResources[k].refinesTo.value in RefinedResources
    ensures forall k :: k in RawResources ==> RawResources[k].rarity in YieldRanges && RawResources[k].volume > 0.0
    ensures RawResources.Keys !! RefinedResources.Keys
  {
    RawRefinesToRefined();
    RawRaritiesKnown();
    TablesDisjoint();
  }

  lemma RawRefinesToRefined()
    ensures forall k :: k in RawResources ==>
      RawResources[k].refinesTo.Some? && RawResources[k].refinesTo.value in RefinedResources
  {
  }

  lemma RawRaritiesKnown()
    ensures forall k :: k in RawResources ==> RawResources[k].rarity in YieldRanges && RawResources[k].volume > 0.0
  {
  }

  lemma TablesDisjoint()
    ensures RawResources.Keys !! RefinedResources.Keys
  {
  }

  /** ResourceOrder lists exactly the keys of RESOURCES, each once, and every
      resource has a positive base price and volume. */
  lemma ResourceOrderMatches()
    ensures forall i :: 0 <= i < |ResourceOrder| ==> ResourceOrder[i] in Resources
    ensures forall k :: k in Resources ==> k in ResourceOrder
    ensures forall i, j :: 0 <= i < j < |ResourceOrder| ==> ResourceOrder[i] != ResourceOrder[j]
    ensures forall k :: k in Resources ==> Resources[k].basePrice > 0 && Resources[k].volume > 0.0
  {
    ResourceOrderDistinct();
    ResourcesPositive();
  }

  lemma ResourcesPositive()
    ensures forall k :: k in Resources ==> Resources[k].basePrice > 0 && Resources[k].volume > 0.0
  {
  }

  // ---------------------------------------------------------------- ship classes

  datatype TypeStats = TypeStats(
    name: string, hullHp: int, shield: int, armor: int, speed: int, cargo: int,
    weaponSlots: int, defenseSlots: int, utilitySlots: int, engineSlots: int, costBase: int)

  datatype VariantStats = VariantStats(key: string, multiplier: real, costMult: real, level: int, nameSuffix: string)

  datatype TierStats = TierStats(key: string, tierMult: real, tierLevel: int, tierNum: int, tierName: string)

  datatype ModuleSlots = ModuleSlots(weapon: int, defense: int, utility: int, engine: int)

  /** One entry of VESSEL_CLASSES (the fields the core reads). */
  datatype ShipClass = ShipClass(
    name: string,
    cost: int,
    hullHp: int,
    shieldCapacity: int,
    armorRating: int,
    cargoCapacity: int,
    baseSpeed: int,
    moduleSlots: ModuleSlots,
    classType: string,
    variant: string,
    tier: string,
    tierNum: int,
    levelRequirement: int)

  /** The nine base types of generate_ship_classes, mothership included. */
  const ShipTypes: seq<TypeStats> := [
    TypeStats("scout", 500, 300, 50, 180, 200, 1, 1, 2, 1, 100000),
    TypeStats("fighter", 800, 500, 100, 160, 150, 2, 1, 1, 1, 250000),
    TypeStats("hauler", 2000, 400, 200, 60, 3000, 1, 2, 3, 1, 400000),
    TypeStats("cruiser", 3000, 1500, 300, 100, 500, 3, 2, 2, 1, 1200000),
    TypeStats("destroyer", 5000, 2000, 500, 80, 800, 4, 3, 2, 2, 2500000),
    TypeStats("battleship", 10000, 4000, 800, 60, 1200, 6, 4, 3, 2, 6000000),
    TypeStats("carrier", 7000, 3000, 600, 70, 2000, 3, 4, 6, 2, 5000000),
    TypeStats("refinery", 4000, 1000, 400, 50, 4000, 1, 3, 8, 1, 8000000),
    TypeStats("mothership", 15000, 5000, 1000, 40, 6000, 4, 6, 10, 2, 12000000)]

  const Variants: seq<VariantStats> := [
    VariantStats("standard", 1.0, 1.0, 1, "Standard"),
    VariantStats("advanced", 1.2, 1.3, 5, "Advanced"),
    VariantStats("elite", 1.5, 1.7, 10, "Elite"),
    VariantStats("specialized", 1.8, 2.2, 15, "Specialized")]

  const Tiers: seq<TierStats> := [
    TierStats("mk1", 1.0, 0, 1, "MK1"),
    TierStats("mk2", 1.8, 7, 2, "MK2"),
    TierStats("mk3", 3.0, 14, 3, "MK3")]

  function UpperChar(c: char): char
  {
    if 'a' <= c <= 'z' then (c as int - 32) as char else c
  }

  function LowerChar(c: char): char
  {
    if 'A' <= c <= 'Z' then (c as int + 32) as char else c
  }

  function Lower(s: string): (r: string)
    ensures |r| == |s|
  {
    if s == [] then [] else [LowerChar(s[0])] + Lower(s[1..])
  }

  /** Python's `str.capitalize` on ASCII text. */
  function Capitalize(s: string): (r: string)
    ensures |r| == |s|
  {
    if s == [] then [] else [UpperChar(s[0])] + Lower(s[1..])
  }

  /** The id `f"{ship_type}_{variant_key}_{tier_key}"`. */
  function ShipId(shipType: string, variant: string, tier: string): string
  {
    shipType + "_" + (variant + "_" + tier)
  }

  function ShipIdAt(a: int, b: int, c: int): string
    requires 0 <= a < |ShipTypes| && 0 <= b < |Variants| && 0 <= c < |Tiers|
  {
    ShipId(ShipTypes[a].name, Variants[b].key, Tiers[c].key)
  }

  /** The entry the generator builds for one (type, variant, tier). */
  function MakeShip(t: TypeStats, v: VariantStats, k: TierStats): ShipClass
  {
    var combined := v.multiplier * k.tierMult;
    ShipClass(
      v.nameSuffix + " " + Capitalize(t.name) + " " + k.tierName,
      Trunc(t.costBase as real * v.costMult * k.tierMult),
      Trunc(t.hullHp as real * combined),
      Trunc(t.shield as real * combined),
      Trunc(t.armor as real * combined),
      Trunc(t.cargo as real * k.tierMult),
      Trunc(t.speed as real * (1.0 + (v.multiplier - 1.0) * 0.3)),
      ModuleSlots(t.weaponSlots, t.defenseSlots, t.utilitySlots, t.engineSlots),
      t.name, v.key, k.key, k.tierNum,
      v.level + k.tierLevel)
  }

  /** What a generated entry promises: the level requirement is the variant
      level plus the tier level, the cargo capacity depends on type and tier
      only, the slots are the type's, and the tier number is 1, 2 or 3. */
  lemma MakeShipProperties(a: nat, b: nat, b': nat, c: nat)
    requires a < |ShipTypes| && b < |Variants| && b' < |Variants| && c < |Tiers|
    ensures MakeShip(ShipTypes[a], Variants[b], Tiers[c]).levelRequirement == Variants[b].level + Tiers[c].tierLevel
    ensures MakeShip(ShipTypes[a], Variants[b], Tiers[c]).cargoCapacity == MakeShip(ShipTypes[a], Variants[b'], Tiers[c]).cargoCapacity
    ensures MakeShip(ShipTypes[a], Variants[b], Tiers[c]).moduleSlots ==
      ModuleSlots(ShipTypes[a].weaponSlots, ShipTypes[a].defenseSlots, ShipTypes[a].utilitySlots, ShipTypes[a].engineSlots)
    ensures MakeShip(ShipTypes[a], Variants[b], Tiers[c]).tierNum in {1, 2, 3}
    ensures 1 <= MakeShip(ShipTypes[a], Variants[b], Tiers[c]).levelRequirement <= 29
  {
  }

  /** Splitting at the first separator: a prefix without '_' is determined. */
  lemma {:induction false} SplitAtSeparator(a: string, r1: string, b: string, r2: string)
    requires '_' !in a && '_' !in b
    requires a + "_" + r1 == b + "_" + r2
    ensures a == b && r1 == r2
  {
    var s := a + "_" + r1;
    assert s[|a|] == '_';
    assert s == b + "_" + r2;
    assert s[|b|] == '_';
    assert |a| == |b|;
    assert a == s[..|a|] == b;
    assert r1 == s[|a| + 1..] == r2;
  }

  lemma TypeNamesHaveNoSeparator()
    ensures forall a :: 0 <= a < |ShipTypes| ==> '_' !in ShipTypes[a].name
  {
  }

  lemma VariantKeysHaveNoSeparator()
    ensures forall b :: 0 <= b < |Variants| ==> '_' !in Variants[b].key
  {
  }

  /** Distinct (type, variant, tier) triples give distinct ids. */
  lemma ShipIdInjective(a: int, b: int, c: int, a': int, b': int, c': int)
    requires 0 <= a < |ShipTypes| && 0 <= b < |Variants| && 0 <= c < |Tiers|
    requires 0 <= a' < |ShipTypes| && 0 <= b' < |Variants| && 0 <= c' < |Tiers|
    requires ShipIdAt(a, b, c) == ShipIdAt(a', b', c')
    ensures a == a' && b == b' && c == c'
  {
    TypeNamesHaveNoSeparator();
    VariantKeysHaveNoSeparator();
    SplitAtSeparator(ShipTypes[a].name, Variants[b].key + "_" + Tiers[c].key,
                     ShipTypes[a'].name, Variants[b'].key + "_" + Tiers[c'].key);
    SplitAtSeparator(Variants[b].key, Tiers[c].key, Variants[b'].key, Tiers[c'].key);
  }

  /** The generator's loop order: the n-th entry built (0 <= n < 108) is
      type n / 12, variant (n % 12) / 3 and tier n % 3. */
  function IdOf(n: int): string
    requires 0 <= n < 108
  {
    ShipIdAt(n / 12, (n % 12) / 3, n % 3)
  }

  function ShipOf(n: int): ShipClass
    requires 0 <= n < 108
  {
    MakeShip(ShipTypes[n / 12], Variants[(n % 12) / 3], Tiers[n % 3])
  }

  lemma IndexOfTriple(a: int, b: int, c: int)
    requires 0 <= a < 9 && 0 <= b < 4 && 0 <= c < 3
    ensures 0 <= 12 * a + 3 * b + c < 108
    ensures (12 * a + 3 * b + c) / 12 == a
    ensures ((12 * a + 3 * b + c) % 12) / 3 == b
    ensures (12 * a + 3 * b + c) % 3 == c
  {
  }

  lemma TripleOf(n: int) returns (a: int, b: int, c: int)
    requires 0 <= n < 108
    ensures 0 <= a < 9 && 0 <= b < 4 && 0 <= c < 3
    ensures IdOf(n) == ShipIdAt(a, b, c)
  {
    a, b, c := n / 12, (n % 12) / 3, n % 3;
  }

  lemma IdOfInjective(n: int, m: int)
    requires 0 <= n < 108 && 0 <= m < 108
    requires IdOf(n) == IdOf(m)
    ensures n == m
  {
    ShipIdInjective(n / 12, (n % 12) / 3, n % 3, m / 12, (m % 12) / 3, m % 3);
  }

  /** The ids and entries in the order the loops build them. */
  ghost function Ids(): (ids: seq<string>)
    ensures |ids| == 108
  {
    seq(108, n requires 0 <= n < 108 => IdOf(n))
  }

  ghost function Ships(): (vals: seq<ShipClass>)
    ensures |vals| == 108
  {
    seq(108, n requires 0 <= n < 108 => ShipOf(n))
  }

  lemma At(n: int)
    requires 0 <= n < 108
    ensures Ids()[n] == IdOf(n) && Ships()[n] == ShipOf(n)
  {
  }

  lemma IdsDistinct()
    ensures forall n, m :: 0 <= n < m < 108 ==> Ids()[n] != Ids()[m]
  {
    forall n, m | 0 <= n < m < 108
      ensures Ids()[n] != Ids()[m]
    {
      if Ids()[n] == Ids()[m] {
        At(n);
        At(m);
        IdOfInjective(n, m);
      }
    }
  }

  /** The entry built at (a, b, c) is the one at position 12a + 3b + c. */
  lemma PositionOf(a: int, b: int, c: int)
    requires 0 <= a < 9 && 0 <= b < 4 && 0 <= c < 3
    ensures 0 <= 12 * a + 3 * b + c < 108
    ensures Ids()[12 * a + 3 * b + c] == ShipIdAt(a, b, c)
    ensures Ships()[12 * a + 3 * b + c] == MakeShip(ShipTypes[a], Variants[b], Tiers[c])
  {
    IndexOfTriple(a, b, c);
    At(12 * a + 3 * b + c);
  }

  /** `ships` holds exactly the first `count` (id, entry) pairs. */
  ghost predicate Filled(ships: map<string, ShipClass>, ids: seq<string>, vals: seq<ShipClass>, count: int)
    requires |ids| == |vals|
  {
    0 <= count <= |ids| &&
    |ships| == count &&
    (forall n :: 0 <= n < count ==> ids[n] in ships && ships[ids[n]] == vals[n]) &&
    (forall id :: id in ships ==> exists n :: 0 <= n < count && id == ids[n])
  }

  /** Adding the next pair of a list of distinct ids keeps `Filled`. */
  lemma FilledStep(ships: map<string, ShipClass>, ids: seq<string>, vals: seq<ShipClass>, count: int)
    requires |ids| == |vals|
    requires forall n, m :: 0 <= n < m < |ids| ==> ids[n] != ids[m]
    requires Filled(ships, ids, vals, count) && count < |ids|
    ensures ids[count] !in ships
    ensures Filled(ships[ids[count] := vals[count]], ids, vals, count + 1)
  {
    var ships' := ships[ids[count] := vals[count]];
    forall id | id in ships'
      ensures exists n :: 0 <= n < count + 1 && id == ids[n]
    {
      if id != ids[count] {
        var n :| 0 <= n < count && id == ids[n];
      }
    }
  }

  /** Once all 108 pairs are in, the dictionary is keyed by the (type, variant, tier) ids. */
  lemma FilledComplete(ships: map<string, ShipClass>)
    requires Filled(ships, Ids(), Ships(), 108)
    ensures |ships| == 108
    ensures forall a, b, c :: 0 <= a < |ShipTypes| && 0 <= b < |Variants| && 0 <= c < |Tiers| ==>
      ShipIdAt(a, b, c) in ships && ships[ShipIdAt(a, b, c)] == MakeShip(ShipTypes[a], Variants[b], Tiers[c])
    ensures forall id :: id in ships ==>
      exists a, b, c :: 0 <= a < |ShipTypes| && 0 <= b < |Variants| && 0 <= c < |Tiers| && id == ShipIdAt(a, b, c)
  {
    forall a, b, c | 0 <= a < |ShipTypes| && 0 <= b < |Variants| && 0 <= c < |Tiers|
      ensures ShipIdAt(a, b, c) in ships && ships[ShipIdAt(a, b, c)] == MakeShip(ShipTypes[a], Variants[b], Tiers[c])
    {
      PositionOf(a, b, c);
    }
    forall id | id in ships
      ensures exists a, b, c :: 0 <= a < |ShipTypes| && 0 <= b < |Variants| && 0 <= c < |Tiers| && id == ShipIdAt(a, b, c)
    {
      var n :| 0 <= n < 108 && id == Ids()[n];
      At(n);
      var a, b, c := TripleOf(n);
      assert id == ShipIdAt(a, b, c);
    }
  }

  /** The innermost loop of generate_ship_classes: the three tiers of one
      (type, variant) pair, added in order. */
  method AddTiers(ships: map<string, ShipClass>, i: int, j: int) returns (r: map<string, ShipClass>)
    requires 0 <= i < |ShipTypes| && 0 <= j < |Variants|
    requires Filled(ships, Ids(), Ships(), 12 * i + 3 * j)
    ensures Filled(r, Ids(), Ships(), 12 * i + 3 * j + 3)
  {
    ghost var ids, vals := Ids(), Ships();
    IdsDistinct();
    r := ships;
    var k := 0;
    while k < |Tiers|
      invariant 0 <= k <= |Tiers|
      invariant Filled(r, ids, vals, 12 * i + 3 * j + k)
    {
      PositionOf(i, j, k);
      FilledStep(r, ids, vals, 12 * i + 3 * j + k);
      r := r[ShipIdAt(i, j, k) := MakeShip(ShipTypes[i], Variants[j], Tiers[k])];
      k := k + 1;
    }
  }

  /** generate_ship_classes: the three nested loops filling the dictionary.
      The result has one entry per (type, variant, tier): 9 x 4 x 3 = 108. */
  method GenerateShipClasses() returns (ships: map<string, ShipClass>)
    ensures |ships| == |ShipTypes| * |Variants| * |Tiers| == 108
    ensures forall a, b, c :: 0 <= a < |ShipTypes| && 0 <= b < |Variants| && 0 <= c < |Tiers| ==>
      ShipIdAt(a, b, c) in ships && ships[ShipIdAt(a, b, c)] == MakeShip(ShipTypes[a], Variants[b], Tiers[c])
    ensures forall id :: id in ships ==>
      exists a, b, c :: 0 <= a < |ShipTypes| && 0 <= b < |Variants| && 0 <= c < |Tiers| && id == ShipIdAt(a, b, c)
  {
    ghost var ids, vals := Ids(), Ships();
    ships := map[];
    ghost var n := 0;
    var i := 0;
    while i < |ShipTypes|
      invariant 0 <= i <= |ShipTypes| && n == 12 * i
      invariant Filled(ships, ids, vals, n)
    {
      var j := 0;
      while j < |Variants|
        invariant 0 <= j <= |Variants| && n == 12 * i + 3 * j
        invariant Filled(ships, ids, vals, n)
      {
        ships := AddTiers(ships, i, j);
        n := n + 3;
        j := j + 1;
      }
      i := i + 1;
    }
    FilledComplete(ships);
  }

  // ---------------------------------------------------------------- items and recipes

  /** An entry of MODULES, MODULE_COMPONENTS or SHIP_COMPONENTS (the fields the core reads). */
  datatype ItemDef = ItemDef(
    name: string,
    levelRequirement: Option<int>,
    manufacturingCost: Option<int>,
    cost: Option<int>)

  /** A recipe: `materials` or `components` (their lines in declaration
      order), a build time and a skill gate, each of which may be absent. */
  datatype Recipe = Recipe(
    materials: Option<seq<(string, int)>>,
    components: Option<seq<(string, int)>>,
    time: Option<real>,
    skillRequirement: Option<int>)

  /** An entry of LOCATIONS (the fields the core reads). */
  datatype Location = Location(
    name: string,
    services: seq<string>,
    resources: seq<string>,
    connections: seq<string>)

  predicate ExactlyOneInputKind(r: Recipe)
  {
    r.materials.Some? != r.components.Some?
  }

  /** The resource, item and recipe tables, injected once instead of read as globals. */
  datatype Catalog = Catalog(
    rawResources: map<string, ResourceDef>,
    refinedResources: map<string, ResourceDef>,
    resourceOrder: seq<string>,
    modules: map<string, ItemDef>,
    moduleComponents: map<string, ItemDef>,
    shipComponents: map<string, ItemDef>,
    vessels: map<string, ShipClass>,
    vesselOrder: seq<string>,
    moduleRecipes: map<string, Recipe>,
    moduleComponentRecipes: map<string, Recipe>,
    componentRecipes: map<string, Recipe>,
    shipRecipes: map<string, Recipe>,
    commodityPrices: map<string, int>)
  {
    /** RESOURCES: the raw and the refined resources together. */
    function AllResources(): map<string, ResourceDef>
    {
      rawResources + refinedResources
    }

    /** The resource tables as data.py lays them out: disjoint raw and
        refined tables, listed once each in `resourceOrder`, with positive
        prices and volumes, every raw ore refining to a refined resource. */
    predicate ResourcesWellFormed()
    {
      rawResources.Keys !! refinedResources.Keys &&
      OrderListsResources() &&
      (forall i, j :: 0 <= i < j < |resourceOrder| ==> resourceOrder[i] != resourceOrder[j]) &&
      PricesPositive() &&
      (forall k :: k in rawResources ==>
        rawResources[k].refinesTo.Some? && rawResources[k].refinesTo.value in refinedResources)
    }

    /** `resourceOrder` names every resource and nothing else. */
    predicate OrderListsResources()
    {
      (forall i :: 0 <= i < |resourceOrder| ==> resourceOrder[i] in AllResources()) &&
      (forall k :: k in AllResources() ==> k in resourceOrder)
    }

    predicate PricesPositive()
    {
      forall k :: k in AllResources() ==> AllResources()[k].basePrice > 0 && AllResources()[k].volume > 0.0
    }

    /** vesselOrder lists the keys of VESSEL_CLASSES once each. */
    predicate VesselOrderValid()
    {
      (forall i, j :: 0 <= i < j < |vesselOrder| ==> vesselOrder[i] != vesselOrder[j]) &&
      (forall id :: id in vessels ==> id in vesselOrder) &&
      (forall i :: 0 <= i < |vesselOrder| ==> vesselOrder[i] in vessels)
    }

    predicate RecipesWellFormed()
    {
      (forall id :: id in moduleRecipes ==> ExactlyOneInputKind(moduleRecipes[id])) &&
      (forall id :: id in moduleComponentRecipes ==> ExactlyOneInputKind(moduleComponentRecipes[id])) &&
      (forall id :: id in componentRecipes ==> ExactlyOneInputKind(componentRecipes[id])) &&
      (forall id :: id in shipRecipes ==> ExactlyOneInputKind(shipRecipes[id]))
    }
  }

  /** A few entries copied from the tables, enough for worked scenarios:
      the Pulse Cannon T1 module, the three module components its recipe
      names, one ship component and the smallest generated ship. */
  function SampleCatalog(): Catalog
  {
    Catalog(
      RawResources,
      RefinedResources,
      ResourceOrder,
      map[
        "pulse_cannon_t1" := ItemDef("Pulse Cannon T1", Some(1), Some(6500), Some(9000))],
      map[
        "energy_cell_t1" := ItemDef("Energy Cell T1", None, None, None),
        "targeting_chip_t1" := ItemDef("Targeting Chip T1", None, None, None),
        "weapon_barrel" := ItemDef("Weapon Barrel", None, None, None)],
      map[
        "battleship_computer_system_t1" := ItemDef("Battleship Computer System T1", Some(1), Some(88900), Some(127000))],
      map[
        "scout_standard_mk1" := MakeShip(ShipTypes[0], Variants[0], Tiers[0])],
      ["scout_standard_mk1"],
      map[
        "pulse_cannon_t1" := Recipe(None, Some([("energy_cell_t1", 2), ("targeting_chip_t1", 1), ("weapon_barrel", 1)]), Some(120.0), Some(0))],
      map[
        "energy_cell_t1" := Recipe(Some([("voltium", 2), ("plasmic_fuel", 1)]), None, Some(30.0), Some(0)),
        "targeting_chip_t1" := Recipe(Some([("neural_fiber", 1), ("voltium", 1)]), None, Some(40.0), Some(0)),
        "weapon_barrel" := Recipe(Some([("titanite", 3), ("nexium", 1)]), None, Some(45.0), Some(0))],
      map[
        "battleship_computer_system_t1" := Recipe(Some([("titanite", 50), ("voltium", 20), ("nexium", 10)]), None, Some(420.0), Some(0))],
      map[],
      map["protein_rations" := 15])
  }

  lemma SampleCatalogRecipes()
    ensures SampleCatalog().RecipesWellFormed()
  {
  }

  lemma SampleCatalogVessels()
    ensures SampleCatalog().VesselOrderValid()
  {
  }

  /** Any catalog built on the transcribed resource tables has well-formed resources. */
  lemma TablesWellFormed(c: Catalog)
    requires c.rawResources == RawResources && c.refinedResources == RefinedResources
    requires c.resourceOrder == ResourceOrder
    ensures c.ResourcesWellFormed()
  {
    assert c.AllResources() == Resources;
    ResourceTablesConsistent();
    ResourceOrderMatches();
  }

  /** The transcribed resource tables are well formed. */
  lemma SampleCatalogResources()
    ensures SampleCatalog().ResourcesWellFormed()
  {
    TablesWellFormed(SampleCatalog());
  }

  lemma ResourceOrderDistinct()
    ensures forall i, j :: 0 <= i < j < |ResourceOrder| ==> ResourceOrder[i] != ResourceOrder[j]
  {
  }
}
