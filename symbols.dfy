/** symbols.py: the fallback symbol of an item by category, with the
    prefix-or-substring search of the module table, and the colour of a
    rarity. Each table is an association list in declaration order, as a
    Python dict iterates. */
module Symbols {
  import opened Common

  type Table = seq<(string, string)>

  const ResourceSymbols: Table := [
    ("raw_voltium", "⚡"),
    ("raw_nexium", "💨"),
    ("raw_chronite", "🔷"),
    ("raw_titanite", "⬛"),
    ("raw_synthcrystal", "💎"),
    ("raw_darkwater", "🌊"),
    ("raw_neuralfiber", "🧬"),
    ("raw_quantum_dust", "✨"),
    ("voltium", "🔋"),
    ("nexium", "🛢️"),
    ("chronite", "💠"),
    ("titanite", "🔩"),
    ("synthcrystal", "💠"),
    ("darkwater", "🌀"),
    ("neural_fiber", "🧵"),
    ("quantum_dust", "⭐"),
    ("plasmic_fuel", "⚗️")]

  const ShipSymbols: Table := [
    ("scout", "🔭"),
    ("fighter", "✈️"),
    ("hauler", "📦"),
    ("cruiser", "🚢"),
    ("destroyer", "⚔️"),
    ("battleship", "🏰"),
    ("carrier", "🎯"),
    ("refinery", "⚙️"),
    ("mothership", "🏛️"),
    ("corvette", "🚀"),
    ("frigate", "🛸")]

  const ModuleSymbols: Table := [
    ("weapon", "⚔️"),
    ("pulse_cannon", "🔫"),
    ("plasma_lance", "🔥"),
    ("void_torpedo", "💣"),
    ("railgun", "⚡"),
    ("ion_beam", "⚡"),
    ("shield", "🛡️"),
    ("shield_generator", "🛡️"),
    ("armor", "🔰"),
    ("hull_frame", "🔰"),
    ("engine", "🔥"),
    ("thruster", "🚀"),
    ("thruster_array", "🚀"),
    ("scanner", "📡"),
    ("sensor", "📡"),
    ("sensor_suite", "📡"),
    ("computer", "💻"),
    ("computer_system", "💻"),
    ("power_core", "⚡"),
    ("mining_laser", "⛏️"),
    ("refining_module", "⚙️"),
    ("manufacturing", "🏭"),
    ("cargo_hold", "📦"),
    ("life_support", "💨"),
    ("weapon_mount", "🎯")]

  const LocationSymbols: Table := [
    ("station", "🏭"),
    ("planet", "🌍"),
    ("asteroid_belt", "☄️"),
    ("nebula", "🌌"),
    ("outpost", "🏘️"),
    ("sector", "📍"),
    ("expanse", "🌠"),
    ("void", "⚫"),
    ("gate", "🚪")]

  const FactionSymbols: Table := [
    ("meridian_collective", "⚖️"),
    ("technocrat_union", "⚙️"),
    ("void_walkers", "👻"),
    ("free_traders", "💰"),
    ("crimson_fleet", "🏴‍☠️"),
    ("stellar_guard", "🛡️"),
    ("outcasts", "💀")]

  const UiSymbols: Table := [
    ("credits", "💰"),
    ("fuel", "⛽"),
    ("cargo", "📦"),
    ("health", "❤️"),
    ("shield_status", "🛡️"),
    ("danger", "⚠️"),
    ("hostile", "☠️"),
    ("friendly", "🤝"),
    ("neutral", "➖"),
    ("locked", "🔒"),
    ("unlocked", "🔓"),
    ("level", "⭐"),
    ("experience", "📊"),
    ("skill", "🎯"),
    ("quest", "📜"),
    ("contract", "📋"),
    ("combat", "⚔️"),
    ("trade", "💱"),
    ("manufacture", "🏭"),
    ("refine", "⚗️"),
    ("mine", "⛏️"),
    ("repair", "🔧"),
    ("upgrade", "⬆️"),
    ("sell", "💸"),
    ("buy", "🛒"),
    ("inventory", "🎒"),
    ("map", "🗺️"),
    ("location", "📍"),
    ("travel", "🧭"),
    ("docked", "⚓"),
    ("undocked", "🚀")]

  const RarityColors: Table := [
    ("common", "#8b949e"),
    ("uncommon", "#00d9ff"),
    ("rare", "#00ff88"),
    ("very_rare", "#7b2cbf"),
    ("legendary", "#ffaa00")]

  const DefaultSymbol: string := "●"

  /** `symbol_maps.get(category, {})`. */
  function TableFor(category: string): Table
  {
    if category == "resource" then ResourceSymbols
    else if category == "ship" then ShipSymbols
    else if category == "module" then ModuleSymbols
    else if category == "location" then LocationSymbols
    else if category == "faction" then FactionSymbols
    else if category == "ui" then UiSymbols
    else []
  }

  /** The position of `key` in the table, or -1: a dictionary lookup. */
  function IndexOf(t: Table, key: string): (i: int)
    ensures -1 <= i < |t|
    ensures i >= 0 ==> t[i].0 == key
    ensures forall j :: 0 <= j < |t| && (i == -1 || j < i) ==> t[j].0 != key
  {
    if t == [] then -1
    else if t[0].0 == key then 0
    else
      var k := IndexOf(t[1..], key);
      if k == -1 then -1 else k + 1
  }

  predicate StartsWith(s: string, prefix: string)
  {
    |prefix| <= |s| && s[..|prefix|] == prefix
  }

  /** Python's `part in s` on strings. */
  predicate Contains(s: string, part: string)
  {
    exists i :: 0 <= i <= |s| && StartsWith(s[i..], part)
  }

  /** The module search's test, `startswith(key) or key in item_id`. */
  predicate PartialMatch(itemId: string, key: string)
  {
    StartsWith(itemId, key) || Contains(itemId, key)
  }

  /** The `startswith` half of the test adds nothing: a prefix is a substring. */
  lemma PrefixIsSubstring(itemId: string, key: string)
    ensures PartialMatch(itemId, key) <==> Contains(itemId, key)
  {
    if StartsWith(itemId, key) {
      assert itemId[0..] == itemId;
    }
  }

  /** The position of the first key that partially matches, or -1. */
  function FirstPartial(t: Table, itemId: string): (i: int)
    ensures -1 <= i < |t|
    ensures i >= 0 ==> PartialMatch(itemId, t[i].0)
    ensures forall j :: 0 <= j < |t| && (i == -1 || j < i) ==> !PartialMatch(itemId, t[j].0)
  {
    if t == [] then -1
    else if PartialMatch(itemId, t[0].0) then 0
    else
      var k := FirstPartial(t[1..], itemId);
      if k == -1 then -1 else k + 1
  }

  /** get_symbol: the category's entry for an exact key; for a module
      without one, the symbol of the first module key, in declaration
      order, that is a prefix or a substring of the id; else the default. */
  function Symbol(category: string, itemId: string): (s: string)
  {
    var t := TableFor(category);
    var i := IndexOf(t, itemId);
    if i >= 0 then t[i].1
    else if category == "module" && FirstPartial(ModuleSymbols, itemId) >= 0 then
      ModuleSymbols[FirstPartial(ModuleSymbols, itemId)].1
    else DefaultSymbol
  }

  /** The `for key in MODULE_SYMBOLS` search with its early return. */
  method SearchPartial(t: Table, itemId: string) returns (r: Option<string>)
    ensures var i := FirstPartial(t, itemId);
      if i == -1 then r == None else r == Some(t[i].1)
  {
    var k := 0;
    while k < |t|
      invariant 0 <= k <= |t|
      invariant forall j :: 0 <= j < k ==> !PartialMatch(itemId, t[j].0)
    {
      var key := t[k].0;
      if StartsWith(itemId, key) || Contains(itemId, key) {
        return Some(t[k].1);
      }
      k := k + 1;
    }
    return None;
  }

  method GetSymbol(category: string, itemId: string) returns (s: string)
    ensures s == Symbol(category, itemId)
  {
    var t := TableFor(category);
    var i := IndexOf(t, itemId);
    if i >= 0 {
      return t[i].1;
    }
    if category == "module" {
      var r := SearchPartial(ModuleSymbols, itemId);
      if r.Some? {
        return r.value;
      }
    }
    return DefaultSymbol;
  }

  /** An exact key of the category's table gives its own entry (its first
      entry, as a dictionary has one). */
  lemma SymbolExact(category: string, itemId: string, j: int)
    requires var t := TableFor(category);
      0 <= j < |t| && t[j].0 == itemId && forall k :: 0 <= k < j ==> t[k].0 != itemId
    ensures Symbol(category, itemId) == TableFor(category)[j].1
  {
    assert IndexOf(TableFor(category), itemId) == j;
  }

  /** A module id that is no key gives the entry of the first module key it
      contains: no earlier key is contained in it. */
  lemma SymbolModulePartial(itemId: string, j: int)
    requires IndexOf(ModuleSymbols, itemId) == -1
    requires 0 <= j < |ModuleSymbols| && Contains(itemId, ModuleSymbols[j].0)
    requires forall k :: 0 <= k < j ==> !Contains(itemId, ModuleSymbols[k].0)
    ensures Symbol("module", itemId) == ModuleSymbols[j].1
  {
    PrefixIsSubstring(itemId, ModuleSymbols[j].0);
    forall k | 0 <= k < j
      ensures !PartialMatch(itemId, ModuleSymbols[k].0)
    {
      PrefixIsSubstring(itemId, ModuleSymbols[k].0);
    }
    assert FirstPartial(ModuleSymbols, itemId) == j;
  }

  /** With no exact key, and outside the module category or with no module
      key contained in the id, the symbol is the default. */
  lemma SymbolDefault(category: string, itemId: string)
    requires IndexOf(TableFor(category), itemId) == -1
    requires category != "module" || forall k :: 0 <= k < |ModuleSymbols| ==> !Contains(itemId, ModuleSymbols[k].0)
    ensures Symbol(category, itemId) == DefaultSymbol
  {
    if category == "module" {
      var i := FirstPartial(ModuleSymbols, itemId);
      if i >= 0 {
        PrefixIsSubstring(itemId, ModuleSymbols[i].0);
      }
    }
  }

  /** get_rarity_color: the rarity's colour, the common colour otherwise. */
  function RarityColor(rarity: string): (c: string)
    ensures var i := IndexOf(RarityColors, rarity);
      (i >= 0 ==> c == RarityColors[i].1) && (i == -1 ==> c == "#8b949e")
  {
    var i := IndexOf(RarityColors, rarity);
    if i >= 0 then RarityColors[i].1 else RarityColors[IndexOf(RarityColors, "common")].1
  }
}
