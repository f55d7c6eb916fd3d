/** manufacturing.py: the item-type and recipe lookups, the requirement
    gates, the build-time formula, the job record with its saved form, and
    the scheduler that holds at most one active job. */
module Manufacturing {
  import opened Common
  import opened Catalog

  // ---------------------------------------------------------------- item types and recipes

  datatype ItemType = Module | ModuleComponent | ShipComponent | Ship

  /** The name a job stores for its item type. */
  function TypeName(t: ItemType): string
  {
    match t
    case Module => "module"
    case ModuleComponent => "module_component"
    case ShipComponent => "ship_component"
    case Ship => "ship"
  }

  /** Where a type stands in the lookup order: modules first, ships last. */
  function Rank(t: ItemType): nat
  {
    match t
    case Module => 0
    case ModuleComponent => 1
    case ShipComponent => 2
    case Ship => 3
  }

  /** Whether the item table of type `t` (MODULES, MODULE_COMPONENTS,
      SHIP_COMPONENTS or VESSEL_CLASSES) lists `id`. */
  predicate InItemTable(c: Catalog, t: ItemType, id: string)
  {
    match t
    case Module => id in c.modules
    case ModuleComponent => id in c.moduleComponents
    case ShipComponent => id in c.shipComponents
    case Ship => id in c.vessels
  }

  /** The recipe table searched for type `t`'s rank: MANUFACTURING_RECIPES,
      MODULE_COMPONENT_RECIPES, COMPONENT_RECIPES, SHIP_RECIPES. */
  function RecipeTable(c: Catalog, t: ItemType): map<string, Recipe>
  {
    match t
    case Module => c.moduleRecipes
    case ModuleComponent => c.moduleComponentRecipes
    case ShipComponent => c.componentRecipes
    case Ship => c.shipRecipes
  }

  /** detect_item_type. */
  function DetectItemType(c: Catalog, id: string): Option<ItemType>
  {
    if id in c.modules then Some(Module)
    else if id in c.moduleComponents then Some(ModuleComponent)
    else if id in c.shipComponents then Some(ShipComponent)
    else if id in c.vessels then Some(Ship)
    else None
  }

  /** The detected type is the first in lookup order whose table lists the
      item, and there is none when no table does. */
  lemma DetectItemTypeFirst(c: Catalog, id: string)
    ensures DetectItemType(c, id).None? ==> forall u :: !InItemTable(c, u, id)
    ensures DetectItemType(c, id).Some? ==> InItemTable(c, DetectItemType(c, id).value, id)
    ensures DetectItemType(c, id).Some? ==>
      forall u :: Rank(u) < Rank(DetectItemType(c, id).value) ==> !InItemTable(c, u, id)
  {
    forall u
      ensures InItemTable(c, u, id) ==> DetectItemType(c, id).Some? && Rank(DetectItemType(c, id).value) <= Rank(u)
    {
    }
  }

  /** get_recipe. */
  function GetRecipe(c: Catalog, id: string): Option<Recipe>
  {
    if id in c.moduleRecipes then Some(c.moduleRecipes[id])
    else if id in c.moduleComponentRecipes then Some(c.moduleComponentRecipes[id])
    else if id in c.componentRecipes then Some(c.componentRecipes[id])
    else if id in c.shipRecipes then Some(c.shipRecipes[id])
    else None
  }

  /** The recipe comes from the first table in lookup order that has the
      item, and there is none when no table has it. */
  lemma GetRecipeFirst(c: Catalog, id: string, t: ItemType)
    ensures GetRecipe(c, id).None? ==> forall u :: id !in RecipeTable(c, u)
    ensures id in RecipeTable(c, t) && (forall u :: Rank(u) < Rank(t) ==> id !in RecipeTable(c, u)) ==>
      GetRecipe(c, id) == Some(RecipeTable(c, t)[id])
  {
    assert RecipeTable(c, Module) == c.moduleRecipes;
    assert RecipeTable(c, ModuleComponent) == c.moduleComponentRecipes;
    assert RecipeTable(c, ShipComponent) == c.componentRecipes;
    assert RecipeTable(c, Ship) == c.shipRecipes;
  }

  /** `if not recipe`: no recipe, or an empty one. */
  predicate HasRecipe(r: Option<Recipe>)
  {
    r.Some? && r.value != Recipe(None, None, None, None)
  }

  /** item_data.get("level_requirement", 1) for the item's own table. */
  function LevelRequirement(c: Catalog, t: ItemType, id: string): int
    requires InItemTable(c, t, id)
  {
    match t
    case Module => c.modules[id].levelRequirement.GetOr(1)
    case ModuleComponent => c.moduleComponents[id].levelRequirement.GetOr(1)
    case ShipComponent => c.shipComponents[id].levelRequirement.GetOr(1)
    case Ship => c.vessels[id].levelRequirement
  }

  /** The skill a refused recipe names: ship construction for ships,
      module manufacturing for everything else. */
  function SkillFor(t: ItemType): string
  {
    if t == Ship then "ship_construction" else "module_manufacturing"
  }

  // ---------------------------------------------------------------- requirement gates

  /** One line of a "Missing ..." message: the item, what is held, what a unit needs. */
  datatype Shortfall = Shortfall(id: string, have: int, need: int)

  /** The verdict of check_requirements, one case per message it can return. */
  datatype Check =
    | Met
    | InvalidItem
    | LevelTooLow(required: int)
    | NoRecipe
    | SkillTooLow(required: int, skill: string)
    | MissingMaterials(missing: seq<Shortfall>)
    | MissingComponents(missing: seq<Shortfall>)

  /** A recipe line is covered when the inventory has the item with at least
      the line's quantity. */
  predicate Holds(inventory: map<string, int>, id: string, need: int)
  {
    id in inventory && inventory[id] >= need
  }

  predicate Covers(inventory: map<string, int>, lines: seq<(string, int)>)
  {
    forall i :: 0 <= i < |lines| ==> Holds(inventory, lines[i].0, lines[i].1)
  }

  /** The missing-items loop: one shortfall per uncovered line, in recipe order. */
  function Shortfalls(lines: seq<(string, int)>, inventory: map<string, int>): (r: seq<Shortfall>)
    ensures r == [] <==> Covers(inventory, lines)
    ensures |r| <= |lines|
    ensures forall k :: 0 <= k < |r| ==> r[k].have == Count(inventory, r[k].id) && !Holds(inventory, r[k].id, r[k].need)
  {
    if lines == [] then []
    else
      var rest := Shortfalls(lines[1..], inventory);
      assert Covers(inventory, lines) <==> Holds(inventory, lines[0].0, lines[0].1) && Covers(inventory, lines[1..]) by {
        if Holds(inventory, lines[0].0, lines[0].1) && Covers(inventory, lines[1..]) {
          forall i | 0 <= i < |lines|
            ensures Holds(inventory, lines[i].0, lines[i].1)
          {
            if i > 0 {
              assert lines[i] == lines[1..][i - 1];
            }
          }
        }
      }
      if Holds(inventory, lines[0].0, lines[0].1) then rest
      else [Shortfall(lines[0].0, Count(inventory, lines[0].0), lines[0].1)] + rest
  }

  /** Whether the optional list of recipe lines is absent or fully covered. */
  predicate CoversAll(inventory: map<string, int>, lines: Option<seq<(string, int)>>)
  {
    lines.None? || Covers(inventory, lines.value)
  }

  /** check_requirements: the gates in their fixed order (a known item, the
      player level, a recipe, the skill level, the materials, the
      components), reporting the first that fails. */
  function CheckRequirements(c: Catalog, id: string, inventory: map<string, int>,
                             playerLevel: int, skillLevel: int): (r: Check)
    ensures r == InvalidItem <==> DetectItemType(c, id).None?
    ensures r.LevelTooLow? <==>
      DetectItemType(c, id).Some? && playerLevel < LevelRequirement(c, DetectItemType(c, id).value, id)
    ensures r == NoRecipe <==>
      DetectItemType(c, id).Some? && playerLevel >= LevelRequirement(c, DetectItemType(c, id).value, id) &&
      !HasRecipe(GetRecipe(c, id))
    ensures r.SkillTooLow? ==>
      (HasRecipe(GetRecipe(c, id)) && skillLevel < r.required == GetRecipe(c, id).value.skillRequirement.GetOr(0))
    ensures r.MissingMaterials? ==> !CoversAll(inventory, GetRecipe(c, id).value.materials)
    ensures r.MissingComponents? ==>
      (CoversAll(inventory, GetRecipe(c, id).value.materials) && !CoversAll(inventory, GetRecipe(c, id).value.components))
    ensures r == Met <==>
      DetectItemType(c, id).Some? && playerLevel >= LevelRequirement(c, DetectItemType(c, id).value, id) &&
      HasRecipe(GetRecipe(c, id)) && skillLevel >= GetRecipe(c, id).value.skillRequirement.GetOr(0) &&
      CoversAll(inventory, GetRecipe(c, id).value.materials) &&
      CoversAll(inventory, GetRecipe(c, id).value.components)
  {
    match DetectItemType(c, id)
    case None => InvalidItem
    case Some(t) =>
      var levelReq := LevelRequirement(c, t, id);
      if playerLevel < levelReq then LevelTooLow(levelReq)
      else
        var recipe := GetRecipe(c, id);
        if !HasRecipe(recipe) then NoRecipe
        else
          var skillReq := recipe.value.skillRequirement.GetOr(0);
          if skillLevel < skillReq then SkillTooLow(skillReq, SkillFor(t))
          else if recipe.value.materials.Some? && Shortfalls(recipe.value.materials.value, inventory) != [] then
            MissingMaterials(Shortfalls(recipe.value.materials.value, inventory))
          else if recipe.value.components.Some? && Shortfalls(recipe.value.components.value, inventory) != [] then
            MissingComponents(Shortfalls(recipe.value.components.value, inventory))
          else Met
  }

  // ---------------------------------------------------------------- build time

  /** calculate_manufacturing_time: 0 without a recipe, otherwise the
      recipe's time (60 s when absent) times the quantity, cut by half the
      skill bonus, and never under 10 s. */
  function ManufacturingTime(c: Catalog, id: string, quantity: int, skillBonus: real): (t: real)
    ensures !HasRecipe(GetRecipe(c, id)) ==> t == 0.0
    ensures HasRecipe(GetRecipe(c, id)) ==> t >= 10.0
  {
    var recipe := GetRecipe(c, id);
    if !HasRecipe(recipe) then 0.0
    else
      var baseTime := recipe.value.time.GetOr(60.0);
      MaxR(10.0, baseTime * quantity as real * (1.0 - skillBonus * 0.5))
  }

  /** With a bonus in [0, 1] the time lies between half the unskilled time
      and the unskilled time (each floored at 10 s), and a larger bonus
      never takes longer. */
  lemma ManufacturingTimeBounds(c: Catalog, id: string, quantity: int, bonus: real, bonus': real)
    requires HasRecipe(GetRecipe(c, id))
    requires GetRecipe(c, id).value.time.GetOr(60.0) >= 0.0 && quantity >= 0
    requires 0.0 <= bonus <= bonus' <= 1.0
    ensures ManufacturingTime(c, id, quantity, bonus') <= ManufacturingTime(c, id, quantity, bonus)
    ensures ManufacturingTime(c, id, quantity, bonus) <=
      MaxR(10.0, GetRecipe(c, id).value.time.GetOr(60.0) * quantity as real)
    ensures ManufacturingTime(c, id, quantity, bonus') >=
      MaxR(10.0, 0.5 * (GetRecipe(c, id).value.time.GetOr(60.0) * quantity as real))
  {
    var work := GetRecipe(c, id).value.time.GetOr(60.0) * quantity as real;
    assert work >= 0.0 by {
      MulLe(quantity as real, 0.0, GetRecipe(c, id).value.time.GetOr(60.0));
    }
    var fast, slow := work * (1.0 - bonus' * 0.5), work * (1.0 - bonus * 0.5);
    assert ManufacturingTime(c, id, quantity, bonus) == MaxR(10.0, slow);
    assert ManufacturingTime(c, id, quantity, bonus') == MaxR(10.0, fast);
    BonusScaling(work, bonus, bonus');
  }

  /** Half the bonus taken off a non-negative amount of work. */
  lemma BonusScaling(work: real, bonus: real, bonus': real)
    requires work >= 0.0 && 0.0 <= bonus <= bonus' <= 1.0
    ensures 0.5 * work <= work * (1.0 - bonus' * 0.5) <= work * (1.0 - bonus * 0.5) <= work
  {
    MulLe(work, 1.0 - bonus' * 0.5, 1.0 - bonus * 0.5);
    MulLe(work, 1.0 - bonus * 0.5, 1.0);
    MulLe(work, 0.5, 1.0 - bonus' * 0.5);
  }

  // ---------------------------------------------------------------- jobs

  /** ManufacturingJob: what is built, how many, how long it takes, when it
      started (a `now` taken at creation) and the saved `completed` counter. */
  datatype Job = Job(itemId: string, quantity: int, duration: real, itemType: string,
                     startTime: real, completed: int)

  /** get_progress: elapsed time as a percentage of the duration, capped at 100. */
  function Progress(j: Job, now: real): (p: real)
    requires j.duration != 0.0
    ensures p <= 100.0
  {
    MinR(100.0, (now - j.startTime) / j.duration * 100.0)
  }

  /** is_complete. */
  predicate IsComplete(j: Job, now: real)
    requires j.duration != 0.0
  {
    Progress(j, now) >= 100.0
  }

  /** get_remaining_time: the time still to run, never negative. */
  function RemainingTime(j: Job, now: real): (r: real)
    ensures r >= 0.0
    ensures now >= j.startTime && j.duration >= 0.0 ==> r <= j.duration
  {
    MaxR(0.0, j.duration - (now - j.startTime))
  }

  /** A job with a positive duration is complete exactly when its duration
      has elapsed, which is also exactly when no time remains. */
  lemma CompleteIffElapsed(j: Job, now: real)
    requires j.duration > 0.0
    ensures IsComplete(j, now) <==> now - j.startTime >= j.duration
    ensures IsComplete(j, now) <==> RemainingTime(j, now) == 0.0
  {
    var e := now - j.startTime;
    var q := e / j.duration;
    assert Progress(j, now) == MinR(100.0, q * 100.0);
    RatioAtLeastOne(e, j.duration);
  }

  /** `e / d >= 1` exactly when `e >= d`, for a positive `d`. */
  lemma RatioAtLeastOne(e: real, d: real)
    requires d > 0.0
    ensures e / d * 100.0 >= 100.0 <==> e >= d
  {
    var q := e / d;
    assert q * d == e;
    if q < 1.0 {
      MulLt(d, q, 1.0);
    } else {
      MulLe(d, 1.0, q);
    }
  }

  // ---------------------------------------------------------------- saved records

  /** A value of a saved dictionary. */
  datatype Value = Str(s: string) | Int(i: int) | Num(x: real)

  /** A number as Python reads it: an int or a float. */
  function AsReal(v: Value): Option<real>
  {
    match v
    case Int(i) => Some(i as real)
    case Num(x) => Some(x)
    case Str(_) => None
  }

  /** to_dict: the six fields, plus the legacy "module_id" copy of the item id. */
  function ToDict(j: Job): (d: map<string, Value>)
    ensures d.Keys == {"item_id", "quantity", "duration", "item_type", "start_time", "completed", "module_id"}
    ensures d["module_id"] == d["item_id"] == Str(j.itemId)
  {
    map["item_id" := Str(j.itemId), "quantity" := Int(j.quantity), "duration" := Num(j.duration),
        "item_type" := Str(j.itemType), "start_time" := Num(j.startTime),
        "completed" := Int(j.completed), "module_id" := Str(j.itemId)]
  }

  /** data.get(key, default) for a dictionary value. */
  function Get(d: map<string, Value>, key: string, default: Value): Value
  {
    if key in d then d[key] else default
  }

  /** from_dict: "item_id", falling back on the legacy "module_id"; the type
      defaults to "module" and `completed` to 0. A missing quantity,
      duration or start time is the KeyError the source raises; a record
      with no item id or an ill-typed value is refused too (None here). */
  function FromDict(d: map<string, Value>): (j: Option<Job>)
    ensures j.Some? ==> "quantity" in d && "duration" in d && "start_time" in d
    ensures j.Some? ==> "item_id" in d || "module_id" in d
    ensures j.Some? ==> Str(j.value.itemId) == (if "item_id" in d then d["item_id"] else d["module_id"])
    ensures j.Some? && "item_type" !in d ==> j.value.itemType == "module"
    ensures j.Some? && "completed" !in d ==> j.value.completed == 0
  {
    var idValue := if "item_id" in d then Some(d["item_id"]) else if "module_id" in d then Some(d["module_id"]) else None;
    var typeValue := Get(d, "item_type", Str("module"));
    var completedValue := Get(d, "completed", Int(0));
    if idValue.None? || !idValue.value.Str? || !typeValue.Str? || !completedValue.Int? then None
    else if "quantity" !in d || "duration" !in d || "start_time" !in d then None
    else if !d["quantity"].Int? || AsReal(d["duration"]).None? || AsReal(d["start_time"]).None? then None
    else Some(Job(idValue.value.s, d["quantity"].i, AsReal(d["duration"]).value, typeValue.s,
                  AsReal(d["start_time"]).value, completedValue.i))
  }

  /** Saving a job and loading it back gives the same job. */
  lemma JobRoundTrip(j: Job)
    ensures FromDict(ToDict(j)) == Some(j)
  {
  }

  /** A legacy record naming its item under "module_id" only, with no type
      and no counter, loads as a module job with a zero counter. */
  lemma LegacyRecordLoads(moduleId: string, quantity: int, duration: real, startTime: real)
    ensures FromDict(map["module_id" := Str(moduleId), "quantity" := Int(quantity),
                         "duration" := Num(duration), "start_time" := Num(startTime)])
      == Some(Job(moduleId, quantity, duration, "module", startTime, 0))
  {
  }

  /** ManufacturingManager.to_dict: the saved list of jobs. */
  function SaveJobs(jobs: seq<Job>): (records: seq<map<string, Value>>)
    ensures |records| == |jobs|
    ensures forall i :: 0 <= i < |jobs| ==> records[i] == ToDict(jobs[i])
  {
    seq(|jobs|, i requires 0 <= i < |jobs| => ToDict(jobs[i]))
  }

  /** ManufacturingManager.from_dict: every record loads, or the load fails. */
  function LoadJobs(records: seq<map<string, Value>>): (jobs: Option<seq<Job>>)
    ensures jobs.Some? ==> |jobs.value| == |records|
    ensures jobs.Some? ==> forall i :: 0 <= i < |records| ==> FromDict(records[i]) == Some(jobs.value[i])
  {
    if records == [] then Some([])
    else
      var first := FromDict(records[0]);
      var rest := LoadJobs(records[1..]);
      if first.None? || rest.None? then None
      else
        var r := [first.value] + rest.value;
        assert forall i :: 1 <= i < |records| ==> records[i] == records[1..][i - 1];
        Some(r)
  }

  /** Saving the job list and loading it back gives the same list. */
  lemma {:induction false} JobsRoundTrip(jobs: seq<Job>)
    ensures LoadJobs(SaveJobs(jobs)) == Some(jobs)
  {
    if jobs != [] {
      var records := SaveJobs(jobs);
      JobsRoundTrip(jobs[1..]);
      assert records[1..] == SaveJobs(jobs[1..]);
      JobRoundTrip(jobs[0]);
      assert FromDict(records[0]) == Some(jobs[0]);
      assert LoadJobs(records) == Some([jobs[0]] + jobs[1..]);
      assert jobs == [jobs[0]] + jobs[1..];
    }
  }

  // ---------------------------------------------------------------- completion polling

  /** Complete, for a job whose progress can be computed (a zero duration is
      a division by zero in the source; such a job never counts as done). */
  predicate Done(j: Job, now: real)
  {
    j.duration != 0.0 && IsComplete(j, now)
  }

  /** The jobs of `jobs` that are complete at `now`, in order. */
  function Finished(jobs: seq<Job>, now: real): seq<Job>
  {
    if jobs == [] then []
    else
      var n := |jobs| - 1;
      Finished(jobs[..n], now) + (if Done(jobs[n], now) then [jobs[n]] else [])
  }

  /** The jobs of `jobs` still running at `now`, in order. */
  function Pending(jobs: seq<Job>, now: real): seq<Job>
  {
    if jobs == [] then []
    else
      var n := |jobs| - 1;
      Pending(jobs[..n], now) + (if Done(jobs[n], now) then [] else [jobs[n]])
  }

  /** The (item_id, quantity, item_type) tuples check_completed_jobs reports. */
  function Reported(jobs: seq<Job>): (r: seq<(string, int, string)>)
    ensures |r| == |jobs|
    ensures forall i :: 0 <= i < |jobs| ==> r[i] == (jobs[i].itemId, jobs[i].quantity, jobs[i].itemType)
  {
    seq(|jobs|, i requires 0 <= i < |jobs| => (jobs[i].itemId, jobs[i].quantity, jobs[i].itemType))
  }

  /** One step of check_completed_jobs: the job at `i` is either reported
      and removed from the live list, or left in place. */
  lemma PollAdvance(jobs: seq<Job>, i: int, now: real)
    requires 0 <= i < |jobs|
    ensures var live, k := Pending(jobs[..i], now) + jobs[i..], |Pending(jobs[..i], now)|;
      if Done(jobs[i], now) then
        Reported(Finished(jobs[..i + 1], now)) ==
          Reported(Finished(jobs[..i], now)) + [(jobs[i].itemId, jobs[i].quantity, jobs[i].itemType)] &&
        k < |live| && live[..k] + live[k + 1..] == Pending(jobs[..i + 1], now) + jobs[i + 1..]
      else
        Finished(jobs[..i + 1], now) == Finished(jobs[..i], now) &&
        live == Pending(jobs[..i + 1], now) + jobs[i + 1..]
  {
    PollStep(jobs, i, now);
    var p := Pending(jobs[..i], now);
    var live := p + jobs[i..];
    assert jobs[i..] == [jobs[i]] + jobs[i + 1..];
    if Done(jobs[i], now) {
      assert live[..|p|] == p;
      assert live[|p| + 1..] == jobs[i + 1..];
    } else {
      assert live == p + [jobs[i]] + jobs[i + 1..];
    }
  }

  /** One more job: it joins the finished jobs or the pending ones. */
  lemma PollStep(jobs: seq<Job>, i: int, now: real)
    requires 0 <= i < |jobs|
    ensures Finished(jobs[..i + 1], now) ==
      Finished(jobs[..i], now) + (if Done(jobs[i], now) then [jobs[i]] else [])
    ensures Pending(jobs[..i + 1], now) ==
      Pending(jobs[..i], now) + (if Done(jobs[i], now) then [] else [jobs[i]])
  {
    assert jobs[..i + 1][..i] == jobs[..i];
  }

  /** Polling splits the jobs: the finished and the pending ones together
      are the original jobs. */
  lemma {:induction false} PollPartitionsJobs(jobs: seq<Job>, now: real)
    ensures multiset(Finished(jobs, now)) + multiset(Pending(jobs, now)) == multiset(jobs)
  {
    if jobs != [] {
      var n := |jobs| - 1;
      PollPartitionsJobs(jobs[..n], now);
      assert jobs == jobs[..n] + [jobs[n]];
      var f, p := Finished(jobs[..n], now), Pending(jobs[..n], now);
      if Done(jobs[n], now) {
        assert Finished(jobs, now) == f + [jobs[n]] && Pending(jobs, now) == p;
      } else {
        assert Finished(jobs, now) == f && Pending(jobs, now) == p + [jobs[n]];
      }
    }
  }

  /** Every finished job has run its whole duration. */
  lemma {:induction false} FinishedJobsElapsed(jobs: seq<Job>, now: real)
    requires forall i :: 0 <= i < |jobs| ==> jobs[i].duration > 0.0
    ensures forall j :: j in Finished(jobs, now) ==> now - j.startTime >= j.duration
  {
    if jobs != [] {
      var n := |jobs| - 1;
      FinishedJobsElapsed(jobs[..n], now);
      CompleteIffElapsed(jobs[n], now);
    }
  }

  /** No pending job has run its whole duration. */
  lemma {:induction false} PendingJobsNotElapsed(jobs: seq<Job>, now: real)
    requires forall i :: 0 <= i < |jobs| ==> jobs[i].duration > 0.0
    ensures forall j :: j in Pending(jobs, now) ==> now - j.startTime < j.duration
  {
    if jobs != [] {
      var n := |jobs| - 1;
      PendingJobsNotElapsed(jobs[..n], now);
      CompleteIffElapsed(jobs[n], now);
    }
  }

  // ---------------------------------------------------------------- removal requests

  /** The remove_items_func calls for one list of recipe lines: each line's
      quantity times the number of items built. */
  function Scaled(lines: seq<(string, int)>, quantity: int): (r: seq<(string, int)>)
    ensures |r| == |lines|
    ensures forall i :: 0 <= i < |lines| ==> r[i] == (lines[i].0, lines[i].1 * quantity)
  {
    seq(|lines|, i requires 0 <= i < |lines| => (lines[i].0, lines[i].1 * quantity))
  }

  /** Every removal start_manufacturing requests: the materials, then the components. */
  function Removals(recipe: Recipe, quantity: int): seq<(string, int)>
  {
    Scaled(recipe.materials.GetOr([]), quantity) + Scaled(recipe.components.GetOr([]), quantity)
  }

  /** One of the removal loops of start_manufacturing. */
  method RemovalCalls(lines: seq<(string, int)>, quantity: int) returns (calls: seq<(string, int)>)
    ensures calls == Scaled(lines, quantity)
  {
    calls := [];
    var i := 0;
    while i < |lines|
      invariant 0 <= i <= |lines|
      invariant calls == Scaled(lines[..i], quantity)
    {
      calls := calls + [(lines[i].0, lines[i].1 * quantity)];
      i := i + 1;
    }
    assert lines[..i] == lines;
  }

  /** For a single item the gates guarantee every requested removal is
      covered by the inventory. */
  lemma SingleUnitRemovalsCovered(c: Catalog, id: string, inventory: map<string, int>,
                                  playerLevel: int, skillLevel: int)
    requires CheckRequirements(c, id, inventory, playerLevel, skillLevel) == Met
    ensures forall k :: 0 <= k < |Removals(GetRecipe(c, id).value, 1)| ==>
      Holds(inventory, Removals(GetRecipe(c, id).value, 1)[k].0, Removals(GetRecipe(c, id).value, 1)[k].1)
  {
    var recipe := GetRecipe(c, id).value;
    var ms, cs := recipe.materials.GetOr([]), recipe.components.GetOr([]);
    var rs := Removals(recipe, 1);
    forall k | 0 <= k < |rs|
      ensures Holds(inventory, rs[k].0, rs[k].1)
    {
      if k < |ms| {
        assert rs[k] == Scaled(ms, 1)[k];
      } else {
        assert rs[k] == Scaled(cs, 1)[k - |ms|];
      }
    }
  }

  /** The catalogue lists the Pulse Cannon T1 module (level 1) with its
      recipe: two energy cells, a targeting chip and a weapon barrel. */
  predicate PulseCannonListed(c: Catalog)
  {
    "pulse_cannon_t1" in c.modules && c.modules["pulse_cannon_t1"].levelRequirement == Some(1) &&
    "pulse_cannon_t1" in c.moduleRecipes &&
    c.moduleRecipes["pulse_cannon_t1"] ==
      Recipe(None, Some([("energy_cell_t1", 2), ("targeting_chip_t1", 1), ("weapon_barrel", 1)]), Some(120.0), Some(0))
  }

  lemma SampleCatalogListsPulseCannon()
    ensures PulseCannonListed(SampleCatalog())
  {
  }

  /** The gates test one unit's worth of each line while the removals take
      `quantity` units' worth: building two Pulse Cannons passes the gates
      with two energy cells held and then asks for four. */
  lemma PerUnitGateAdmitsShortfall(c: Catalog)
    requires PulseCannonListed(c)
    ensures var inventory := map["energy_cell_t1" := 2, "targeting_chip_t1" := 1, "weapon_barrel" := 1];
      CheckRequirements(c, "pulse_cannon_t1", inventory, 1, 0) == Met &&
      Removals(GetRecipe(c, "pulse_cannon_t1").value, 2)[0] == ("energy_cell_t1", 4) &&
      inventory["energy_cell_t1"] < 4
  {
    var inventory := map["energy_cell_t1" := 2, "targeting_chip_t1" := 1, "weapon_barrel" := 1];
    var lines := [("energy_cell_t1", 2), ("targeting_chip_t1", 1), ("weapon_barrel", 1)];
    var recipe := Recipe(None, Some(lines), Some(120.0), Some(0));
    assert DetectItemType(c, "pulse_cannon_t1") == Some(Module);
    assert GetRecipe(c, "pulse_cannon_t1") == Some(recipe);
    assert Shortfalls(lines, inventory) == [];
  }

  // ---------------------------------------------------------------- the scheduler

  /** The answer of start_manufacturing. */
  datatype StartResult = Started(duration: real) | Rejected(why: Check) | Busy

  class ManufacturingManager {
    var activeJobs: seq<Job>

    constructor ()
      ensures activeJobs == [] && Single()
    {
      activeJobs := [];
    }

    /** At most one job runs at a time: start_manufacturing refuses while
        one is active, so the list never grows past one entry. */
    predicate Single()
      reads this
    {
      |activeJobs| <= 1
    }

    /** get_active_job: the first job, if any; with a single-job list it is
        the whole of the manager's work. */
    function GetActiveJob(): (j: Option<Job>)
      reads this
      ensures j.Some? <==> activeJobs != []
      ensures j.Some? ==> j.value == activeJobs[0]
      ensures Single() ==> activeJobs == if j.Some? then [j.value] else []
    {
      if activeJobs == [] then None else Some(activeJobs[0])
    }

    /** start_manufacturing: refuses with nothing removed and no job added
        when a gate fails or a job is already running; otherwise requests
        each recipe line times the quantity from the remove function
        (returned as `removals`, in call order) and adds the one job. */
    method StartManufacturing(c: Catalog, itemId: string, quantity: int, inventory: map<string, int>,
                              playerLevel: int, skillLevel: int, skillBonus: real, now: real)
      returns (r: StartResult, removals: seq<(string, int)>)
      modifies this
      ensures r.Rejected? <==> CheckRequirements(c, itemId, inventory, playerLevel, skillLevel) != Met
      ensures r.Rejected? ==> r.why == CheckRequirements(c, itemId, inventory, playerLevel, skillLevel)
      ensures r.Started? <==>
        CheckRequirements(c, itemId, inventory, playerLevel, skillLevel) == Met && old(activeJobs) == []
      ensures !r.Started? ==> activeJobs == old(activeJobs) && removals == []
      ensures r.Started? ==>
        r.duration == ManufacturingTime(c, itemId, quantity, skillBonus) &&
        removals == Removals(GetRecipe(c, itemId).value, quantity) &&
        activeJobs == [Job(itemId, quantity, r.duration, TypeName(DetectItemType(c, itemId).value), now, 0)]
      ensures old(Single()) ==> Single()
    {
      removals := [];
      var itemType := DetectItemType(c, itemId);
      if itemType.None? {
        return Rejected(InvalidItem), removals;
      }
      var check := CheckRequirements(c, itemId, inventory, playerLevel, skillLevel);
      if check != Met {
        return Rejected(check), removals;
      }
      if |activeJobs| >= 1 {
        return Busy, removals;
      }
      var recipe := GetRecipe(c, itemId).value;
      if recipe.materials.Some? {
        removals := RemovalCalls(recipe.materials.value, quantity);
      }
      if recipe.components.Some? {
        var more := RemovalCalls(recipe.components.value, quantity);
        removals := removals + more;
      }
      var duration := ManufacturingTime(c, itemId, quantity, skillBonus);
      activeJobs := activeJobs + [Job(itemId, quantity, duration, TypeName(itemType.value), now, 0)];
      return Started(duration), removals;
    }

    /** check_completed_jobs: walks a copy of the list, reporting and
        removing each job that is complete at `now`. */
    method CheckCompletedJobs(now: real) returns (completed: seq<(string, int, string)>)
      requires forall i :: 0 <= i < |activeJobs| ==> activeJobs[i].duration != 0.0
      modifies this
      ensures completed == Reported(Finished(old(activeJobs), now))
      ensures activeJobs == Pending(old(activeJobs), now)
      ensures old(Single()) ==> Single()
    {
      var jobs := activeJobs;
      completed := [];
      var i := 0;
      while i < |jobs|
        invariant 0 <= i <= |jobs|
        invariant completed == Reported(Finished(jobs[..i], now))
        invariant activeJobs == Pending(jobs[..i], now) + jobs[i..]
      {
        PollAdvance(jobs, i, now);
        var job := jobs[i];
        if IsComplete(job, now) {
          completed := completed + [(job.itemId, job.quantity, job.itemType)];
          var k := |Pending(jobs[..i], now)|;
          activeJobs := activeJobs[..k] + activeJobs[k + 1..];
        }
        i := i + 1;
      }
      assert jobs[..i] == jobs;
      PollPartitionsJobs(jobs, now);
      assert |multiset(activeJobs)| <= |multiset(jobs)|;
    }

    /** cancel_job: fails on an empty list; otherwise clears every job and
        gives nothing back (the materials stay consumed). */
    method CancelJob() returns (ok: bool, cancelled: Option<Job>)
      modifies this
      ensures ok <==> old(activeJobs) != []
      ensures ok ==> cancelled == Some(old(activeJobs)[0])
      ensures !ok ==> cancelled == None
      ensures activeJobs == [] && Single()
    {
      if activeJobs == [] {
        return false, None;
      }
      var job := activeJobs[0];
      activeJobs := [];
      return true, Some(job);
    }
  }
}
