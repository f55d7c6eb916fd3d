/** missions.py: a contract's objective and its progress/expiry state
    machine, and the board that moves contracts from the available list to
    the active list and off it again. The random draws of contract
    generation arrive as a `Draws` value, the clock as `now`. */
module Missions {
  import opened Common
  import opened Catalog

  /** An entry of CONTRACT_TYPES (the fields the core reads). */
  datatype ContractTemplate = ContractTemplate(name: string, minReward: int, maxReward: int, timeLimit: int)

  const ContractTypes: map<string, ContractTemplate> := map[
    "mining_contract" := ContractTemplate("Resource Extraction", 10000, 50000, 3600),
    "refining_contract" := ContractTemplate("Resource Refining", 15000, 60000, 2400),
    "manufacturing_contract" := ContractTemplate("Component Manufacturing", 25000, 100000, 3600),
    "combat_patrol" := ContractTemplate("Combat Patrol", 25000, 100000, 1800),
    "cargo_transport" := ContractTemplate("Cargo Transport", 15000, 75000, 2400),
    "reconnaissance" := ContractTemplate("Reconnaissance Mission", 20000, 60000, 1800),
    "research_data" := ContractTemplate("Research Data Collection", 40000, 150000, 4800)]

  /** The objectives dictionary, one constructor per objective "type".
      Refining and manufacturing contracts get an empty dictionary. */
  datatype Objective =
    | CollectResource(resourceId: string, targetQuantity: int, currentQuantity: int)
    | DestroyEnemies(targetCount: int, currentCount: int, location: string)
    | TransportCargo(resourceId: string, itemType: string, quantity: int, destination: string,
                     cargoDelivered: bool)
    | ScanLocations(targetCount: int, currentCount: int)
    | CollectData(targetCount: int, currentCount: int)
    | NoObjectives

  /** The progress dictionary; an absent key reads as its `get` default. */
  datatype Progress = Progress(resourceId: Option<string>, quantity: int, enemiesDestroyed: int,
                               delivered: bool, locationsScanned: int, dataCollected: int)

  /** The random draws of `_generate_objectives`: the chosen resource or
      commodity, the `randint` count, whether `random() < 0.7` chose a
      commodity, and the chosen destination. */
  datatype Draws = Draws(item: string, count: int, commodity: bool, destination: string)

  /** The base-quantity range of a transported commodity, by its base price. */
  function CommodityRange(basePrice: int): (r: (int, int))
    ensures 5 <= r.0 < r.1 <= 150
  {
    if basePrice < 50 then (50, 150)
    else if basePrice < 200 then (20, 80)
    else if basePrice < 1000 then (10, 40)
    else (5, 20)
  }

  /** The draws each contract type makes, within the ranges it draws them from. */
  predicate DrawsFit(c: Catalog, locations: set<string>, contractType: string, locationId: string, d: Draws)
  {
    if contractType == "mining_contract" then
      d.item in c.AllResources() && 50 <= d.count <= 200
    else if contractType == "combat_patrol" then
      2 <= d.count <= 5
    else if contractType == "cargo_transport" then
      && locationId in locations
      && d.destination in locations && d.destination != locationId
      && (if d.commodity
          then d.item in c.commodityPrices &&
               CommodityRange(c.commodityPrices[d.item]).0 <= d.count <= CommodityRange(c.commodityPrices[d.item]).1
          else d.item in c.AllResources() && 50 <= d.count <= 200)
    else if contractType == "reconnaissance" then
      3 <= d.count <= 6
    else if contractType == "research_data" then
      5 <= d.count <= 10
    else
      true
  }

  lemma ScaleBounds(lo: int, x: int, hi: int, k: int)
    requires lo <= x <= hi
    ensures k >= 0 ==> lo * k <= x * k <= hi * k
  {
  }

  /** _generate_objectives: a fresh objective with its counters at zero and
      its target drawn from the type's range, scaled by the difficulty
      (except for reconnaissance); a transport goes somewhere else. */
  function GenerateObjectives(c: Catalog, locations: set<string>, contractType: string, locationId: string,
                              difficulty: int, d: Draws): (o: Objective)
    requires DrawsFit(c, locations, contractType, locationId, d)
    ensures contractType == "mining_contract" ==>
      && o.CollectResource? && o.resourceId in c.AllResources() && o.currentQuantity == 0
      && (difficulty >= 0 ==> 50 * difficulty <= o.targetQuantity <= 200 * difficulty)
    ensures contractType == "combat_patrol" ==>
      && o.DestroyEnemies? && o.currentCount == 0 && o.location == locationId
      && (difficulty >= 0 ==> 2 * difficulty <= o.targetCount <= 5 * difficulty)
    ensures contractType == "cargo_transport" ==>
      && o.TransportCargo? && !o.cargoDelivered
      && o.destination in locations && o.destination != locationId
      && (o.itemType == "commodity" ==> o.resourceId in c.commodityPrices)
      && (o.itemType != "commodity" ==> o.itemType == "resource" && o.resourceId in c.AllResources())
      && (difficulty >= 0 ==> 5 * difficulty <= o.quantity <= 200 * difficulty)
    ensures contractType == "reconnaissance" ==>
      o.ScanLocations? && o.currentCount == 0 && 3 <= o.targetCount <= 6
    ensures contractType == "research_data" ==>
      && o.CollectData? && o.currentCount == 0
      && (difficulty >= 0 ==> 5 * difficulty <= o.targetCount <= 10 * difficulty)
    ensures (contractType !in {"mining_contract", "combat_patrol", "cargo_transport", "reconnaissance",
                               "research_data"}) ==> o == NoObjectives
  {
    if contractType == "mining_contract" then
      ScaleBounds(50, d.count, 200, difficulty);
      CollectResource(d.item, d.count * difficulty, 0)
    else if contractType == "combat_patrol" then
      ScaleBounds(2, d.count, 5, difficulty);
      DestroyEnemies(d.count * difficulty, 0, locationId)
    else if contractType == "cargo_transport" then
      ScaleBounds(if d.commodity then 5 else 50, d.count, if d.commodity then 150 else 200, difficulty);
      TransportCargo(d.item, if d.commodity then "commodity" else "resource", d.count * difficulty,
                     d.destination, false)
    else if contractType == "reconnaissance" then
      ScanLocations(d.count, 0)
    else if contractType == "research_data" then
      ScaleBounds(5, d.count, 10, difficulty);
      CollectData(d.count * difficulty, 0)
    else
      NoObjectives
  }

  /** The objective is reached: its counter is at its target, or the cargo
      was delivered. */
  predicate Met(o: Objective)
  {
    match o
    case CollectResource(_, target, current) => current >= target
    case DestroyEnemies(target, current, _) => current >= target
    case TransportCargo(_, _, _, _, delivered) => delivered
    case ScanLocations(target, current) => current >= target
    case CollectData(target, current) => current >= target
    case NoObjectives => false
  }

  /** The progress report is about this objective: the same resource for a
      collection, a delivery for a transport, anything for a counter. */
  predicate Concerns(o: Objective, p: Progress)
  {
    match o
    case CollectResource(id, _, _) => p.resourceId == Some(id)
    case TransportCargo(_, _, _, _, _) => p.delivered
    case NoObjectives => false
    case _ => true
  }

  /** The objective after a progress report is counted into it. */
  function Advanced(o: Objective, p: Progress): Objective
  {
    if !Concerns(o, p) then o
    else match o
      case CollectResource(id, target, current) => CollectResource(id, target, current + p.quantity)
      case DestroyEnemies(target, current, loc) => DestroyEnemies(target, current + p.enemiesDestroyed, loc)
      case TransportCargo(id, kind, qty, dest, _) => TransportCargo(id, kind, qty, dest, true)
      case ScanLocations(target, current) => ScanLocations(target, current + p.locationsScanned)
      case CollectData(target, current) => CollectData(target, current + p.dataCollected)
      case NoObjectives => NoObjectives
  }

  /** The amount a report adds to the objective's counter. */
  function Amount(o: Objective, p: Progress): int
  {
    match o
    case CollectResource(_, _, _) => p.quantity
    case DestroyEnemies(_, _, _) => p.enemiesDestroyed
    case ScanLocations(_, _) => p.locationsScanned
    case CollectData(_, _) => p.dataCollected
    case _ => 0
  }

  function Counter(o: Objective): int
  {
    match o
    case CollectResource(_, _, current) => current
    case DestroyEnemies(_, current, _) => current
    case ScanLocations(_, current) => current
    case CollectData(_, current) => current
    case _ => 0
  }

  function Target(o: Objective): int
  {
    match o
    case CollectResource(_, target, _) => target
    case DestroyEnemies(target, _, _) => target
    case ScanLocations(target, _) => target
    case CollectData(target, _) => target
    case TransportCargo(_, _, qty, _, _) => qty
    case NoObjectives => 0
  }

  /** Progress keeps the objective's kind and target, moves its counter by
      exactly the reported amount when the report concerns it (never down
      for a non-negative report), and leaves it alone otherwise. */
  lemma AdvancedCounts(o: Objective, p: Progress)
    ensures var o' := Advanced(o, p);
      && o'.CollectResource? == o.CollectResource? && o'.DestroyEnemies? == o.DestroyEnemies?
      && o'.TransportCargo? == o.TransportCargo? && o'.ScanLocations? == o.ScanLocations?
      && o'.CollectData? == o.CollectData? && Target(o') == Target(o)
      && (Concerns(o, p) ==> Counter(o') == Counter(o) + Amount(o, p))
      && (!Concerns(o, p) ==> o' == o)
      && (Amount(o, p) >= 0 ==> Counter(o') >= Counter(o))
  {
  }

  /** A reached objective stays reached under non-negative reports. */
  lemma MetStays(o: Objective, p: Progress)
    requires Met(o) && Amount(o, p) >= 0
    ensures Met(Advanced(o, p))
  {
  }

  class Contract {
    const contractType: string
    const locationId: string
    const difficulty: int
    const timeLimit: int
    const reward: int
    const contractId: string
    var objectives: Objective
    var acceptedTime: Option<real>
    var completed: bool
    var failed: bool

    /** A fresh contract of a known type: its reward drawn from the type's
        range scaled by the difficulty, its objective generated, not yet
        accepted, completed or failed, and its id `type_location_seconds`. */
    constructor (c: Catalog, locations: set<string>, contractType: string, locationId: string, difficulty: int,
                 rewardDraw: int, d: Draws, now: real)
      requires contractType in ContractTypes
      requires ContractTypes[contractType].minReward * difficulty <= rewardDraw
      requires rewardDraw <= ContractTypes[contractType].maxReward * difficulty
      requires DrawsFit(c, locations, contractType, locationId, d)
      ensures this.contractType == contractType && this.locationId == locationId && this.difficulty == difficulty
      ensures timeLimit == ContractTypes[contractType].timeLimit
      ensures ContractTypes[contractType].minReward * difficulty <= reward
      ensures reward <= ContractTypes[contractType].maxReward * difficulty
      ensures objectives == GenerateObjectives(c, locations, contractType, locationId, difficulty, d)
      ensures acceptedTime == None && !completed && !failed
      ensures contractId == contractType + "_" + locationId + "_" + IntString(Trunc(now))
    {
      this.contractType := contractType;
      this.locationId := locationId;
      this.difficulty := difficulty;
      timeLimit := ContractTypes[contractType].timeLimit;
      reward := rewardDraw;
      objectives := GenerateObjectives(c, locations, contractType, locationId, difficulty, d);
      acceptedTime := None;
      completed, failed := false, false;
      contractId := contractType + "_" + locationId + "_" + IntString(Trunc(now));
    }

    /** `not self.accepted_time` is false: a time was recorded and it is
        not 0.0, which Python also reads as false. */
    predicate Accepted()
      reads this
    {
      acceptedTime.Some? && acceptedTime.value != 0.0
    }

    method Accept(now: real)
      modifies this`acceptedTime
      ensures acceptedTime == Some(now)
    {
      acceptedTime := Some(now);
    }

    /** is_expired: accepted and more than the time limit has elapsed. */
    predicate IsExpired(now: real)
      reads this
    {
      Accepted() && now - acceptedTime.value > timeLimit as real
    }

    /** get_time_remaining: the whole limit before acceptance, afterwards
        what is left of it, never below zero. */
    function TimeRemaining(now: real): (r: real)
      reads this
      ensures r >= 0.0 || (!Accepted() && timeLimit < 0)
      ensures timeLimit >= 0 && (!Accepted() || now >= acceptedTime.value) ==> r <= timeLimit as real
      ensures Accepted() ==> (r == 0.0 <==> now - acceptedTime.value >= timeLimit as real)
    {
      if !Accepted() then timeLimit as real
      else MaxR(0.0, timeLimit as real - (now - acceptedTime.value))
    }

    /** update_progress: nothing once completed; otherwise the report is
        counted into the objective, and the contract completes, returning
        true, exactly when a report about it leaves the objective reached.
        A contract with no objectives is excluded, since reading its
        objective type raises a KeyError. */
    method UpdateProgress(p: Progress) returns (done: bool)
      requires completed || !objectives.NoObjectives?
      modifies this`objectives, this`completed
      ensures old(completed) ==> !done && objectives == old(objectives) && completed
      ensures !old(completed) ==> objectives == Advanced(old(objectives), p)
      ensures done <==> !old(completed) && Concerns(old(objectives), p) && Met(objectives)
      ensures completed <==> old(completed) || done
    {
      if completed {
        return false;
      }
      done := false;
      match objectives
      case CollectResource(id, target, current) =>
        if p.resourceId == Some(id) {
          objectives := CollectResource(id, target, current + p.quantity);
          if current + p.quantity >= target {
            completed := true;
            done := true;
          }
        }
      case DestroyEnemies(target, current, loc) =>
        objectives := DestroyEnemies(target, current + p.enemiesDestroyed, loc);
        if current + p.enemiesDestroyed >= target {
          completed := true;
          done := true;
        }
      case TransportCargo(id, kind, qty, dest, _) =>
        if p.delivered {
          objectives := TransportCargo(id, kind, qty, dest, true);
          completed := true;
          done := true;
        }
      case ScanLocations(target, current) =>
        objectives := ScanLocations(target, current + p.locationsScanned);
        if current + p.locationsScanned >= target {
          completed := true;
          done := true;
        }
      case CollectData(target, current) =>
        objectives := CollectData(target, current + p.dataCollected);
        if current + p.dataCollected >= target {
          completed := true;
          done := true;
        }
    }
  }

  /** The contract's id matches and, when asked, it is completed. */
  predicate Matches(c: Contract, id: string, needCompleted: bool)
    reads c
  {
    c.contractId == id && (!needCompleted || c.completed)
  }

  /** The position of the first contract of `s` that matches, or -1. */
  function FirstMatch(s: seq<Contract>, id: string, needCompleted: bool): (i: int)
    reads s
    ensures -1 <= i < |s|
    ensures i >= 0 ==> Matches(s[i], id, needCompleted)
    ensures forall j :: 0 <= j < |s| && (i == -1 || j < i) ==> !Matches(s[j], id, needCompleted)
  {
    if s == [] then -1
    else if Matches(s[0], id, needCompleted) then 0
    else
      var k := FirstMatch(s[1..], id, needCompleted);
      if k == -1 then -1 else k + 1
  }

  /** The contracts of `s` that are neither failed nor completed, in order. */
  function Live(s: seq<Contract>): (r: seq<Contract>)
    reads s
    ensures |r| <= |s|
    ensures forall i :: 0 <= i < |r| ==> r[i] in s && !r[i].failed && !r[i].completed
    ensures forall j :: 0 <= j < |s| && !s[j].failed && !s[j].completed ==> s[j] in r
  {
    if s == [] then []
    else if !s[0].failed && !s[0].completed then [s[0]] + Live(s[1..])
    else Live(s[1..])
  }

  /** Moving the contract at position `i` of `a` to the end of `b` keeps
      every contract of the two lists, once each. */
  lemma MoveOne(a: seq<Contract>, b: seq<Contract>, i: int)
    requires 0 <= i < |a|
    ensures multiset((a[..i] + a[i + 1..]) + (b + [a[i]])) == multiset(a + b)
  {
    assert a == a[..i] + [a[i]] + a[i + 1..];
  }

  class ContractBoard {
    var available: seq<Contract>
    var active: seq<Contract>
    var lastRefresh: real
    const refreshInterval: int

    constructor (now: real)
      ensures available == [] && active == []
      ensures lastRefresh == now && refreshInterval == 1800
    {
      available, active := [], [];
      lastRefresh := now;
      refreshInterval := 1800;
    }

    /** The position of the first contract of `s` that matches, as the
        board's `for` loops search for it. */
    static method Find(s: seq<Contract>, id: string, needCompleted: bool) returns (i: int)
      ensures i == FirstMatch(s, id, needCompleted)
    {
      i := 0;
      while i < |s| && !Matches(s[i], id, needCompleted)
        invariant 0 <= i <= |s|
        invariant forall j :: 0 <= j < i ==> !Matches(s[j], id, needCompleted)
      {
        i := i + 1;
      }
      if i == |s| {
        i := -1;
      }
    }

    /** Accepts the available contract at position `i` and moves it to the
        end of the active list. */
    method MoveToActive(i: int, now: real)
      requires 0 <= i < |available|
      modifies this`available, this`active, available[i]
      ensures available == old(available)[..i] + old(available)[i + 1..]
      ensures active == old(active) + [old(available)[i]]
      ensures multiset(available + active) == multiset(old(available) + old(active))
      ensures old(available)[i].acceptedTime == Some(now)
      ensures var c := old(available)[i];
        c.objectives == old(c.objectives) && c.completed == old(c.completed) && c.failed == old(c.failed)
    {
      var c := available[i];
      MoveOne(available, active, i);
      c.Accept(now);
      available := available[..i] + available[i + 1..];
      active := active + [c];
    }

    /** accept_contract: the first available contract with that id is
        accepted and moved to the end of the active list; None, with
        nothing changed, when no available contract has it. */
    method AcceptContract(id: string, now: real) returns (r: Option<Contract>)
      modifies this`available, this`active, available
      ensures var i := FirstMatch(old(available), id, false);
        if i == -1 then r == None && available == old(available) && active == old(active)
        else
          && r == Some(old(available)[i]) && r.value.contractId == id
          && available == old(available)[..i] + old(available)[i + 1..]
          && active == old(active) + [r.value]
          && r.value.acceptedTime == Some(now)
      ensures forall c :: c in old(available) && (r.None? || c != r.value) ==> unchanged(c)
      ensures r.Some? ==> unchanged(r.value`objectives, r.value`completed, r.value`failed)
    {
      var i := Find(available, id, false);
      if i == -1 {
        return None;
      }
      r := Some(available[i]);
      MoveToActive(i, now);
    }

    /** complete_contract: the first active contract with that id that is
        completed leaves the active list and its reward is paid; None, with
        nothing changed, when there is none. */
    method CompleteContract(id: string) returns (r: Option<int>)
      modifies this`active
      ensures var i := FirstMatch(old(active), id, true);
        if i == -1 then r == None && active == old(active)
        else
          && old(active)[i].completed && r == Some(old(active)[i].reward)
          && active == old(active)[..i] + old(active)[i + 1..]
    {
      var i := Find(active, id, true);
      if i == -1 {
        return None;
      }
      r := Some(active[i].reward);
      active := active[..i] + active[i + 1..];
    }

    /** abandon_contract: the first active contract with that id leaves the
        active list, completed or not. */
    method AbandonContract(id: string) returns (ok: bool)
      modifies this`active
      ensures var i := FirstMatch(old(active), id, false);
        && (ok <==> i != -1)
        && (i == -1 ==> active == old(active))
        && (i != -1 ==> active == old(active)[..i] + old(active)[i + 1..])
    {
      var i := Find(active, id, false);
      if i == -1 {
        return false;
      }
      active := active[..i] + active[i + 1..];
      ok := true;
    }

    /** check_expired_contracts: every active contract that has expired and
        is not completed is marked failed; no other flag changes. */
    method CheckExpiredContracts(now: real)
      modifies active
      ensures forall c :: c in active ==>
        c.failed == (old(c.failed) || (c.IsExpired(now) && !c.completed))
      ensures forall c :: c in active ==>
        c.objectives == old(c.objectives) && c.acceptedTime == old(c.acceptedTime) && c.completed == old(c.completed)
    {
      var k := 0;
      while k < |active|
        invariant 0 <= k <= |active|
        invariant forall c :: c in active ==>
          c.objectives == old(c.objectives) && c.acceptedTime == old(c.acceptedTime) && c.completed == old(c.completed)
        invariant forall c :: c in active[..k] ==>
          c.failed == (old(c.failed) || (c.IsExpired(now) && !c.completed))
        invariant forall c :: c in active && c !in active[..k] ==> c.failed == old(c.failed)
      {
        var c := active[k];
        if c.IsExpired(now) && !c.completed {
          c.failed := true;
        }
        assert active[..k + 1] == active[..k] + [c];
        k := k + 1;
      }
      assert active[..k] == active;
    }

    /** get_active_contracts: after the expiry check, the active contracts
        that are neither failed nor completed, in order. */
    method GetActiveContracts(now: real) returns (r: seq<Contract>)
      modifies active
      ensures r == Live(active)
      ensures forall c :: c in r <==> c in active && !c.completed && !old(c.failed) && !c.IsExpired(now)
    {
      CheckExpiredContracts(now);
      r := Live(active);
    }
  }
}
