/** The player character of player.py: credits, the ship's cargo hold and
    the per-location station storage, levelling, skill training and faction
    standings.  The source keeps `inventory` as a second name for the cargo
    map (`self.inventory = self.ship_cargo`); both names are the one field
    `shipCargo` here. */
module PlayerModel {
  import opened Common

  // ---------------------------------------------------------------- item ledgers

  /** `d[k] += q`, or `d[k] = q` for a new key. */
  function Added(m: map<string, int>, k: string, q: int): (r: map<string, int>)
    ensures Count(r, k) == Count(m, k) + q
    ensures forall j :: j != k ==> Count(r, j) == Count(m, j)
    ensures r.Keys == m.Keys + {k}
  {
    m[k := Count(m, k) + q]
  }

  /** `d[k] -= q`, deleting the key when it reaches zero (the key is present). */
  function Taken(m: map<string, int>, k: string, q: int): (r: map<string, int>)
    requires k in m
    ensures Count(r, k) == m[k] - q
    ensures forall j :: j != k ==> Count(r, j) == Count(m, j)
    ensures k in r <==> m[k] != q
    ensures forall j :: j != k ==> (j in r <==> j in m)
  {
    if m[k] - q == 0 then m - {k} else m[k := m[k] - q]
  }

  /** Every count in a ledger is non-negative. */
  predicate NonNegative(m: map<string, int>)
  {
    forall k :: k in m ==> m[k] >= 0
  }

  lemma TakenNonNegative(m: map<string, int>, k: string, q: int)
    requires k in m && NonNegative(m) && q <= m[k]
    ensures NonNegative(Taken(m, k, q))
  {
  }

  // ---------------------------------------------------------------- levelling

  /** `int(1000 * level * 1.5)`, the experience the next level needs. */
  function ToNext(level: int): int
  {
    Trunc(1000.0 * level as real * 1.5)
  }

  /** The float product is exact here: the threshold is 1500 per level. */
  lemma ToNextExact(level: int)
    ensures ToNext(level) == 1500 * level
  {
    assert 1000.0 * level as real * 1.5 == (1500 * level) as real;
  }

  /** The levelling state: level, experience, experience to the next level. */
  datatype Progression = Progression(level: int, experience: int, experienceToNext: int)

  predicate Levelled(p: Progression)
  {
    p.level >= 1 && p.experienceToNext > 0
  }

  /** The `while experience >= experience_to_next: level_up()` loop of
      add_experience, as a function of the state it starts from. */
  function Settle(p: Progression): (r: Progression)
    requires Levelled(p)
    ensures Levelled(r)
    decreases p.experience
  {
    if p.experience < p.experienceToNext then p
    else
      ToNextExact(p.level + 1);
      Settle(Progression(p.level + 1, p.experience - p.experienceToNext, ToNext(p.level + 1)))
  }

  /** The experience spent on the thresholds from level `from` (whose
      threshold is `toNext`) up to level `to`. */
  function Spent(from: int, toNext: int, to: int): int
    decreases to - from
  {
    if from >= to then 0 else toNext + Spent(from + 1, ToNext(from + 1), to)
  }

  /** What add_experience promises: the experience left is below the
      threshold, each threshold crossed adds one level and is paid out of
      the experience, and the new threshold is the one of the new level. */
  lemma {:induction false} SettleFacts(p: Progression)
    requires Levelled(p)
    ensures Settle(p).experience < Settle(p).experienceToNext
    ensures Settle(p).level >= p.level
    ensures Settle(p).experience + Spent(p.level, p.experienceToNext, Settle(p).level) == p.experience
    ensures Settle(p).level == p.level ==> Settle(p) == p
    ensures Settle(p).level > p.level ==> Settle(p).experienceToNext == ToNext(Settle(p).level)
    ensures p.experience >= 0 ==> Settle(p).experience >= 0
    decreases p.experience
  {
    if p.experience >= p.experienceToNext {
      var q := Progression(p.level + 1, p.experience - p.experienceToNext, ToNext(p.level + 1));
      ToNextExact(p.level + 1);
      SettleFacts(q);
    }
  }

  /** Adding experience in two steps lands where adding it at once does. */
  lemma {:induction false} SettleAdditive(p: Progression, a: int, b: int)
    requires Levelled(p)
    requires a >= 0 && b >= 0
    ensures var s := Settle(p.(experience := p.experience + a));
      Settle(s.(experience := s.experience + b)) == Settle(p.(experience := p.experience + a + b))
    decreases p.experience + a
  {
    var p' := p.(experience := p.experience + a);
    if p'.experience >= p'.experienceToNext {
      ToNextExact(p.level + 1);
      var q := Progression(p.level + 1, p'.experience - p'.experienceToNext, ToNext(p.level + 1));
      SettleAdditive(q.(experience := q.experience - a), a, b);
    }
  }

  // ---------------------------------------------------------------- skill training

  /** One entry of the training list. */
  datatype Training = Training(skillId: string, startTime: real, duration: real, targetLevel: int)

  /** A skill that finished training, newest first in the recent list. */
  datatype Completion = Completion(skillId: string, level: int, completionTime: real)

  /** The answer of start_skill_training. */
  datatype TrainingStart = TrainingStarted | UnknownSkill | AlreadyTraining | SlotsFull | AtMaxLevel

  /** No skill level is negative. */
  predicate SkillsNonNegative(skills: map<string, int>)
  {
    forall s :: s in skills ==> skills[s] >= 0
  }

  /** `x ** n` for a natural exponent. */
  function Pow(x: real, n: nat): real
  {
    if n == 0 then 1.0 else x * Pow(x, n - 1)
  }

  predicate IsTraining(training: seq<Training>, skillId: string)
  {
    exists i :: 0 <= i < |training| && training[i].skillId == skillId
  }

  /** The entries of `training` whose time has not yet run out at `now`. */
  function StillTraining(training: seq<Training>, now: real): seq<Training>
  {
    if training == [] then []
    else
      var n := |training| - 1;
      StillTraining(training[..n], now) +
        (if now - training[n].startTime >= training[n].duration then [] else [training[n]])
  }

  /** The skill levels after the finished entries of `training`, in order,
      have set their target levels. */
  function Trained(skills: map<string, int>, training: seq<Training>, now: real): map<string, int>
  {
    if training == [] then skills
    else
      var n := |training| - 1;
      var before := Trained(skills, training[..n], now);
      if now - training[n].startTime >= training[n].duration then before[training[n].skillId := training[n].targetLevel]
      else before
  }

  /** The experience the finished entries award: 50 per target level. */
  function TrainingXp(training: seq<Training>, now: real): int
  {
    if training == [] then 0
    else
      var n := |training| - 1;
      TrainingXp(training[..n], now) +
        (if now - training[n].startTime >= training[n].duration then 50 * training[n].targetLevel else 0)
  }

  /** The levelling state after the finished entries of `training` have
      each called add_experience with their award, in order. */
  function AfterTraining(p: Progression, training: seq<Training>, now: real): (r: Progression)
    requires Levelled(p)
    ensures Levelled(r)
  {
    if training == [] then p
    else
      var n := |training| - 1;
      var before := AfterTraining(p, training[..n], now);
      if now - training[n].startTime >= training[n].duration then
        Settle(before.(experience := before.experience + 50 * training[n].targetLevel))
      else before
  }

  /** With non-negative target levels, awarding the finished entries one
      by one lands where awarding their total at once does. */
  lemma {:induction false} AfterTrainingIsTotal(p: Progression, training: seq<Training>, now: real)
    requires Levelled(p) && p.experience < p.experienceToNext
    requires forall i :: 0 <= i < |training| ==> training[i].targetLevel >= 0
    ensures TrainingXp(training, now) >= 0
    ensures AfterTraining(p, training, now) == Settle(p.(experience := p.experience + TrainingXp(training, now)))
  {
    if training != [] {
      var n := |training| - 1;
      AfterTrainingIsTotal(p, training[..n], now);
      if now - training[n].startTime >= training[n].duration {
        SettleAdditive(p, TrainingXp(training[..n], now), 50 * training[n].targetLevel);
      }
    }
  }

  /** The recently completed list after the finished entries, each pushed
      on the front and the list cut back to three. */
  function Recent(recent: seq<Completion>, training: seq<Training>, now: real): (r: seq<Completion>)
    ensures |recent| <= 3 ==> |r| <= 3
  {
    if training == [] then recent
    else
      var n := |training| - 1;
      var before := Recent(recent, training[..n], now);
      if now - training[n].startTime >= training[n].duration then
        ([Completion(training[n].skillId, training[n].targetLevel, now)] + before)[..Min(3, |before| + 1)]
      else before
  }

  /** Finished entries leave the list, unfinished ones stay in order. */
  lemma {:induction false} StillTrainingFilters(training: seq<Training>, now: real)
    ensures forall t :: t in StillTraining(training, now) <==>
      t in training && now - t.startTime < t.duration
    ensures |StillTraining(training, now)| <= |training|
  {
    if training != [] {
      var n := |training| - 1;
      StillTrainingFilters(training[..n], now);
      assert training == training[..n] + [training[n]];
    }
  }

  /** A finished entry for a skill no later entry trains sets that skill
      to its target level; a skill no finished entry names keeps its level. */
  lemma {:induction false} TrainedLevels(skills: map<string, int>, training: seq<Training>, now: real, s: string)
    ensures (forall i :: 0 <= i < |training| ==>
               training[i].skillId == s ==> now - training[i].startTime < training[i].duration) ==>
            Count(Trained(skills, training, now), s) == Count(skills, s)
    ensures forall i :: (0 <= i < |training| && training[i].skillId == s &&
                         now - training[i].startTime >= training[i].duration &&
                         (forall k :: i < k < |training| ==> training[k].skillId != s)) ==>
            Count(Trained(skills, training, now), s) == training[i].targetLevel
  {
    if training != [] {
      var n := |training| - 1;
      TrainedLevels(skills, training[..n], now, s);
    }
  }

  // ---------------------------------------------------------------- faction standings

  predicate StandingsBounded(standings: map<string, real>)
  {
    forall f :: f in standings ==> -1.0 <= standings[f] <= 1.0
  }

  // ---------------------------------------------------------------- the player

  class Player {
    /** SKILLS: each skill's maximum level. */
    const maxLevels: map<string, int>
    var credits: int
    var totalEarnings: int
    var totalSpent: int
    var location: string
    var level: int
    var experience: int
    var experienceToNext: int
    var skills: map<string, int>
    var skillTraining: seq<Training>
    var recentSkills: seq<Completion>
    var shipCargo: map<string, int>
    var stationInventories: map<string, map<string, int>>
    var factionStandings: map<string, real>

    /** A new player at Nexus Prime: level 1, every skill at 0 except Scout
        Piloting at 1, empty holds, neutral standings except the pirates. */
    constructor (credits: int, maxLevels: map<string, int>)
      ensures this.maxLevels == maxLevels
      ensures this.credits == credits && totalEarnings == 0 && totalSpent == 0
      ensures location == "nexus_prime"
      ensures level == 1 && experience == 0 && experienceToNext == 1000
      ensures skills == (map s | s in maxLevels :: 0)["scout_piloting" := 1]
      ensures skillTraining == [] && recentSkills == []
      ensures shipCargo == map[] && stationInventories == map[]
      ensures factionStandings == map["meridian_collective" := 0.0, "cipher_dominion" := 0.0,
                                      "technocrat_union" := 0.0, "void_corsairs" := -0.2]
    {
      this.maxLevels := maxLevels;
      this.credits := credits;
      totalEarnings, totalSpent := 0, 0;
      location := "nexus_prime";
      level, experience, experienceToNext := 1, 0, 1000;
      skills := (map s | s in maxLevels :: 0)["scout_piloting" := 1];
      skillTraining, recentSkills := [], [];
      shipCargo, stationInventories := map[], map[];
      factionStandings := map["meridian_collective" := 0.0, "cipher_dominion" := 0.0,
                              "technocrat_union" := 0.0, "void_corsairs" := -0.2];
    }

    function Progress(): Progression
      reads this
    {
      Progression(level, experience, experienceToNext)
    }

    // ------------------------------------------------------------ credits

    /** add_credits: only a positive amount counts as earnings. */
    method AddCredits(amount: int)
      modifies this`credits, this`totalEarnings
      ensures credits == old(credits) + amount
      ensures totalEarnings == old(totalEarnings) + (if amount > 0 then amount else 0)
    {
      credits := credits + amount;
      if amount > 0 {
        totalEarnings := totalEarnings + amount;
      }
    }

    /** spend_credits: succeeds exactly when the credits cover the amount,
        and then moves it from the credits to the spending total. */
    method SpendCredits(amount: int) returns (ok: bool)
      modifies this`credits, this`totalSpent
      ensures ok <==> old(credits) >= amount
      ensures ok ==> credits == old(credits) - amount && totalSpent == old(totalSpent) + amount
      ensures !ok ==> credits == old(credits) && totalSpent == old(totalSpent)
      ensures credits + totalSpent == old(credits) + old(totalSpent)
    {
      if credits >= amount {
        credits := credits - amount;
        totalSpent := totalSpent + amount;
        return true;
      }
      return false;
    }

    // ------------------------------------------------------------ cargo

    /** has_item. */
    predicate HasItem(itemId: string, quantity: int)
      reads this
    {
      itemId in shipCargo && shipCargo[itemId] >= quantity
    }

    /** add_item: with a capacity, `canAdd` (can_add_item of the volume
        system) must accept the cargo first; without one the items always
        go in.  On success the count rises by exactly `quantity`. */
    method AddItem(itemId: string, quantity: int, capacity: Option<real>,
                   canAdd: (map<string, int>, real, string, int) -> bool) returns (ok: bool)
      modifies this`shipCargo
      ensures ok <==> capacity.None? || canAdd(old(shipCargo), capacity.value, itemId, quantity)
      ensures ok ==> Count(shipCargo, itemId) == Count(old(shipCargo), itemId) + quantity
      ensures forall k :: k != itemId ==> Count(shipCargo, k) == Count(old(shipCargo), k)
      ensures ok ==> shipCargo == Added(old(shipCargo), itemId, quantity)
      ensures !ok ==> shipCargo == old(shipCargo)
    {
      if capacity.Some? && !canAdd(shipCargo, capacity.value, itemId, quantity) {
        return false;
      }
      shipCargo := Added(shipCargo, itemId, quantity);
      return true;
    }

    /** remove_item: fails unchanged unless the hold has `quantity`; then
        subtracts it and drops an entry that reaches zero. */
    method RemoveItem(itemId: string, quantity: int) returns (ok: bool)
      modifies this`shipCargo
      ensures ok <==> old(HasItem(itemId, quantity))
      ensures ok ==> shipCargo == Taken(old(shipCargo), itemId, quantity)
      ensures ok ==> Count(shipCargo, itemId) == Count(old(shipCargo), itemId) - quantity
      ensures !ok ==> shipCargo == old(shipCargo)
      ensures NonNegative(old(shipCargo)) ==> NonNegative(shipCargo)
    {
      if itemId in shipCargo && shipCargo[itemId] >= quantity {
        shipCargo := Taken(shipCargo, itemId, quantity);
        return true;
      }
      return false;
    }

    /** get_total_accessible_quantity: the hold's count and the count in
        the storage at the current location. */
    function ShipQuantity(itemId: string): int
      reads this
    {
      Count(shipCargo, itemId)
    }

    function StationQuantity(itemId: string): int
      reads this
    {
      if location in stationInventories then Count(stationInventories[location], itemId) else 0
    }

    /** What remove_item_multi_source can draw on: the hold and the local
        storage together, never negative and never less than either part
        while the ledgers hold no negative count. */
    function TotalAccessible(itemId: string): (total: int)
      reads this
      ensures LedgersNonNegative() ==>
        0 <= ShipQuantity(itemId) <= total && 0 <= StationQuantity(itemId) <= total
    {
      ShipQuantity(itemId) + StationQuantity(itemId)
    }

    /** Every count in the hold and in every station's storage is
        non-negative. */
    predicate LedgersNonNegative()
      reads this
    {
      NonNegative(shipCargo) && forall loc :: loc in stationInventories ==> NonNegative(stationInventories[loc])
    }

    /** get_station_inventory: creates an empty storage on first access. */
    method EnsureStation(locationId: string)
      modifies this`stationInventories
      ensures stationInventories ==
        if locationId in old(stationInventories) then old(stationInventories)
        else old(stationInventories)[locationId := map[]]
    {
      if locationId !in stationInventories {
        stationInventories := stationInventories[locationId := map[]];
      }
    }

    /** remove_item_multi_source: fails unchanged when the hold and the
        local storage together lack `quantity`; otherwise takes what it can
        from the hold first and the rest from the local storage. */
    method RemoveItemMultiSource(itemId: string, quantity: int)
      returns (ok: bool, fromShip: int, fromStation: int)
      modifies this`shipCargo, this`stationInventories
      ensures ok <==> old(TotalAccessible(itemId)) >= quantity
      ensures !ok ==> (fromShip == 0 && fromStation == 0 &&
                       shipCargo == old(shipCargo) && stationInventories == old(stationInventories))
      ensures ok ==> fromShip == (if old(ShipQuantity(itemId)) > 0 then Min(quantity, old(ShipQuantity(itemId))) else 0)
      ensures ok && old(LedgersNonNegative()) && quantity >= 0 ==>
        fromShip + fromStation == quantity && 0 <= fromStation <= old(StationQuantity(itemId)) &&
        ShipQuantity(itemId) == old(ShipQuantity(itemId)) - fromShip &&
        StationQuantity(itemId) == old(StationQuantity(itemId)) - fromStation &&
        LedgersNonNegative()
      ensures ok ==> (shipCargo ==
        if old(ShipQuantity(itemId)) > 0 then Taken(old(shipCargo), itemId, fromShip) else old(shipCargo))
      ensures ok ==> (stationInventories ==
        if quantity - fromShip > 0 && old(StationQuantity(itemId)) > 0
        then old(stationInventories)[location := Taken(old(stationInventories)[location], itemId, fromStation)]
        else old(stationInventories))
    {
      var ship, station := ShipQuantity(itemId), StationQuantity(itemId);
      if ship + station < quantity {
        return false, 0, 0;
      }
      var remaining := quantity;
      fromShip, fromStation := 0, 0;
      if ship > 0 {
        var toRemove := Min(remaining, ship);
        shipCargo := Taken(shipCargo, itemId, toRemove);
        fromShip := toRemove;
        remaining := remaining - toRemove;
      }
      if remaining > 0 && station > 0 {
        EnsureStation(location);
        var toRemove := Min(remaining, station);
        stationInventories := stationInventories[location := Taken(stationInventories[location], itemId, toRemove)];
        fromStation := toRemove;
        remaining := remaining - toRemove;
      }
      ok := true;
    }

    /** get_accessible_stations, as a membership test: the current location,
        and with Logistics Management 5 every station holding storage. */
    predicate Accessible(locationId: string)
      reads this
    {
      locationId == location || (Count(skills, "logistics_management") >= 5 && locationId in stationInventories)
    }

    /** transfer_to_station: only at the current location and only what the
        hold has; the item's count in hold plus storage is unchanged. */
    method TransferToStation(itemId: string, quantity: int, locationId: Option<string>) returns (ok: bool)
      modifies this`shipCargo, this`stationInventories
      ensures ok <==> locationId.GetOr(location) == location && old(HasItem(itemId, quantity))
      ensures !ok ==> shipCargo == old(shipCargo) && stationInventories == old(stationInventories)
      ensures ok ==> shipCargo == Taken(old(shipCargo), itemId, quantity)
      ensures ok ==> (location in stationInventories &&
        stationInventories == old(stationInventories)[location := Added(
          if location in old(stationInventories) then old(stationInventories)[location] else map[], itemId, quantity)])
      ensures ok ==> (ShipQuantity(itemId) + StationQuantity(itemId) ==
        old(ShipQuantity(itemId)) + old(StationQuantity(itemId)))
      ensures ok && quantity >= 0 && old(LedgersNonNegative()) ==> LedgersNonNegative()
    {
      var target := locationId.GetOr(location);
      if target != location {
        return false;
      }
      if !HasItem(itemId, quantity) {
        return false;
      }
      ok := RemoveItem(itemId, quantity);
      EnsureStation(target);
      stationInventories := stationInventories[target := Added(stationInventories[target], itemId, quantity)];
    }

    /** transfer_to_ship: from any accessible station, only what its storage
        has, into the hold with no capacity check.  The storage is created
        empty on access, before the quantity test. */
    method TransferToShip(itemId: string, quantity: int, locationId: Option<string>) returns (ok: bool)
      modifies this`shipCargo, this`stationInventories
      ensures var target := locationId.GetOr(old(location));
        ok <==> old(Accessible(target)) && target in old(stationInventories) &&
                itemId in old(stationInventories)[target] && old(stationInventories)[target][itemId] >= quantity
      ensures var target := locationId.GetOr(old(location));
        !ok ==> (shipCargo == old(shipCargo) &&
          stationInventories ==
            if old(Accessible(target)) && target !in old(stationInventories)
            then old(stationInventories)[target := map[]] else old(stationInventories))
      ensures var target := locationId.GetOr(old(location));
        ok ==> (shipCargo == Added(old(shipCargo), itemId, quantity) &&
          stationInventories == old(stationInventories)[target := Taken(old(stationInventories)[target], itemId, quantity)])
      ensures var target := locationId.GetOr(old(location));
        ok ==> (Count(shipCargo, itemId) + Count(stationInventories[target], itemId) ==
          Count(old(shipCargo), itemId) + Count(old(stationInventories)[target], itemId))
      ensures ok && quantity >= 0 && old(LedgersNonNegative()) ==> LedgersNonNegative()
    {
      var target := locationId.GetOr(location);
      if !Accessible(target) {
        return false;
      }
      EnsureStation(target);
      var storage := stationInventories[target];
      if itemId !in storage || storage[itemId] < quantity {
        return false;
      }
      stationInventories := stationInventories[target := Taken(storage, itemId, quantity)];
      ok := AddItem(itemId, quantity, None, (m: map<string, int>, c: real, i: string, q: int) => true);
    }

    // ------------------------------------------------------------ levelling

    /** add_experience: adds the amount and levels up while the experience
        reaches the threshold. */
    method AddExperience(amount: int)
      requires Levelled(Progress())
      modifies this`level, this`experience, this`experienceToNext
      ensures Progress() == Settle(old(Progress()).(experience := old(experience) + amount))
      ensures Levelled(Progress()) && experience < experienceToNext
    {
      experience := experience + amount;
      while experience >= experienceToNext
        invariant Levelled(Progress())
        invariant Settle(Progress()) == Settle(old(Progress()).(experience := old(experience) + amount))
        decreases experience
      {
        LevelUp();
      }
    }

    /** level_up: one more level, paid for with the current threshold. */
    method LevelUp()
      requires Levelled(Progress())
      modifies this`level, this`experience, this`experienceToNext
      ensures level == old(level) + 1
      ensures experience == old(experience) - old(experienceToNext)
      ensures experienceToNext == ToNext(level) == 1500 * level
      ensures Levelled(Progress())
    {
      level := level + 1;
      experience := experience - experienceToNext;
      ToNextExact(level);
      experienceToNext := ToNext(level);
    }

    // ------------------------------------------------------------ skill training

    function SkillLevel(skillId: string): int
      reads this
      ensures SkillsNonNegative(skills) ==> SkillLevel(skillId) >= 0
    {
      Count(skills, skillId)
    }

    /** get_max_training_slots: one, plus one per Multi-Tasking level. */
    function MaxTrainingSlots(): int
      reads this
    {
      1 + SkillLevel("multi_tasking")
    }

    /** start_skill_training: rejects an unknown skill, then a skill already
        in training, then a full set of slots, then a skill at its maximum;
        otherwise appends one entry aiming one level up, whose duration is
        `baseTime * multiplier ** level` (BASE_SKILL_TRAIN_TIME and
        SKILL_TIME_MULTIPLIER of the configuration). */
    method StartSkillTraining(skillId: string, baseTime: real, multiplier: real, now: real)
      returns (r: TrainingStart)
      requires SkillsNonNegative(skills)
      modifies this`skillTraining
      ensures r == UnknownSkill <==> skillId !in maxLevels
      ensures r == AlreadyTraining <==> skillId in maxLevels && IsTraining(old(skillTraining), skillId)
      ensures r == SlotsFull <==>
        skillId in maxLevels && !IsTraining(old(skillTraining), skillId) && |old(skillTraining)| >= MaxTrainingSlots()
      ensures r == AtMaxLevel <==>
        skillId in maxLevels && !IsTraining(old(skillTraining), skillId) && |old(skillTraining)| < MaxTrainingSlots() &&
        SkillLevel(skillId) >= maxLevels[skillId]
      ensures r != TrainingStarted ==> skillTraining == old(skillTraining)
      ensures r == TrainingStarted ==>
        skillTraining == old(skillTraining) +
          [Training(skillId, now, baseTime * Pow(multiplier, old(SkillLevel(skillId))), old(SkillLevel(skillId)) + 1)]
      ensures |skillTraining| <= Max(|old(skillTraining)|, MaxTrainingSlots())
    {
      if skillId !in maxLevels {
        return UnknownSkill;
      }
      var i := 0;
      while i < |skillTraining|
        invariant 0 <= i <= |skillTraining|
        invariant skillTraining == old(skillTraining)
        invariant forall k :: 0 <= k < i ==> skillTraining[k].skillId != skillId
      {
        if skillTraining[i].skillId == skillId {
          return AlreadyTraining;
        }
        i := i + 1;
      }
      if |skillTraining| >= MaxTrainingSlots() {
        return SlotsFull;
      }
      var current := SkillLevel(skillId);
      if current >= maxLevels[skillId] {
        return AtMaxLevel;
      }
      var duration := baseTime * Pow(multiplier, current);
      skillTraining := skillTraining + [Training(skillId, now, duration, current + 1)];
      r := TrainingStarted;
      assert duration == baseTime * Pow(multiplier, old(SkillLevel(skillId)));
    }

    /** check_skill_training: every entry whose time has run out sets its
        skill to the target level, awards 50 experience per target level
        and is pushed on the recent list (kept to three); the others stay
        in training, in order. */
    method CheckSkillTraining(now: real) returns (completed: seq<Training>)
      requires Levelled(Progress())
      modifies this`skills, this`skillTraining, this`recentSkills,
               this`level, this`experience, this`experienceToNext
      ensures skillTraining == StillTraining(old(skillTraining), now)
      ensures skills == Trained(old(skills), old(skillTraining), now)
      ensures recentSkills == Recent(old(recentSkills), old(skillTraining), now)
      ensures Progress() == AfterTraining(old(Progress()), old(skillTraining), now)
    {
      completed := [];
      var entries := skillTraining;
      var remaining := [];
      var i := 0;
      while i < |entries|
        invariant 0 <= i <= |entries|
        invariant remaining == StillTraining(entries[..i], now)
        invariant skills == Trained(old(skills), entries[..i], now)
        invariant recentSkills == Recent(old(recentSkills), entries[..i], now)
        invariant Levelled(Progress())
        invariant Progress() == AfterTraining(old(Progress()), entries[..i], now)
      {
        assert entries[..i + 1][..i] == entries[..i];
        var t := entries[i];
        if now - t.startTime >= t.duration {
          skills := skills[t.skillId := t.targetLevel];
          AddExperience(50 * t.targetLevel);
          var pushed := [Completion(t.skillId, t.targetLevel, now)] + recentSkills;
          recentSkills := pushed[..Min(3, |pushed|)];
          completed := completed + [t];
        } else {
          remaining := remaining + [t];
        }
        i := i + 1;
      }
      assert entries[..i] == entries;
      skillTraining := remaining;
    }

    // ------------------------------------------------------------ faction standings

    /** modify_faction_standing: a known faction's standing moves by
        `change` and is clamped to [-1, 1]; an unknown faction is ignored. */
    method ModifyFactionStanding(factionId: string, change: real)
      modifies this`factionStandings
      ensures factionId in old(factionStandings) ==>
        factionStandings == old(factionStandings)[factionId := ClampR(old(factionStandings)[factionId] + change, -1.0, 1.0)]
      ensures factionId !in old(factionStandings) ==> factionStandings == old(factionStandings)
      ensures factionStandings.Keys == old(factionStandings).Keys
      ensures StandingsBounded(old(factionStandings)) ==> StandingsBounded(factionStandings)
    {
      if factionId in factionStandings {
        factionStandings := factionStandings[factionId := MaxR(-1.0, MinR(1.0, factionStandings[factionId] + change))];
      }
    }
  }
}
