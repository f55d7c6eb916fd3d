/** The game engine of game_engine.py as far as it moves items and credits:
    refining raw ore, trading with a wandering trader, the base price every
    trade starts from, and the cargo clamp on a mining yield.  The vessel,
    the volume system and the random draws are not part of this model: the
    vessel's refinery, cargo capacity and mining figures, the cargo volume,
    `can_add_item` and every random value arrive as parameters. */
module Engine {
  import opened Common
  import opened Catalog
  import opened PlayerModel

  // ---------------------------------------------------------------- prices

  /** _get_item_base_price: a resource's base price, else a commodity's,
      else a module's cost (1000 when it has none), else 100. */
  function ItemBasePrice(c: Catalog, itemId: string): int
  {
    if itemId in c.AllResources() then c.AllResources()[itemId].basePrice
    else if itemId in c.commodityPrices then c.commodityPrices[itemId]
    else if itemId in c.modules then c.modules[itemId].cost.GetOr(1000)
    else 100
  }

  /** Every listed price and cost is positive. */
  predicate PricedPositively(c: Catalog)
  {
    c.PricesPositive() &&
    (forall k :: k in c.commodityPrices ==> c.commodityPrices[k] > 0) &&
    (forall k :: k in c.modules && c.modules[k].cost.Some? ==> c.modules[k].cost.value > 0)
  }

  /** With positive tables every item, listed or not, has a positive base price. */
  lemma ItemBasePricePositive(c: Catalog, itemId: string)
    requires PricedPositively(c)
    ensures ItemBasePrice(c, itemId) > 0
  {
    if itemId in c.AllResources() {
      assert c.AllResources()[itemId].basePrice > 0;
    }
  }

  /** `int(base_price * quantity * 1.2)`, what the trader charges. */
  function TraderAsk(basePrice: int, quantity: int): int
  {
    Trunc((basePrice * quantity) as real * 1.2)
  }

  /** `int(base_price * quantity * 0.8)`, what the trader pays. */
  function TraderBid(basePrice: int, quantity: int): int
  {
    Trunc((basePrice * quantity) as real * 0.8)
  }

  /** The trader's spread: buying a lot back never pays more than it cost,
      and from a value of 3 on it costs strictly more. */
  lemma TraderSpread(basePrice: int, quantity: int)
    requires basePrice * quantity >= 0
    ensures 0 <= TraderBid(basePrice, quantity) <= TraderAsk(basePrice, quantity)
    ensures basePrice * quantity >= 3 ==> TraderBid(basePrice, quantity) < TraderAsk(basePrice, quantity)
  {
    var x := (basePrice * quantity) as real;
    TruncMonotone(x * 0.8, x * 1.2);
  }

  // ---------------------------------------------------------------- trading

  /** A trader encounter: its goods and its credits (the dictionary
      current_trader, without its name and vessel). */
  class Trader {
    var inventory: map<string, int>
    var credits: int

    constructor(inventory: map<string, int>, credits: int)
      ensures this.inventory == inventory && this.credits == credits
    {
      this.inventory := inventory;
      this.credits := credits;
    }
  }

  datatype TradeResult =
    | NoTrader
    | TraderShort       // the trader lacks the goods
    | CreditsShort      // the player cannot pay
    | CargoFull         // the hold rejected the goods; the price was refunded
    | NotHeld           // the player lacks the goods
    | TraderBroke       // the trader cannot pay
    | Traded(amount: int)

  /** The buying branch of trade_with_trader: the trader must hold
      `quantity`, the player must afford the asking price, and the hold must
      accept the goods, else the price is refunded (the spending and the
      refund both stay in the player's totals). */
  method BuyFromTrader(p: Player, trader: Trader, c: Catalog, itemId: string, quantity: int,
                       capacity: real, canAdd: (map<string, int>, real, string, int) -> bool)
    returns (r: TradeResult)
    modifies p`credits, p`totalSpent, p`totalEarnings, p`shipCargo, trader
    ensures p.credits + trader.credits == old(p.credits) + old(trader.credits)
    ensures r == TraderShort <==> itemId !in old(trader.inventory) || old(trader.inventory)[itemId] < quantity
    ensures r == CreditsShort <==>
      r != TraderShort && old(p.credits) < TraderAsk(ItemBasePrice(c, itemId), quantity)
    ensures r == CargoFull <==>
      r != TraderShort && r != CreditsShort && !canAdd(old(p.shipCargo), capacity, itemId, quantity)
    ensures r.Traded? <==> r !in {TraderShort, CreditsShort, CargoFull}
    ensures r.Traded? ==>
      var price := TraderAsk(ItemBasePrice(c, itemId), quantity);
      r.amount == price && p.credits == old(p.credits) - price &&
      p.shipCargo == Added(old(p.shipCargo), itemId, quantity) &&
      trader.inventory == Taken(old(trader.inventory), itemId, quantity) &&
      p.totalSpent == old(p.totalSpent) + price && p.totalEarnings == old(p.totalEarnings)
    ensures r == CargoFull ==>
      var price := TraderAsk(ItemBasePrice(c, itemId), quantity);
      p.totalSpent == old(p.totalSpent) + price &&
      p.totalEarnings == old(p.totalEarnings) + (if price > 0 then price else 0)
    ensures !r.Traded? ==>
      p.credits == old(p.credits) && p.shipCargo == old(p.shipCargo) &&
      trader.inventory == old(trader.inventory) && trader.credits == old(trader.credits)
    ensures r in {TraderShort, CreditsShort} ==>
      p.totalSpent == old(p.totalSpent) && p.totalEarnings == old(p.totalEarnings)
  {
    if itemId !in trader.inventory || trader.inventory[itemId] < quantity {
      return TraderShort;
    }
    var price := TraderAsk(ItemBasePrice(c, itemId), quantity);
    if p.credits < price {
      return CreditsShort;
    }
    var paid := p.SpendCredits(price);
    var added := p.AddItem(itemId, quantity, Some(capacity), canAdd);
    if !added {
      p.AddCredits(price);
      return CargoFull;
    }
    trader.inventory := Taken(trader.inventory, itemId, quantity);
    trader.credits := trader.credits + price;
    r := Traded(price);
  }

  /** The selling branch of trade_with_trader: the player must hold
      `quantity` and the trader must afford the bid. */
  method SellToTrader(p: Player, trader: Trader, c: Catalog, itemId: string, quantity: int)
    returns (r: TradeResult)
    modifies p`credits, p`totalEarnings, p`shipCargo, trader
    ensures p.credits + trader.credits == old(p.credits) + old(trader.credits)
    ensures r == NotHeld <==> !old(p.HasItem(itemId, quantity))
    ensures r == TraderBroke <==>
      old(p.HasItem(itemId, quantity)) && old(trader.credits) < TraderBid(ItemBasePrice(c, itemId), quantity)
    ensures r.Traded? <==> r != NotHeld && r != TraderBroke
    ensures r.Traded? ==>
      var price := TraderBid(ItemBasePrice(c, itemId), quantity);
      r.amount == price && p.credits == old(p.credits) + price &&
      p.shipCargo == Taken(old(p.shipCargo), itemId, quantity) &&
      trader.inventory == Added(old(trader.inventory), itemId, quantity) &&
      p.totalEarnings == old(p.totalEarnings) + (if price > 0 then price else 0)
    ensures !r.Traded? ==>
      p.credits == old(p.credits) && p.shipCargo == old(p.shipCargo) && p.totalEarnings == old(p.totalEarnings) &&
      trader.inventory == old(trader.inventory) && trader.credits == old(trader.credits)
  {
    if !p.HasItem(itemId, quantity) {
      return NotHeld;
    }
    var price := TraderBid(ItemBasePrice(c, itemId), quantity);
    if trader.credits < price {
      return TraderBroke;
    }
    var removed := p.RemoveItem(itemId, quantity);
    p.AddCredits(price);
    trader.inventory := Added(trader.inventory, itemId, quantity);
    trader.credits := trader.credits - price;
    r := Traded(price);
  }

  /** trade_with_trader: no trader, no trade; otherwise the buying or the
      selling branch.  Credits only ever move between the two parties, and
      a refused trade moves no goods and no credits. */
  method TradeWithTrader(p: Player, trader: Trader?, c: Catalog, itemId: string, quantity: int,
                         isBuying: bool, capacity: real,
                         canAdd: (map<string, int>, real, string, int) -> bool)
    returns (r: TradeResult)
    modifies p`credits, p`totalSpent, p`totalEarnings, p`shipCargo, trader
    ensures r == NoTrader <==> trader == null
    ensures trader != null ==> p.credits + trader.credits == old(p.credits) + old(trader.credits)
    ensures trader != null && !r.Traded? ==>
      p.credits == old(p.credits) && p.shipCargo == old(p.shipCargo) &&
      trader.inventory == old(trader.inventory) && trader.credits == old(trader.credits)
    ensures isBuying ==> r in {NoTrader, TraderShort, CreditsShort, CargoFull} || r.Traded?
    ensures !isBuying ==> r in {NoTrader, NotHeld, TraderBroke} || r.Traded?
  {
    if trader == null {
      return NoTrader;
    }
    if isBuying {
      r := BuyFromTrader(p, trader, c, itemId, quantity, capacity, canAdd);
    } else {
      r := SellToTrader(p, trader, c, itemId, quantity);
    }
  }

  // ---------------------------------------------------------------- refining

  /** The quantities refine_ore works out once its gates pass: raw ore
      taken from the hold and from the local storage, and refined output
      for each side. */
  datatype RefinePlan = RefinePlan(shipRaw: int, stationRaw: int, shipRefined: int, stationRefined: int, total: int)

  /** One yield draw for the whole batch, floored at one unit; the hold
      supplies what it can; a batch drawn from both sides splits the output
      in proportion, with at least one unit for the hold. */
  function PlanRefining(quantity: int, shipQty: int, yieldPercent: real): RefinePlan
    requires quantity >= 1
  {
    var total := Max(1, Trunc(quantity as real * yieldPercent));
    var shipRaw := Min(quantity, shipQty);
    var stationRaw := quantity - shipRaw;
    if shipRaw > 0 && stationRaw > 0 then
      var shipRefined := Max(1, Trunc(total as real * (shipRaw as real / quantity as real)));
      RefinePlan(shipRaw, stationRaw, shipRefined, total - shipRefined, total)
    else if shipRaw > 0 then RefinePlan(shipRaw, stationRaw, total, 0, total)
    else RefinePlan(shipRaw, stationRaw, 0, total, total)
  }

  lemma DivLtOne(a: real, b: real)
    requires 0.0 <= a < b
    ensures 0.0 <= a / b < 1.0
  {
    assert (a / b) * b == a;
  }

  /** The batch total: at least one unit, at most the batch, and otherwise
      the truncated product. */
  lemma RefinedTotalBounds(quantity: int, yieldPercent: real)
    requires quantity >= 1 && 0.0 < yieldPercent < 1.0
    ensures var total := Max(1, Trunc(quantity as real * yieldPercent));
      1 <= total <= quantity &&
      (total == 1 || total as real <= quantity as real * yieldPercent < total as real + 1.0)
  {
    var q := quantity as real;
    MulLt(q, yieldPercent, 1.0);
    MulLt(q, 0.0, yieldPercent);
    var p := q * yieldPercent;
    assert 0.0 < p < q;
    var t := Trunc(p);
    assert t as real <= p;
  }

  /** The hold's share of a split batch lies between one unit and the total. */
  lemma ShipShareBounds(total: int, shipRaw: int, quantity: int)
    requires total >= 1 && 0 < shipRaw < quantity
    ensures 1 <= Max(1, Trunc(total as real * (shipRaw as real / quantity as real))) <= total
  {
    var ratio := shipRaw as real / quantity as real;
    DivLtOne(shipRaw as real, quantity as real);
    MulLt(total as real, ratio, 1.0);
    MulLe(total as real, 0.0, ratio);
  }

  /** The plan conserves both quantities: raw ore taken is exactly the
      batch, the two outputs add up to the total, the total lies between one
      unit and the batch, and output goes back only to a side that supplied
      ore (everything to the hold when the hold supplied all). */
  lemma PlanFacts(quantity: int, shipQty: int, yieldPercent: real)
    requires quantity >= 1 && shipQty >= 0 && 0.0 < yieldPercent < 1.0
    ensures var plan := PlanRefining(quantity, shipQty, yieldPercent);
      && plan.shipRaw + plan.stationRaw == quantity
      && 0 <= plan.shipRaw <= shipQty && 0 <= plan.stationRaw
      && plan.shipRefined + plan.stationRefined == plan.total
      && 1 <= plan.total <= quantity
      && (plan.total == 1 || plan.total as real <= quantity as real * yieldPercent < plan.total as real + 1.0)
      && 0 <= plan.shipRefined && 0 <= plan.stationRefined
      && (plan.shipRefined > 0 <==> plan.shipRaw > 0)
      && (plan.stationRefined > 0 ==> plan.stationRaw > 0)
      && (shipQty >= quantity ==> plan.shipRaw == quantity && plan.shipRefined == plan.total)
      && (shipQty == 0 ==> plan.stationRaw == quantity && plan.stationRefined == plan.total)
  {
    RefinedTotalBounds(quantity, yieldPercent);
    var total := Max(1, Trunc(quantity as real * yieldPercent));
    var plan := PlanRefining(quantity, shipQty, yieldPercent);
    assert plan.total == total;
    var shipRaw := Min(quantity, shipQty);
    if shipRaw > 0 && quantity - shipRaw > 0 {
      ShipShareBounds(total, shipRaw, quantity);
      assert 1 <= plan.shipRefined <= total;
    } else if shipRaw > 0 {
      assert plan.shipRefined == total && plan.stationRefined == 0;
    } else {
      assert shipRaw == 0 && plan.shipRefined == 0 && plan.stationRefined == total;
    }
  }

  /** `refines_to` present and non-empty. */
  predicate Refinable(ore: ResourceDef)
  {
    ore.refinesTo.Some? && ore.refinesTo.value != ""
  }

  /** What refine_ore demands of the tables and of the yield draw: the draw
      lies in the ore's yield range and the refined resource is listed. */
  predicate RefineInputs(c: Catalog, rawOreId: string, yieldPercent: real)
  {
    rawOreId in c.rawResources ==>
      var ore := c.rawResources[rawOreId];
      YieldRange(ore.rarity).0 <= yieldPercent <= YieldRange(ore.rarity).1 &&
      (Refinable(ore) ==> ore.refinesTo.value in c.AllResources())
  }

  /** The first four gates pass: a refinery or a mothership, a raw ore,
      enough of it in the hold and local storage, and something to refine it to. */
  predicate Admitted(c: Catalog, refinery: bool, rawOreId: string, quantity: int, accessible: int)
  {
    refinery && rawOreId in c.rawResources && accessible >= quantity && Refinable(c.rawResources[rawOreId])
  }

  /** The hold's volume after swapping the ship's raw ore for its refined
      output exceeds the capacity. */
  function Overflows(c: Catalog, rawOreId: string, plan: RefinePlan, volume: real, capacity: real): bool
    requires rawOreId in c.rawResources && Refinable(c.rawResources[rawOreId])
    requires c.rawResources[rawOreId].refinesTo.value in c.AllResources()
  {
    var ore := c.rawResources[rawOreId];
    var refined := c.AllResources()[ore.refinesTo.value];
    plan.shipRefined > 0 &&
      volume + (plan.shipRefined as real * refined.volume - plan.shipRaw as real * ore.volume) > capacity
  }

  /** The hold after the raw ore went out (the step the output is checked against). */
  function ShipTaken(cargo: map<string, int>, rawOreId: string, plan: RefinePlan): map<string, int>
    requires plan.shipRaw > 0 ==> rawOreId in cargo
  {
    if plan.shipRaw > 0 then Taken(cargo, rawOreId, plan.shipRaw) else cargo
  }

  /** The hold after a refining run: the ship's raw ore out, its output in. */
  function ShipLedger(cargo: map<string, int>, rawOreId: string, refinedId: string, plan: RefinePlan): map<string, int>
    requires plan.shipRaw > 0 ==> rawOreId in cargo
  {
    var taken := ShipTaken(cargo, rawOreId, plan);
    if plan.shipRefined > 0 then Added(taken, refinedId, plan.shipRefined) else taken
  }

  /** get_station_inventory without the insertion: a missing storage is empty. */
  function Storage(stations: map<string, map<string, int>>, loc: string): map<string, int>
  {
    if loc in stations then stations[loc] else map[]
  }

  /** Every storage after a refining run: the local storage's raw ore out,
      its output in (the storage is created when output arrives). */
  function StationLedger(stations: map<string, map<string, int>>, loc: string, rawOreId: string,
                         refinedId: string, plan: RefinePlan): map<string, map<string, int>>
    requires plan.stationRaw > 0 ==> loc in stations && rawOreId in stations[loc]
  {
    var taken := if plan.stationRaw > 0 then stations[loc := Taken(stations[loc], rawOreId, plan.stationRaw)] else stations;
    if plan.stationRefined > 0 then taken[loc := Added(Storage(taken, loc), refinedId, plan.stationRefined)] else taken
  }

  /** A refining run moves exactly the planned quantities: the raw ore on
      hold and in the local storage together fall by the batch, the output on
      both sides together rises by the total, and no other item and no other
      storage changes. */
  lemma RefiningAccounts(cargo: map<string, int>, stations: map<string, map<string, int>>, loc: string,
                         rawOreId: string, refinedId: string, quantity: int, yieldPercent: real)
    requires quantity >= 1 && 0.0 < yieldPercent < 1.0 && rawOreId != refinedId
    requires Count(cargo, rawOreId) >= 0 && Count(cargo, rawOreId) + Count(Storage(stations, loc), rawOreId) >= quantity
    ensures var plan := PlanRefining(quantity, Count(cargo, rawOreId), yieldPercent);
      (plan.shipRaw > 0 ==> rawOreId in cargo) &&
      (plan.stationRaw > 0 ==> loc in stations && rawOreId in stations[loc]) &&
      var ship := ShipLedger(cargo, rawOreId, refinedId, plan);
      var storage := Storage(StationLedger(stations, loc, rawOreId, refinedId, plan), loc);
      && Count(ship, rawOreId) + Count(storage, rawOreId) ==
           Count(cargo, rawOreId) + Count(Storage(stations, loc), rawOreId) - quantity
      && Count(ship, refinedId) + Count(storage, refinedId) ==
           Count(cargo, refinedId) + Count(Storage(stations, loc), refinedId) + plan.total
      && Count(ship, rawOreId) >= 0
      && (forall k :: k != rawOreId && k != refinedId ==>
            Count(ship, k) == Count(cargo, k) && Count(storage, k) == Count(Storage(stations, loc), k))
      && (forall l :: l != loc ==> Storage(StationLedger(stations, loc, rawOreId, refinedId, plan), l) == Storage(stations, l))
  {
    PlanFacts(quantity, Count(cargo, rawOreId), yieldPercent);
  }

  datatype RefineResult =
    | NoRefinery
    | NotRawOre
    | InsufficientOre
    | NotRefinable
    | CargoOverflow
    | ShipAddFailed     // the hold rejected the output; the raw ore was put back
    | Refined(refinedId: string, plan: RefinePlan, xp: int)

  lemma AddedTaken(m: map<string, int>, k: string, q: int)
    requires k in m
    ensures Added(Taken(m, k, q), k, q) == m
  {
    assert Added(Taken(m, k, q), k, q).Keys == m.Keys;
  }

  /** `station_inv[item] = station_inv.get(item, 0) + q` on the storage at
      the player's location, created empty on first access. */
  method PutInStation(p: Player, itemId: string, q: int)
    modifies p`stationInventories
    ensures p.stationInventories ==
      old(p.stationInventories)[p.location := Added(Storage(old(p.stationInventories), p.location), itemId, q)]
  {
    p.EnsureStation(p.location);
    p.stationInventories := p.stationInventories[p.location := Added(p.stationInventories[p.location], itemId, q)];
  }

  /** The mutating half of refine_ore: raw ore out of the hold and the
      local storage, output into the hold (through can_add_item) and the
      storage; when the hold rejects the output, the raw ore goes back to
      both sides and nothing has changed. */
  method ApplyRefining(p: Player, rawOreId: string, refinedId: string, plan: RefinePlan, capacity: real,
                       canAdd: (map<string, int>, real, string, int) -> bool)
    returns (ok: bool)
    requires plan.shipRaw > 0 ==> p.HasItem(rawOreId, plan.shipRaw)
    requires plan.stationRaw > 0 ==>
      p.location in p.stationInventories && rawOreId in p.stationInventories[p.location] &&
      p.stationInventories[p.location][rawOreId] >= plan.stationRaw
    modifies p`shipCargo, p`stationInventories
    ensures ok <==> (plan.shipRefined <= 0 ||
                     canAdd(ShipTaken(old(p.shipCargo), rawOreId, plan), capacity, refinedId, plan.shipRefined))
    ensures ok ==> p.shipCargo == ShipLedger(old(p.shipCargo), rawOreId, refinedId, plan)
    ensures ok ==> p.stationInventories == StationLedger(old(p.stationInventories), p.location, rawOreId, refinedId, plan)
    ensures !ok ==> p.shipCargo == old(p.shipCargo) && p.stationInventories == old(p.stationInventories)
  {
    if plan.shipRaw > 0 {
      var removed := p.RemoveItem(rawOreId, plan.shipRaw);
    }
    if plan.stationRaw > 0 {
      // The source's "failed to remove" branch: the storage holds enough.
      var storage := p.stationInventories[p.location];
      p.stationInventories := p.stationInventories[p.location := Taken(storage, rawOreId, plan.stationRaw)];
    }
    if plan.shipRefined > 0 {
      ok := p.AddItem(refinedId, plan.shipRefined, Some(capacity), canAdd);
      if !ok {
        if plan.shipRaw > 0 {
          var refunded := p.AddItem(rawOreId, plan.shipRaw, None, canAdd);
          AddedTaken(old(p.shipCargo), rawOreId, plan.shipRaw);
        }
        if plan.stationRaw > 0 {
          PutInStation(p, rawOreId, plan.stationRaw);
          AddedTaken(old(p.stationInventories)[p.location], rawOreId, plan.stationRaw);
        }
        return;
      }
    }
    ok := true;
    if plan.stationRefined > 0 {
      PutInStation(p, refinedId, plan.stationRefined);
    }
  }

  /** The outcome of refine_ore's gates, in the source's order, for a hold
      `cargo` and `stationQty` units in the local storage: no refinery, not
      a raw ore, not enough ore, nothing to refine it to, a hold that would
      overflow, a hold that rejects the output, or the planned run. */
  function RefineOutcome(c: Catalog, refinery: bool, rawOreId: string, quantity: int, cargo: map<string, int>,
                         stationQty: int, yieldPercent: real, volume: real, capacity: real,
                         canAdd: (map<string, int>, real, string, int) -> bool): RefineResult
    requires quantity >= 1
    requires RefineInputs(c, rawOreId, yieldPercent)
  {
    if !refinery then NoRefinery
    else if rawOreId !in c.rawResources then NotRawOre
    else if Count(cargo, rawOreId) + stationQty < quantity then InsufficientOre
    else if !Refinable(c.rawResources[rawOreId]) then NotRefinable
    else RunOutcome(c, rawOreId, PlanRefining(quantity, Count(cargo, rawOreId), yieldPercent), cargo,
                    volume, capacity, canAdd)
  }

  /** The outcome once the ore may be refined: the volume check, then the
      hold's acceptance of its output, then the run. */
  function RunOutcome(c: Catalog, rawOreId: string, plan: RefinePlan, cargo: map<string, int>,
                      volume: real, capacity: real,
                      canAdd: (map<string, int>, real, string, int) -> bool): RefineResult
    requires rawOreId in c.rawResources && Refinable(c.rawResources[rawOreId])
    requires c.rawResources[rawOreId].refinesTo.value in c.AllResources()
    requires plan.shipRaw > 0 ==> rawOreId in cargo
  {
    var refinedId := c.rawResources[rawOreId].refinesTo.value;
    if Overflows(c, rawOreId, plan, volume, capacity) then CargoOverflow
    else if plan.shipRefined > 0 && !canAdd(ShipTaken(cargo, rawOreId, plan), capacity, refinedId, plan.shipRefined)
    then ShipAddFailed
    else Refined(refinedId, plan, plan.total / 10 + 1)
  }

  /** Each failure of refine_ore happens exactly when the earlier gates
      pass and its own does not; a run happens exactly when all gates pass,
      and then refines the whole batch into between one unit and the batch,
      split between the two sides, with at least one experience point. */
  lemma RefineGates(c: Catalog, refinery: bool, rawOreId: string, quantity: int, cargo: map<string, int>,
                    stationQty: int, yieldPercent: real, volume: real, capacity: real,
                    canAdd: (map<string, int>, real, string, int) -> bool)
    requires quantity >= 1 && Count(cargo, rawOreId) >= 0
    requires RefineInputs(c, rawOreId, yieldPercent)
    ensures var r := RefineOutcome(c, refinery, rawOreId, quantity, cargo, stationQty, yieldPercent, volume, capacity, canAdd);
      && (r == NoRefinery <==> !refinery)
      && (r == NotRawOre <==> refinery && rawOreId !in c.rawResources)
      && (r == InsufficientOre <==>
            refinery && rawOreId in c.rawResources && Count(cargo, rawOreId) + stationQty < quantity)
      && (r == NotRefinable <==>
            refinery && rawOreId in c.rawResources && Count(cargo, rawOreId) + stationQty >= quantity &&
            !Refinable(c.rawResources[rawOreId]))
      && (r !in {NoRefinery, NotRawOre, InsufficientOre, NotRefinable} <==>
            Admitted(c, refinery, rawOreId, quantity, Count(cargo, rawOreId) + stationQty))
      && (r.Refined? ==>
            r.refinedId == c.rawResources[rawOreId].refinesTo.value &&
            r.plan.shipRaw + r.plan.stationRaw == quantity &&
            r.plan.shipRefined + r.plan.stationRefined == r.plan.total &&
            1 <= r.plan.total <= quantity && r.xp >= 1 &&
            0 <= r.plan.shipRefined && 0 <= r.plan.stationRefined)
  {
    if Admitted(c, refinery, rawOreId, quantity, Count(cargo, rawOreId) + stationQty) {
      var ore := c.rawResources[rawOreId];
      assert 0.0 < YieldRange(ore.rarity).0;
      PlanFacts(quantity, Count(cargo, rawOreId), yieldPercent);
    }
  }

  /** The part of refine_ore after its first four gates: the volume check,
      the exchange of ore for output, and the experience. */
  method RunRefining(p: Player, c: Catalog, rawOreId: string, plan: RefinePlan, capacity: real,
                     cargoVolume: map<string, int> -> real,
                     canAdd: (map<string, int>, real, string, int) -> bool)
    returns (r: RefineResult)
    requires rawOreId in c.rawResources && Refinable(c.rawResources[rawOreId])
    requires c.rawResources[rawOreId].refinesTo.value in c.AllResources()
    requires plan.shipRaw > 0 ==> p.HasItem(rawOreId, plan.shipRaw)
    requires plan.stationRaw > 0 ==>
      p.location in p.stationInventories && rawOreId in p.stationInventories[p.location] &&
      p.stationInventories[p.location][rawOreId] >= plan.stationRaw
    requires Levelled(p.Progress())
    modifies p`shipCargo, p`stationInventories, p`level, p`experience, p`experienceToNext
    ensures r == RunOutcome(c, rawOreId, plan, old(p.shipCargo), cargoVolume(old(p.shipCargo)), capacity, canAdd)
    ensures !r.Refined? ==>
      p.shipCargo == old(p.shipCargo) && p.stationInventories == old(p.stationInventories) &&
      p.Progress() == old(p.Progress())
    ensures r.Refined? ==>
      p.shipCargo == ShipLedger(old(p.shipCargo), rawOreId, r.refinedId, plan) &&
      p.stationInventories == StationLedger(old(p.stationInventories), p.location, rawOreId, r.refinedId, plan) &&
      p.Progress() == Settle(old(p.Progress()).(experience := old(p.experience) + r.xp))
  {
    var refinedId := c.rawResources[rawOreId].refinesTo.value;
    if Overflows(c, rawOreId, plan, cargoVolume(p.shipCargo), capacity) {
      return CargoOverflow;
    }
    var ok := ApplyRefining(p, rawOreId, refinedId, plan, capacity, canAdd);
    if !ok {
      return ShipAddFailed;
    }
    var xp := plan.total / 10 + 1;
    p.AddExperience(xp);
    r := Refined(refinedId, plan, xp);
  }

  /** refine_ore.  `locations` is LOCATIONS (the refinery service of the
      current location), `isMothership` the vessel's class, `yieldPercent`
      the uniform draw from the ore's yield range, `capacity` the vessel's
      cargo capacity, `cargoVolume` calculate_cargo_volume and `canAdd`
      can_add_item.  The result is the outcome of the gates (RefineGates);
      every failure leaves the hold, the storage and the experience as they
      were; a run moves exactly the planned quantities (RefiningAccounts)
      and grants `total // 10 + 1` experience. */
  method RefineOre(p: Player, c: Catalog, locations: map<string, Location>, isMothership: bool,
                   rawOreId: string, quantity: int, yieldPercent: real, capacity: real,
                   cargoVolume: map<string, int> -> real,
                   canAdd: (map<string, int>, real, string, int) -> bool)
    returns (r: RefineResult)
    requires quantity >= 1
    requires p.location in locations
    requires Levelled(p.Progress())
    requires RefineInputs(c, rawOreId, yieldPercent)
    modifies p`shipCargo, p`stationInventories, p`level, p`experience, p`experienceToNext
    ensures r == RefineOutcome(c, "refinery" in locations[p.location].services || isMothership, rawOreId, quantity,
                               old(p.shipCargo), old(p.StationQuantity(rawOreId)), yieldPercent,
                               cargoVolume(old(p.shipCargo)), capacity, canAdd)
    ensures !r.Refined? ==>
      p.shipCargo == old(p.shipCargo) && p.stationInventories == old(p.stationInventories) &&
      p.Progress() == old(p.Progress())
    ensures r.Refined? ==>
      (r.plan.shipRaw > 0 ==> rawOreId in old(p.shipCargo)) &&
      (r.plan.stationRaw > 0 ==> p.location in old(p.stationInventories) && rawOreId in old(p.stationInventories)[p.location]) &&
      p.shipCargo == ShipLedger(old(p.shipCargo), rawOreId, r.refinedId, r.plan) &&
      p.stationInventories == StationLedger(old(p.stationInventories), p.location, rawOreId, r.refinedId, r.plan) &&
      p.Progress() == Settle(old(p.Progress()).(experience := old(p.experience) + r.xp))
  {
    var refinery := "refinery" in locations[p.location].services || isMothership;
    if !refinery {
      return NoRefinery;
    }
    if rawOreId !in c.rawResources {
      return NotRawOre;
    }
    var ship, station := p.ShipQuantity(rawOreId), p.StationQuantity(rawOreId);
    if ship + station < quantity {
      return InsufficientOre;
    }
    if !Refinable(c.rawResources[rawOreId]) {
      return NotRefinable;
    }
    var plan := PlanRefining(quantity, ship, yieldPercent);
    assert plan.shipRaw == Min(quantity, ship) && plan.stationRaw == quantity - plan.shipRaw;
    r := RunRefining(p, c, rawOreId, plan, capacity, cargoVolume, canAdd);
  }

  // ---------------------------------------------------------------- mining

  /** The ores of a location a laser of `miningTier` can mine: those whose
      `mining_tier` (1 when absent or unlisted) is at most the laser's, in
      the location's order. */
  function Mineable(c: Catalog, available: seq<string>, miningTier: int): seq<string>
  {
    if available == [] then []
    else
      var n := |available| - 1;
      var id := available[n];
      var oreTier := if id in c.AllResources() then c.AllResources()[id].miningTier.GetOr(1) else 1;
      Mineable(c, available[..n], miningTier) + (if miningTier >= oreTier then [id] else [])
  }

  function OreTier(c: Catalog, id: string): int
  {
    if id in c.AllResources() then c.AllResources()[id].miningTier.GetOr(1) else 1
  }

  lemma {:induction false} MineableMembers(c: Catalog, available: seq<string>, miningTier: int, id: string)
    ensures id in Mineable(c, available, miningTier) <==> id in available && OreTier(c, id) <= miningTier
    ensures |Mineable(c, available, miningTier)| <= |available|
  {
    if available != [] {
      var n := |available| - 1;
      MineableMembers(c, available[..n], miningTier, id);
      assert available == available[..n] + [available[n]];
    }
  }

  /** The filtering loop of mine_resources. */
  method MineableResources(c: Catalog, available: seq<string>, miningTier: int) returns (mineable: seq<string>)
    ensures mineable == Mineable(c, available, miningTier)
  {
    mineable := [];
    var i := 0;
    while i < |available|
      invariant 0 <= i <= |available|
      invariant mineable == Mineable(c, available[..i], miningTier)
    {
      assert available[..i + 1][..i] == available[..i];
      var id := available[i];
      if miningTier >= OreTier(c, id) {
        mineable := mineable + [id];
      }
      i := i + 1;
    }
    assert available[..i] == available;
  }

  /** `int(base_yield * mining_efficiency * (1 + skill_bonus))`. */
  function MiningYield(baseYield: int, efficiency: real, skillBonus: real): int
  {
    Trunc(baseYield as real * efficiency * (1.0 + skillBonus))
  }

  /** With a working drill (efficiency above 1), a draw of at least 10 and a
      non-negative bonus, a mining run yields at least 10 units before the
      cargo clamp. */
  lemma MiningYieldAtLeastBase(baseYield: int, efficiency: real, skillBonus: real)
    requires baseYield >= 10 && efficiency > 1.0 && skillBonus >= 0.0
    ensures MiningYield(baseYield, efficiency, skillBonus) >= baseYield
  {
    var b := baseYield as real;
    MulLe(b, 1.0, efficiency);
    MulLe(b * efficiency, 1.0, 1.0 + skillBonus);
    TruncMonotone(b, b * efficiency * (1.0 + skillBonus));
  }

  datatype MineResult =
    | NoResources
    | NoEquipment
    | NoLaser
    | TierTooLow
    | UnknownOre
    | CargoHoldFull
    | AddRejected
    | Mined(resourceId: string, amount: int, limited: bool)

  /** mine_resources up to adding the yield: the gates in the source's
      order (an ore unknown to the resource table is the KeyError of its
      lookup, UnknownOre here), then the yield clamped to what fits (`maxCanAdd`, from
      get_max_quantity_can_add).  `pick` is the random choice among the
      mineable ores and `baseYield` the draw from 10..30. */
  method MineResources(p: Player, c: Catalog, available: seq<string>, efficiency: real, miningTier: int,
                       pick: nat, baseYield: int, skillBonus: real, maxCanAdd: int, capacity: real,
                       canAdd: (map<string, int>, real, string, int) -> bool)
    returns (r: MineResult)
    requires Mineable(c, available, miningTier) != [] ==> pick < |Mineable(c, available, miningTier)|
    requires 10 <= baseYield <= 30
    modifies p`shipCargo
    ensures r == NoResources <==> available == []
    ensures r == NoEquipment <==> available != [] && efficiency <= 1.0
    ensures r == NoLaser <==> available != [] && efficiency > 1.0 && miningTier == 0
    ensures r == TierTooLow <==>
      available != [] && efficiency > 1.0 && miningTier != 0 && Mineable(c, available, miningTier) == []
    ensures r == UnknownOre <==>
      available != [] && efficiency > 1.0 && miningTier != 0 && Mineable(c, available, miningTier) != [] &&
      Mineable(c, available, miningTier)[pick] !in c.AllResources()
    ensures r == CargoHoldFull <==>
      available != [] && efficiency > 1.0 && miningTier != 0 && Mineable(c, available, miningTier) != [] &&
      Mineable(c, available, miningTier)[pick] in c.AllResources() && maxCanAdd <= 0
    ensures r == AddRejected <==>
      available != [] && efficiency > 1.0 && miningTier != 0 && Mineable(c, available, miningTier) != [] &&
      Mineable(c, available, miningTier)[pick] in c.AllResources() && maxCanAdd > 0 &&
      !canAdd(old(p.shipCargo), capacity, Mineable(c, available, miningTier)[pick],
              Min(MiningYield(baseYield, efficiency, skillBonus), maxCanAdd))
    ensures r.Mined? ==>
      && r.resourceId == Mineable(c, available, miningTier)[pick]
      && r.resourceId in available && r.resourceId in c.AllResources()
      && OreTier(c, r.resourceId) <= miningTier
      && r.amount == Min(MiningYield(baseYield, efficiency, skillBonus), maxCanAdd)
      && r.amount <= maxCanAdd
      && (skillBonus >= 0.0 ==> r.amount >= 1)
      && (r.limited <==> r.amount < MiningYield(baseYield, efficiency, skillBonus))
      && p.shipCargo == Added(old(p.shipCargo), r.resourceId, r.amount)
    ensures !r.Mined? ==> p.shipCargo == old(p.shipCargo)
  {
    if available == [] {
      return NoResources;
    }
    if efficiency <= 1.0 {
      return NoEquipment;
    }
    if miningTier == 0 {
      return NoLaser;
    }
    var mineable := MineableResources(c, available, miningTier);
    if mineable == [] {
      return TierTooLow;
    }
    var resourceId := mineable[pick];
    if resourceId !in c.AllResources() {
      return UnknownOre;
    }
    MineableMembers(c, available, miningTier, resourceId);
    var total := MiningYield(baseYield, efficiency, skillBonus);
    if maxCanAdd <= 0 {
      return CargoHoldFull;
    }
    if skillBonus >= 0.0 {
      MiningYieldAtLeastBase(baseYield, efficiency, skillBonus);
    }
    var amount := Min(total, maxCanAdd);
    var added := p.AddItem(resourceId, amount, Some(capacity), canAdd);
    if !added {
      return AddRejected;
    }
    r := Mined(resourceId, amount, amount < total);
  }
}
