/** shipyard.py: the piloting-skill gates, trade-in pricing, purchase and
    sale of ships, and the listing of the ships a player may buy, sorted by
    tier and then cost. */
module Shipyard {
  import opened Common
  import opened Catalog
  import opened Sorting

  /** The share of a ship's cost a trade-in or a sale returns. */
  const TradeInMultiplier: real := 0.7

  /** The skill a ship's class calls for: `<class_type>_piloting`. */
  function SkillId(ship: ShipClass): string
  {
    ship.classType + "_piloting"
  }

  /** `if player_skills:` is true for a non-empty skills dictionary only. */
  predicate HasSkills(skills: Option<map<string, int>>)
  {
    skills.Some? && skills.value != map[]
  }

  function SkillLevel(skills: Option<map<string, int>>, skillId: string): int
  {
    if skills.Some? then Count(skills.value, skillId) else 0
  }

  /** The piloting level the listing asks for: 10 for a faction variant,
      else 1, 4 or 7 by tier. */
  function ListingSkillLevel(ship: ShipClass): int
  {
    if ship.variant == "faction" then 10
    else if ship.tierNum == 1 then 1
    else if ship.tierNum == 2 then 4
    else 7
  }

  /** The piloting level a purchase asks for: 1, 4 or 7 by tier, with no
      faction case. */
  function PurchaseSkillLevel(ship: ShipClass): int
  {
    if ship.tierNum == 1 then 1
    else if ship.tierNum == 2 then 4
    else 7
  }

  /** The two gates agree except on faction ships, where the listing is the
      stricter one. */
  lemma SkillLevelsAgree(ship: ShipClass)
    ensures ship.variant != "faction" ==> ListingSkillLevel(ship) == PurchaseSkillLevel(ship)
    ensures ship.variant == "faction" ==> ListingSkillLevel(ship) == 10 > PurchaseSkillLevel(ship)
    ensures PurchaseSkillLevel(ship) in {1, 4, 7}
  {
  }

  /** calculate_trade_in_value: 70% of the ship's cost, truncated; 0 for an
      unknown ship. */
  function TradeInValue(c: Catalog, shipId: string): (v: int)
    ensures shipId !in c.vessels ==> v == 0
    ensures shipId in c.vessels && c.vessels[shipId].cost >= 0 ==> 0 <= v <= c.vessels[shipId].cost
    ensures shipId in c.vessels && c.vessels[shipId].cost >= 0 ==>
      v as real <= c.vessels[shipId].cost as real * TradeInMultiplier < v as real + 1.0
  {
    if shipId !in c.vessels then 0 else Trunc(c.vessels[shipId].cost as real * TradeInMultiplier)
  }

  /** can_afford_ship: a known ship whose cost, less the trade-in, the
      credits cover. */
  predicate CanAffordShip(c: Catalog, shipId: string, credits: int, tradeInValue: int)
  {
    shipId in c.vessels && credits >= c.vessels[shipId].cost - tradeInValue
  }

  /** The outcome of purchase_ship; each failure carries what its message reports. */
  datatype Purchase =
    | Bought(cost: int, tradeInValue: int)
    | InvalidShip
    | LevelTooLow(levelReq: int)
    | SkillTooLow(skillId: string, required: int)
    | InsufficientCredits(need: int)

  /** purchase_ship: rejects an unknown ship, then a player below the ship's
      level, then one without the piloting level (or without any skills),
      then one who cannot pay the cost less the trade-in of the current ship
      (counted only when trading in a named ship). */
  function PurchaseShip(c: Catalog, shipId: string, credits: int, playerLevel: int,
                        skills: Option<map<string, int>>, currentShip: Option<string>, tradeIn: bool): (r: Purchase)
    ensures r.InvalidShip? <==> shipId !in c.vessels
    ensures r.LevelTooLow? <==> shipId in c.vessels && playerLevel < c.vessels[shipId].levelRequirement
    ensures r.Bought? ==>
      && shipId in c.vessels
      && playerLevel >= c.vessels[shipId].levelRequirement
      && HasSkills(skills)
      && SkillLevel(skills, SkillId(c.vessels[shipId])) >= PurchaseSkillLevel(c.vessels[shipId])
      && CanAffordShip(c, shipId, credits, r.tradeInValue)
      && r.cost + r.tradeInValue == c.vessels[shipId].cost
  {
    if shipId !in c.vessels then InvalidShip
    else
      var ship := c.vessels[shipId];
      if playerLevel < ship.levelRequirement then LevelTooLow(ship.levelRequirement)
      else if !HasSkills(skills) || SkillLevel(skills, SkillId(ship)) < PurchaseSkillLevel(ship) then
        SkillTooLow(SkillId(ship), PurchaseSkillLevel(ship))
      else
        var tradeInValue :=
          if tradeIn && currentShip.Some? && currentShip.value != "" then TradeInValue(c, currentShip.value) else 0;
        var finalCost := ship.cost - tradeInValue;
        if credits < finalCost then InsufficientCredits(finalCost)
        else Bought(finalCost, tradeInValue)
  }

  /** A purchase that passes the level and skill gates fails only for want
      of credits, and with a trade-in it credits exactly the current ship's
      trade-in value. */
  lemma PurchaseFunds(c: Catalog, shipId: string, credits: int, playerLevel: int,
                      skills: Option<map<string, int>>, currentShip: Option<string>, tradeIn: bool)
    requires shipId in c.vessels && playerLevel >= c.vessels[shipId].levelRequirement
    requires HasSkills(skills)
    requires SkillLevel(skills, SkillId(c.vessels[shipId])) >= PurchaseSkillLevel(c.vessels[shipId])
    ensures var t := if tradeIn && currentShip.Some? && currentShip.value != ""
                     then TradeInValue(c, currentShip.value) else 0;
      && (CanAffordShip(c, shipId, credits, t) ==>
            PurchaseShip(c, shipId, credits, playerLevel, skills, currentShip, tradeIn) ==
            Bought(c.vessels[shipId].cost - t, t))
      && (!CanAffordShip(c, shipId, credits, t) ==>
            PurchaseShip(c, shipId, credits, playerLevel, skills, currentShip, tradeIn) ==
            InsufficientCredits(c.vessels[shipId].cost - t))
  {
  }

  /** sell_ship: a known ship sells for its trade-in value. */
  function SellShip(c: Catalog, shipId: string): (r: (bool, int))
    ensures r.0 <==> shipId in c.vessels
    ensures r.1 == TradeInValue(c, shipId)
  {
    if shipId !in c.vessels then (false, 0) else (true, TradeInValue(c, shipId))
  }

  /** Selling a ship and trading it in are worth the same. */
  lemma SellMatchesTradeIn(c: Catalog, shipId: string, target: string, credits: int, playerLevel: int,
                           skills: Option<map<string, int>>)
    requires PurchaseShip(c, target, credits, playerLevel, skills, Some(shipId), true).Bought?
    requires shipId != ""
    ensures PurchaseShip(c, target, credits, playerLevel, skills, Some(shipId), true).tradeInValue ==
            SellShip(c, shipId).1
  {
  }

  /** One row of get_available_ships. */
  datatype Offer = Offer(
    id: string,
    name: string,
    classType: string,
    tier: int,
    cost: int,
    levelReq: int,
    skillId: string,
    skillLevel: int,
    hullHp: int,
    shieldCapacity: int,
    armor: int,
    speed: int,
    cargo: int)

  function OfferKey(o: Offer): (int, int)
  {
    (o.tier, o.cost)
  }

  /** The ship passes the listing's gates: known, within the player's level,
      and with the listing's piloting level in a non-empty skills map. */
  predicate Eligible(c: Catalog, shipId: string, playerLevel: int, skills: Option<map<string, int>>)
  {
    && shipId in c.vessels
    && playerLevel >= c.vessels[shipId].levelRequirement
    && HasSkills(skills)
    && SkillLevel(skills, SkillId(c.vessels[shipId])) >= ListingSkillLevel(c.vessels[shipId])
  }

  function OfferOf(c: Catalog, shipId: string): Offer
    requires shipId in c.vessels
  {
    var ship := c.vessels[shipId];
    Offer(shipId, ship.name, ship.classType, ship.tierNum, ship.cost, ship.levelRequirement,
          SkillId(ship), ListingSkillLevel(ship), ship.hullHp, ship.shieldCapacity, ship.armorRating,
          ship.baseSpeed, ship.cargoCapacity)
  }

  /** The rows for the ships `ids`, in order, before sorting. */
  function Offers(c: Catalog, ids: seq<string>, playerLevel: int, skills: Option<map<string, int>>): seq<Offer>
  {
    if ids == [] then []
    else
      var id := ids[|ids| - 1];
      Offers(c, ids[..|ids| - 1], playerLevel, skills) +
        (if Eligible(c, id, playerLevel, skills) then [OfferOf(c, id)] else [])
  }

  /** get_available_ships: nothing without the shipyard service; otherwise
      a row for every eligible ship in catalogue order, sorted by tier and
      then cost. */
  method GetAvailableShips(c: Catalog, playerLevel: int, services: seq<string>,
                           skills: Option<map<string, int>>) returns (rows: seq<Offer>)
    ensures "shipyard" !in services ==> rows == []
    ensures "shipyard" in services ==> rows == SortBy(Offers(c, c.vesselOrder, playerLevel, skills), OfferKey)
  {
    if "shipyard" !in services {
      return [];
    }
    var order := c.vesselOrder;
    var available: seq<Offer> := [];
    var i := 0;
    while i < |order|
      invariant 0 <= i <= |order|
      invariant available == Offers(c, order[..i], playerLevel, skills)
    {
      var id := order[i];
      assert order[..i + 1][..i] == order[..i];
      if id in c.vessels {
        var ship := c.vessels[id];
        var required := if ship.variant == "faction" then 10
                        else if ship.tierNum == 1 then 1
                        else if ship.tierNum == 2 then 4
                        else 7;
        if playerLevel >= ship.levelRequirement && HasSkills(skills) &&
           SkillLevel(skills, SkillId(ship)) >= required {
          available := available + [OfferOf(c, id)];
        }
      }
      i := i + 1;
    }
    assert order[..i] == order;
    rows := SortBy(available, OfferKey);
  }

  /** Every row is an eligible ship of `ids`, described as the catalogue
      describes it. */
  lemma {:induction false} OffersContents(c: Catalog, ids: seq<string>, playerLevel: int,
                                          skills: Option<map<string, int>>, o: Offer)
    requires o in Offers(c, ids, playerLevel, skills)
    ensures o.id in ids && Eligible(c, o.id, playerLevel, skills) && o == OfferOf(c, o.id)
  {
    var last := ids[|ids| - 1];
    if o in Offers(c, ids[..|ids| - 1], playerLevel, skills) {
      OffersContents(c, ids[..|ids| - 1], playerLevel, skills, o);
    }
  }

  /** Every eligible ship of `ids` gets a row. */
  lemma {:induction false} OffersComplete(c: Catalog, ids: seq<string>, playerLevel: int,
                                          skills: Option<map<string, int>>, id: string)
    requires id in ids && Eligible(c, id, playerLevel, skills)
    ensures OfferOf(c, id) in Offers(c, ids, playerLevel, skills)
  {
    var last := ids[|ids| - 1];
    if id != last {
      assert id in ids[..|ids| - 1] by {
        var k :| 0 <= k < |ids| && ids[k] == id;
        assert k < |ids| - 1 && ids[..|ids| - 1][k] == id;
      }
      OffersComplete(c, ids[..|ids| - 1], playerLevel, skills, id);
    }
  }

  /** Without skills nothing is listed. */
  lemma {:induction false} NoSkillsNoOffers(c: Catalog, ids: seq<string>, playerLevel: int,
                                            skills: Option<map<string, int>>)
    requires !HasSkills(skills)
    ensures Offers(c, ids, playerLevel, skills) == []
  {
    if ids != [] {
      NoSkillsNoOffers(c, ids[..|ids| - 1], playerLevel, skills);
    }
  }

  /** The listing is sorted by (tier, cost) and shows exactly the eligible
      ships of the catalogue; each listed ship can also be bought by a player
      with its cost in credits. */
  lemma AvailableShipsFacts(c: Catalog, playerLevel: int, skills: Option<map<string, int>>, rows: seq<Offer>)
    requires c.VesselOrderValid()
    requires rows == SortBy(Offers(c, c.vesselOrder, playerLevel, skills), OfferKey)
    ensures SortedBy(rows, OfferKey)
    ensures forall o :: o in rows ==> Eligible(c, o.id, playerLevel, skills) && o == OfferOf(c, o.id)
    ensures forall id :: Eligible(c, id, playerLevel, skills) ==> OfferOf(c, id) in rows
  {
    var unsorted := Offers(c, c.vesselOrder, playerLevel, skills);
    SortBySorted(unsorted, OfferKey);
    assert multiset(rows) == multiset(unsorted);
    forall o | o in rows
      ensures Eligible(c, o.id, playerLevel, skills) && o == OfferOf(c, o.id)
    {
      assert o in multiset(rows);
      OffersContents(c, c.vesselOrder, playerLevel, skills, o);
    }
    forall id | Eligible(c, id, playerLevel, skills)
      ensures OfferOf(c, id) in rows
    {
      OffersComplete(c, c.vesselOrder, playerLevel, skills, id);
      assert OfferOf(c, id) in multiset(unsorted);
    }
  }

  /** A listed ship the player can pay for outright is bought at its full
      cost: the listing's gates imply the purchase's. */
  lemma ListedIsPurchasable(c: Catalog, shipId: string, credits: int, playerLevel: int,
                            skills: Option<map<string, int>>)
    requires Eligible(c, shipId, playerLevel, skills) && credits >= c.vessels[shipId].cost
    ensures PurchaseShip(c, shipId, credits, playerLevel, skills, None, false) == Bought(c.vessels[shipId].cost, 0)
  {
    SkillLevelsAgree(c.vessels[shipId]);
  }

  /** A faction ship can be bought with a piloting level the listing would
      not show it for. */
  lemma FactionShipBuyableUnlisted(c: Catalog, shipId: string, credits: int, playerLevel: int,
                                   skills: Option<map<string, int>>)
    requires shipId in c.vessels && c.vessels[shipId].variant == "faction"
    requires playerLevel >= c.vessels[shipId].levelRequirement && HasSkills(skills)
    requires PurchaseSkillLevel(c.vessels[shipId]) <= SkillLevel(skills, SkillId(c.vessels[shipId])) < 10
    requires credits >= c.vessels[shipId].cost
    ensures !Eligible(c, shipId, playerLevel, skills)
    ensures PurchaseShip(c, shipId, credits, playerLevel, skills, None, false).Bought?
  {
  }
}
