# VoidDominion core in Dafny

A model of the economy and inventory layer of VoidDominion, a single-player
space-trading game, with the proofs of what that layer promises:

- the per-location resource **markets** (seeding, fluctuation with clamping,
  buy and sell quotes, stock changes on trade), the module, component and
  ship price adapters, and the per-station **ship stock** of the shipyards;
- the **player** ledgers: credits, the cargo hold and the per-station
  storage, experience and levels, skill training slots, faction standings;
- the **manufacturing** scheduler (item kind, recipe, the requirement gates
  in their fixed order, durations, the one-job list, polling, cancelling,
  saving and loading jobs);
- the game engine's **refining**, **trader exchange**, **mining** yield clamp
  and the **respawn** search after a ship is destroyed;
- **contracts** (objectives, progress, expiry) and the contract board;
- the pure helpers: shipyard pricing and piloting gates, travel distance,
  time and its display text, the generated ship catalogue and the resource
  tables, symbol lookup, the reachability check over the location graph,
  and the sidebar's navigation filter.

One Dafny module per source file: `Common` (Python's `int()`, `str()`,
clamps, `Option`), `Sorting` (the stable `sorted` by a pair key), `Catalog`
(data.py), `Economy`, `PlayerModel`, `Manufacturing`, `Engine`,
`Respawn` and `Graph` (game_engine.py), `Missions`, `Shipyard`, `Travel`,
`Symbols`, `Locations` (verify_locations.py) and `NavFilter` (gui.py).
Objects whose fields the game updates in place are classes (`Market`,
`EconomyManager`, `ShipMarket`, `Player`, `ManufacturingManager`, `Trader`,
`Contract`, `ContractBoard`); the loops of the source are methods with
loop invariants, each proved against a specification function about which
the lemmas below are proved.

Conventions:

- Floats are `real`. Python's `int()` is truncation toward zero (`Common.Trunc`).
- Random draws (`uniform`, `randint`, `choice`, `sample`) are parameters. Their ranges are preconditions where the source's promise depends on them.
- `time.time()` is a `now` parameter.
- Modules whose code is not part of this model are parameters. The volume system's `can_add_item`, `calculate_cargo_volume` and `get_max_quantity_can_add` are a predicate, a function and an integer. `TAX_RATE`, `MARKET_FLUCTUATION_RANGE` and the training-time constants are numbers.
- The large data tables (MODULES, the component tables, the recipe tables, LOCATIONS) are an injected `Catalog` value.
- The small tables are transcribed: the refining yield ranges, the raw and refined resources, the ship generator's inputs, the symbol tables, CONTRACT_TYPES, TRAVEL_DISTANCES and the sidebar's buttons.
- Dictionary iteration order is a `seq` of keys where the result depends on it.

Where the code and its own documentation disagree, the model follows the code:

- generate_ship_classes builds 9 × 4 × 3 = 108 ships (the mothership is a ninth type), although its docstring says 96.
- economy.py:634-635 declares `get_available_ships` twice. The model follows the second signature (line 635).
- `ShipMarket.purchase_ship` checks no piloting skill, although its listing does. `Economy.SkillGateListingOnly` shows a player it would not list a ship for still buying it.
- `check_requirements` tests one unit's worth of each recipe line, while `start_manufacturing` removes `quantity` units' worth. `Manufacturing.PerUnitGateAdmitsShortfall` shows the gates passing for a batch the inventory cannot cover.
- The shipyard listing asks level 10 for faction variants, but `purchase_ship` has no faction case. `Shipyard.FactionShipBuyableUnlisted` shows such a ship bought with a lower piloting level.

## Model

| member | source | states |
|---|---|---|
| Common.Trunc | game_engine.py:639 | Python's `int()`: truncation toward zero |
| Common.IntStringValue | missions.py:57 | the decimal text of a non-negative number reads back as the number |
| Sorting.SortBy | economy.py:170 | `sorted` by a key: the result is a permutation of its input |
| Sorting.SortBySorted | shipyard.py:71 | the result of the sort is in ascending key order |
| Sorting.SortBySortedIdentity | economy.py:704 | sorting a list already in key order changes nothing |
| Catalog.YieldRange | game_engine.py:635 | the yield range of a rarity, (0.7, 0.9) for one the table lacks, lies inside [0.5, 0.95] |
| Catalog.YieldRangesWellFormed | data.py:9-15 | every yield range has its minimum below its maximum, both within [0.5, 0.95] |
| Catalog.ResourceTablesConsistent | data.py:18-170 | every raw ore refines to a refined resource, has a known rarity and a positive volume; the tables share no key |
| Catalog.ResourceOrderMatches | data.py:172 | the resources' iteration order lists every resource, each exactly once; every resource has a positive price and volume |
| Catalog.MakeShipProperties | data.py:331-365 | level requirement = variant level + tier level; cargo capacity independent of the variant; slots copied from the type; tier number in {1, 2, 3} |
| Catalog.ShipIdInjective | data.py:345 | distinct (type, variant, tier) triples give distinct `type_variant_tier` ids |
| Catalog.AddTiers | data.py:333-365 | the innermost loop adds the three tiers of one (type, variant) pair, in order |
| Catalog.IdsDistinct | data.py:331-345 | the 108 ids the loops build are pairwise distinct |
| Catalog.FilledComplete | data.py:331-365 | once all 108 pairs are in, every (type, variant, tier) id maps to its entry and every key is such an id |
| Catalog.GenerateShipClasses | data.py:179-367 | the dictionary holds exactly one entry per (type, variant, tier), 108 in all, each keyed by its id |
| Catalog.TablesWellFormed | data.py:18-172 | a catalogue built on the transcribed resource tables is well formed |
| Catalog.SampleCatalogRecipes | data.py:4019-4027 | in the sample catalogue used by the model, each recipe entry has exactly one kind of input |
| Economy.FluctuatedPrice | economy.py:47-57 | one moved price is clamped to [0.5, 3] × base, and equals the moved price when that is in the band |
| Economy.FluctuateEach | economy.py:46-57 | the price loop of fluctuate_prices computes every price's clamped move |
| Economy.FluctuateStock | economy.py:59-62 | the stock loop moves every stock by its draw, floored at 0 |
| Economy.FluctuationBounded | economy.py:46-57 | after fluctuation every price lies in [0.5, 3] times its base price, and moves by exactly its draw when that stays in the band |
| Economy.FluctuatedStockNonNegative | economy.py:59-62 | after fluctuation no stock is negative and the stocked resources are unchanged |
| Economy.SeedMarket | economy.py:23-42 | seeding gives every resource a price and a stock from its draws, in catalogue order |
| Economy.SeededBounds | economy.py:31-42 | a local resource is priced at 0.7-0.8 × base with 1000-5000 units, an imported one at 1.2-1.5 × base with 100-500 |
| Economy.Market.constructor | economy.py:15-42 | a new market has a price and a stock for every resource, within the seeding bands |
| Economy.Market.FluctuatePrices | economy.py:44-62 | fluctuation keeps every price in its band and every stock non-negative |
| Economy.Market.BuyQuote | economy.py:64-81 | 0 for an unpriced resource, else price × (1 − bonus) × bulk premium × quantity |
| Economy.Market.SellQuote | economy.py:83-103 | 0 for an unpriced resource, else price × (1 + bonus) × bulk penalty × (1 − max(0, tax − reduction)) × quantity |
| Economy.BuyQuoteBulk | economy.py:75-81 | up to 100 units a quote is the unit quote times the quantity; above 100 it is 10% more |
| Economy.SellQuoteAtMostBuyQuote | economy.py:64-103 | without a trade bonus, selling a lot never pays more than buying it costs |
| Economy.Market.BuyFromMarket | economy.py:105-126 | fails unchanged for an unknown resource, short stock or short credits; else takes exactly `quantity` off that stock and reports int(quote) |
| Economy.Market.SellToMarket | economy.py:128-146 | a known resource always sells, its stock rising by exactly `quantity` (entry created); an unknown one fails unchanged |
| Economy.Market.GetMarketListing | economy.py:148-172 | the rows in catalogue order, sorted by buy price |
| Economy.RowsContents | economy.py:159-167 | each row carries its resource's truncated price, 80% of it as sell price, and its stock |
| Economy.RowsComplete | economy.py:152-167 | every priced resource passing the stock filter gets a row |
| Economy.ListingFacts | economy.py:148-172 | the listing is sorted by buy price and shows exactly the priced resources that pass the filter |
| Economy.EconomyManager.constructor | economy.py:194-205 | a market for exactly the locations offering the market service |
| Economy.EconomyManager.GetMarket | economy.py:207-209 | None for a location without a market; under the manager's invariant a market returned belongs to that location |
| Economy.EconomyManager.UpdateMarkets | economy.py:211-214 | every market fluctuates once with its own draws and keeps its bands |
| Economy.ModuleCost | economy.py:303-315 | int(manufacturing cost × 1.3), None for an unknown module or a player below its level |
| Economy.ModuleValue | economy.py:317-323 | int(manufacturing cost × 0.6), 0 for an unknown module |
| Economy.PurchaseModule | economy.py:325-354 | fails for an unknown module, then the level, then funds; the price is int(cost × 1.3 × (1 − bonus)) |
| Economy.SellModule | economy.py:356-369 | int(value × (1 + bonus)) for a known module |
| Economy.ModuleDealsAgree | economy.py:303-369 | bonus-free purchases cost the list price and succeed exactly when it is listed and affordable; the buyback never exceeds it |
| Economy.ComponentCost | economy.py:433-446 | int(cost × 1.5 × 1.8), None for an unknown component or a player below its level |
| Economy.ComponentValue | economy.py:448-454 | int(cost × 0.6), 0 for an unknown component |
| Economy.PurchaseComponent | economy.py:456-486 | fails for an unknown component, then the level, then funds; price int(cost × 1.5 × 1.8 × (1 − bonus)) |
| Economy.SellComponent | economy.py:488-501 | int(value × (1 + bonus)) for a known component |
| Economy.ComponentDealsAgree | economy.py:433-501 | bonus-free purchases cost the list price; the buyback stays below it |
| Economy.ShipMarket.CalculateShipCost | economy.py:537-563 | the recipe loop computes the ship price: 0 unknown, base × 2.5 without recipe, else component total × 2.5 |
| Economy.ShipValue | economy.py:565-570 | the price with the markup taken off, × 0.7 |
| Economy.ShipCostNonNegative | economy.py:537-570 | with non-negative inputs the price is non-negative and the buyback lies between 0 and it |
| Economy.SellShip | economy.py:750-763 | int(value × (1 + bonus)) for a known ship |
| Economy.StockRange | economy.py:610-618 | the quantity range of a stocked ship by tier is non-empty, from at least 1 to at most 6 |
| Economy.ShipMarket.BuildWeightedPool | economy.py:582-600 | the pool groups ships by tier in order, each repeated by its tier's weight |
| Economy.GroupShips | economy.py:582-587 | the grouping loop builds the tier groups in first-appearance order |
| Economy.AppendGroup | economy.py:596-600 | each ship of a group is appended `weight` times |
| Economy.StockFromPicks | economy.py:603-620 | each sampled pool position puts its ship in with its drawn quantity |
| Economy.StockedFromPicks | economy.py:603-620 | every stocked ship came from a pick, with that pick's quantity; no more kinds than picks |
| Economy.StockedFacts | economy.py:572-622 | every stocked ship is in the catalogue with a quantity in its tier's range; at most 15 kinds |
| Economy.ShipMarket.DrawStock | economy.py:582-620 | the stock is what the draws give from the weighted pool; nothing for an empty pool |
| Economy.ShipMarket.GenerateStationInventory | economy.py:572-622 | a non-shipyard location is untouched; a shipyard gets the stock its draws give |
| Economy.ShipMarket.InitializeAllStations | economy.py:624-628 | every shipyard is stocked from its own draws; other stations keep their stock |
| Economy.ShipMarket.GetAvailableShips | economy.py:635-706 | the station's rows for the ships the catalogue knows, sorted by (tier, cost); nothing for an empty station |
| Economy.ShipListingFacts | economy.py:635-706 | the listing is sorted, and holds a row for every catalogued ship in stock and nothing else, with its gates |
| Economy.ListingsContents | economy.py:647-701 | every row is a catalogued ship in stock, as `ListingOf` describes it |
| Economy.ListingsComplete | economy.py:647-701 | every catalogued ship of the station gets its row |
| Economy.NoStockNoListings | economy.py:640-643 | an empty station lists nothing |
| Economy.PurchasableRowBuys | economy.py:669-676 | a purchasable row passes every gate of purchase_ship with no bonus, at its listed cost |
| Economy.SkillGateListingOnly | economy.py:655-676 | a player below a ship's piloting level is not offered it but can buy it |
| Economy.Discounted | economy.py:736-737 | a discount in [0, 1] never raises a non-negative price nor takes it below 0 |
| Economy.TakeOneFacts | economy.py:744-746 | selling one ship lowers only that ship's count by one, dropping the entry at zero |
| Economy.ShipMarket.PurchaseShip | economy.py:708-748 | fails unchanged for an unknown ship, no stock, level or funds; else one fewer in stock (entry dropped at 0), price int(cost × (1 − bonus)) |
| PlayerModel.Added | player.py:97-101 | adding q to a ledger raises that key by q and changes nothing else |
| PlayerModel.Taken | player.py:107-110 | taking q lowers that key by q, dropping it at zero, and changes nothing else |
| PlayerModel.ToNextExact | player.py:433 | the threshold int(1000 × level × 1.5) is exactly 1500 × level |
| PlayerModel.SettleFacts | player.py:421-434 | each threshold crossed adds one level, paid from the experience; the new threshold is the new level's |
| PlayerModel.SettleAdditive | player.py:421-426 | adding experience in two steps lands where adding it at once does |
| PlayerModel.AfterTrainingIsTotal | player.py:334-336 | awarding finished trainings one by one equals awarding their total |
| PlayerModel.StillTrainingFilters | player.py:324-352 | finished entries leave the training list, unfinished ones stay in order |
| PlayerModel.TrainedLevels | player.py:327-331 | a finished entry sets its skill to its target level; other skills keep their level |
| PlayerModel.Recent | player.py:338-346 | the recently completed list never grows beyond three entries |
| PlayerModel.Player.constructor | player.py:16-70 | a new player: level 1, threshold 1000, skills at 0 except scout piloting 1, empty holds |
| PlayerModel.Player.AddCredits | player.py:72-76 | credits rise by the amount; only a positive amount counts as earned |
| PlayerModel.Player.SpendCredits | player.py:78-84 | succeeds iff credits cover the amount, then moves it to the spending total; else nothing changes |
| PlayerModel.Player.AddItem | player.py:86-103 | with a capacity, a rejected add changes nothing; otherwise the count rises by exactly `quantity` |
| PlayerModel.Player.RemoveItem | player.py:105-112 | fails unchanged unless the hold has `quantity`; else subtracts it, dropping an entry at zero |
| PlayerModel.Player.TotalAccessible | player.py:159-175 | with non-negative ledgers, the total is non-negative and at least the hold count and at least the local storage count |
| PlayerModel.Player.EnsureStation | player.py:177-181 | reading a station's storage creates it empty; nothing else changes |
| PlayerModel.Player.RemoveItemMultiSource | player.py:114-149 | fails unchanged if hold and local storage lack `quantity`; else takes min(quantity, hold) from the hold and the rest from storage |
| PlayerModel.Player.TransferToStation | player.py:198-220 | only at the current location and only what the hold has; the item's total in hold plus storage is unchanged |
| PlayerModel.Player.TransferToShip | player.py:222-244 | only from an accessible station and what it holds; the total is unchanged |
| PlayerModel.Player.AddExperience | player.py:421-426 | the experience is added and the level settled, below the new threshold |
| PlayerModel.Player.LevelUp | player.py:428-434 | one more level, paid with the old threshold; the threshold becomes the new level's |
| PlayerModel.Player.SkillLevel | player.py:256-258 | a skill's level is never negative when no stored level is |
| PlayerModel.Player.StartSkillTraining | player.py:273-314 | rejects unknown, already training, full slots (1 + multi-tasking) and max level, in that order; else appends one entry aiming one level up |
| PlayerModel.Player.CheckSkillTraining | player.py:316-353 | finished entries set their levels, award 50 XP per level and join the recent list; the rest stay |
| PlayerModel.Player.ModifyFactionStanding | player.py:396-400 | a known standing moves by `change` and stays in [-1, 1]; an unknown faction is ignored |
| Manufacturing.DetectItemTypeFirst | manufacturing.py:73-83 | the type is the first of module, module component, ship component, ship whose table lists the item; None otherwise |
| Manufacturing.GetRecipeFirst | manufacturing.py:102-116 | the recipe comes from the first recipe table in the same order that has it |
| Manufacturing.Shortfalls | manufacturing.py:171-203 | one shortfall per uncovered recipe line, in order; none exactly when every line is covered |
| Manufacturing.CheckRequirements | manufacturing.py:118-205 | reports the first failing gate in order (item, level, recipe, skill, materials, components); success iff every line is covered |
| Manufacturing.ManufacturingTime | manufacturing.py:207-226 | 0 without a recipe; else at least 10 s |
| Manufacturing.ManufacturingTimeBounds | manufacturing.py:219-226 | with a bonus in [0, 1] the time lies between half and all of the unskilled time, and more bonus never takes longer |
| Manufacturing.Progress | manufacturing.py:27-30 | progress never exceeds 100 |
| Manufacturing.RemainingTime | manufacturing.py:36-40 | the remaining time is never negative, and at most the duration once started |
| Manufacturing.CompleteIffElapsed | manufacturing.py:27-40 | a job is complete iff its duration has elapsed iff no time remains |
| Manufacturing.ToDict | manufacturing.py:42-53 | the saved record has the six fields plus `module_id`, a copy of the item id |
| Manufacturing.FromDict | manufacturing.py:56-64 | a load succeeds only with quantity, duration and start time present and some item id; the item id falls back on `module_id`, the type on "module", the counter on 0 |
| Manufacturing.JobRoundTrip | manufacturing.py:42-64 | loading a saved job gives the same job |
| Manufacturing.LegacyRecordLoads | manufacturing.py:56-64 | a record with only `module_id` loads as a module job with a zero counter |
| Manufacturing.JobsRoundTrip | manufacturing.py:332-344 | loading the saved job list gives the same list |
| Manufacturing.PollPartitionsJobs | manufacturing.py:285-292 | the finished and pending jobs together are the original jobs |
| Manufacturing.FinishedJobsElapsed | manufacturing.py:287-290 | every finished job has run its whole duration |
| Manufacturing.PendingJobsNotElapsed | manufacturing.py:287-290 | no pending job has run its whole duration |
| Manufacturing.RemovalCalls | manufacturing.py:258-268 | one removal per recipe line, at the line's quantity × the batch size |
| Manufacturing.SingleUnitRemovalsCovered | manufacturing.py:176-191 | for one item the gates guarantee every removal is covered |
| Manufacturing.PerUnitGateAdmitsShortfall | manufacturing.py:259-262 | two pulse cannons pass the gates with two energy cells held, then four are requested |
| Manufacturing.ManufacturingManager.constructor | manufacturing.py:70-71 | no job at the start, so at most one job |
| Manufacturing.ManufacturingManager.GetActiveJob | manufacturing.py:294-298 | with at most one job (kept by construction, start, check and cancel), the job returned is the whole job list |
| Manufacturing.ManufacturingManager.StartManufacturing | manufacturing.py:228-278 | a failing gate or a running job removes nothing and adds no job; else the scaled removals and exactly one job; at most one job before means at most one after |
| Manufacturing.ManufacturingManager.CheckCompletedJobs | manufacturing.py:280-292 | removes exactly the finished jobs and reports one (item id, quantity, item type) tuple for each, in order; the pending ones stay; at most one job before means at most one after |
| Manufacturing.ManufacturingManager.CancelJob | manufacturing.py:320-330 | fails on no job; else clears every job and returns nothing; no job remains |
| Engine.ItemBasePricePositive | game_engine.py:583-591 | with positive tables every item has a positive base price |
| Engine.TraderSpread | game_engine.py:484-510 | the bid int(base × q × 0.8) never exceeds the ask int(base × q × 1.2), and is strictly below it from a value of 3 on |
| Engine.BuyFromTrader | game_engine.py:478-502 | the trader must hold the goods, the player must pay, the hold must accept; credits conserved; a refusal changes nothing net |
| Engine.SellToTrader | game_engine.py:503-521 | the player must hold the goods and the trader pay int(base × q × 0.8); credits conserved |
| Engine.TradeWithTrader | game_engine.py:470-521 | no trader, no trade; credits only move between the two parties |
| Engine.RefinedTotalBounds | game_engine.py:633-639 | the batch total is at least one unit and at most the batch |
| Engine.ShipShareBounds | game_engine.py:646-649 | the hold's share of a split batch lies between one unit and the total |
| Engine.PlanFacts | game_engine.py:633-657 | raw ore taken equals the batch; the outputs add up to the total; output only goes to a side that supplied ore |
| Engine.RefiningAccounts | game_engine.py:673-706 | a run moves exactly the planned quantities and touches no other item or storage |
| Engine.PutInStation | game_engine.py:704-706 | the local storage gains q of the item, created empty if new |
| Engine.ApplyRefining | game_engine.py:673-706 | the exchange of ore for output; a rejected hold restores the ore on both sides |
| Engine.RefineGates | game_engine.py:600-713 | each failure happens exactly when the earlier gates pass and its own fails; a run refines the whole batch |
| Engine.RunRefining | game_engine.py:659-713 | the volume check, the exchange and the experience |
| Engine.RefineOre | game_engine.py:593-729 | the outcome is `RefineOutcome`: failures change nothing, a run changes exactly the planned ledgers |
| Engine.MineableMembers | game_engine.py:341-346 | an ore is mineable iff it is at the location and its tier is within the laser's |
| Engine.MineableResources | game_engine.py:341-346 | the filter loop keeps the mineable ores in order |
| Engine.MiningYieldAtLeastBase | game_engine.py:356-358 | with a working drill and no negative bonus the yield is at least the base draw |
| Engine.MineResources | game_engine.py:320-374 | the gates in order; an ore missing from the resource table fails as UnknownOre; then the yield clamped to what fits; no mineable ore, no room or a refused add (each exactly when it happens) adds nothing |
| Graph.WithinMonotone | verify_locations.py:22-36 | more hops reach no fewer locations |
| Graph.ClosedHoldsWithin | verify_locations.py:22-36 | a set closed under connections containing the start holds everything reachable |
| Graph.WithinNodes | verify_locations.py:22-36 | every reachable location is one the table mentions |
| Locations.EnqueueNew | verify_locations.py:33-36 | each unvisited connection is marked visited and queued once |
| Locations.SearchStep | verify_locations.py:27-36 | one round keeps the search invariant and makes progress |
| Locations.VerifyAllLocationsReachable | verify_locations.py:9-53 | visited equals the reachable set; true iff every location is reachable |
| Locations.NoConnectionsMembers | verify_locations.py:68-72 | a location is listed iff its connection list is empty |
| Locations.OneWayMembers | verify_locations.py:74-79 | (a, b) is one-way iff b is a location a connects to and b does not connect back |
| Locations.AnalyzeConnections | verify_locations.py:55-79 | the two loops compute exactly those lists |
| Locations.OneWayPairs | verify_locations.py:75-79 | the inner loop lists the one-way pairs from one location, in connection order |
| Locations.ReportMembers | verify_locations.py:63-79 | over every location: listed without connections iff its list is empty; (a, b) one-way iff a connects to the location b and b does not connect back |
| Respawn.UnvisitedMembers | game_engine.py:262-266 | the queued connections are exactly the unvisited ones |
| Respawn.Enqueue | game_engine.py:262-266 | the inner loop appends the unvisited connections at the next distance |
| Respawn.Finish | game_engine.py:244-267 | an exhausted search's best is the nearest safe location, or the fallback |
| Respawn.VisitHead | game_engine.py:250-266 | one visit keeps the search invariant |
| Respawn.ClosestSafeLocation | game_engine.py:235-267 | the result is a safe location at minimal hop distance, nexus_prime when none is reachable |
| Respawn.HandleShipDestruction | game_engine.py:229-318 | respawn at the nearest safe location, cargo cleared, a stored ship taken out, no other storage changed |
| Missions.CommodityRange | missions.py:94-101 | the commodity quantity range by base price is non-empty, within 5..150 |
| Missions.GenerateObjectives | missions.py:60-144 | the objective's counter starts at 0, its target scaled by difficulty, a transport going elsewhere |
| Missions.AdvancedCounts | missions.py:175-210 | a report moves only a concerned objective's counter, by exactly its amount |
| Missions.MetStays | missions.py:181-210 | a reached objective stays reached |
| Missions.Contract.constructor | missions.py:15-58 | reward in [min × difficulty, max × difficulty]; a fresh objective; not accepted |
| Missions.Contract.Accept | missions.py:146-148 | records the acceptance time |
| Missions.Contract.TimeRemaining | missions.py:158-164 | the time left lies in [0, time limit] |
| Missions.Contract.UpdateProgress | missions.py:166-212 | nothing once completed; else counts the report and completes exactly when it reaches the target |
| Missions.FirstMatch | missions.py:309-314 | the first matching position, or −1 when none matches |
| Missions.Live | missions.py:340-343 | the contracts neither failed nor completed, in order |
| Missions.MoveOne | missions.py:312-313 | moving one contract keeps every contract, once each |
| Missions.ContractBoard.constructor | missions.py:285-289 | empty lists |
| Missions.ContractBoard.Find | missions.py:309-310 | the search loop finds the first matching contract |
| Missions.ContractBoard.MoveToActive | missions.py:311-313 | the contract is accepted, leaves the available list and joins the end of the active list; no contract is lost or duplicated |
| Missions.ContractBoard.AcceptContract | missions.py:307-315 | moves the first matching available contract to the active list, accepted; None and no change otherwise |
| Missions.ContractBoard.CompleteContract | missions.py:317-324 | removes and pays only a completed contract |
| Missions.ContractBoard.AbandonContract | missions.py:326-332 | removes the first active contract with that id |
| Missions.ContractBoard.CheckExpiredContracts | missions.py:334-338 | marks failed exactly the expired, uncompleted active contracts |
| Missions.ContractBoard.GetActiveContracts | missions.py:340-343 | the live active contracts, after the expiry check |
| Shipyard.SkillLevelsAgree | shipyard.py:36-43 | the two piloting rules agree except on faction ships, where the listing asks more |
| Shipyard.TradeInValue | shipyard.py:100-106 | int(cost × 0.7), 0 for an unknown ship |
| Shipyard.PurchaseShip | shipyard.py:118-179 | rejects unknown, level, skill, funds in order; the price is cost less the trade-in |
| Shipyard.PurchaseFunds | shipyard.py:108-179 | past the gates only funds fail, exactly as can_afford_ship says |
| Shipyard.SellShip | shipyard.py:181-192 | a known ship sells for its trade-in value |
| Shipyard.SellMatchesTradeIn | shipyard.py:100-192 | selling and trading in are worth the same |
| Shipyard.GetAvailableShips | shipyard.py:16-73 | nothing without the shipyard service; else the eligible ships sorted by (tier, cost) |
| Shipyard.OffersContents | shipyard.py:23-68 | every row is an eligible ship |
| Shipyard.OffersComplete | shipyard.py:23-68 | every eligible ship gets a row |
| Shipyard.NoSkillsNoOffers | shipyard.py:45-51 | without skills nothing is listed |
| Shipyard.AvailableShipsFacts | shipyard.py:16-73 | sorted, exactly the eligible ships, each purchasable with its cost in credits |
| Shipyard.ListedIsPurchasable | shipyard.py:118-179 | the listing's gates imply the purchase's |
| Shipyard.FactionShipBuyableUnlisted | shipyard.py:146-160 | a faction ship is buyable with a level the listing rejects |
| Travel.TravelDistance | travel_system.py:158-172 | (a, b), then (b, a), else 500 |
| Travel.DistanceSymmetric | travel_system.py:158-172 | with each pair listed once, the distance is symmetric |
| Travel.SpeedFactor | travel_system.py:188 | at least 1, exactly 1 for speed up to 10 |
| Travel.TravelTime | travel_system.py:175-192 | always in [2, 10]; for speed up to 10 it is int(distance) clamped to [2, 10] |
| Travel.TravelTimeSpeedMonotone | travel_system.py:188-192 | faster never takes longer |
| Travel.TravelTimeDistanceMonotone | travel_system.py:188-192 | farther never takes less |
| Travel.FormatRoundTrip | travel_system.py:195-205 | reading the "Ns", "Mm Rs" or "Mm" text back gives the same number of seconds |
| Symbols.IndexOf | symbols.py:174 | the key's position, −1 when absent |
| Symbols.FirstPartial | symbols.py:179-182 | the first key the id starts with or contains, −1 when none |
| Symbols.SearchPartial | symbols.py:179-182 | the loop returns that key's symbol |
| Symbols.PrefixIsSubstring | symbols.py:181 | the `startswith` half of the module test adds nothing: a key matches iff the id contains it |
| Symbols.GetSymbol | symbols.py:152-185 | exact match, then the module search, then the default |
| Symbols.SymbolExact | symbols.py:174-176 | an exact key gives its own entry |
| Symbols.SymbolModulePartial | symbols.py:179-182 | a module id without exact key gives the first contained module key's symbol |
| Symbols.SymbolDefault | symbols.py:172-185 | otherwise the default symbol |
| Symbols.RarityColor | symbols.py:188-190 | the rarity's colour, the common colour otherwise |
| NavFilter.GetFilteredNavButtons | gui.py:487-542 | the filter loop and the trailing pops compute `Filtered` |
| NavFilter.PassNonSpacers | gui.py:518-536 | the non-spacer entries of the pass are exactly the wanted buttons, in order |
| NavFilter.PassSpacing | gui.py:520-525 | the pass never opens with a spacer and never appends two in a row |
| NavFilter.FilteredKeepsButtons | gui.py:518-536 | the shown buttons are exactly the wanted ones, in their original order |
| NavFilter.KeptMembership | gui.py:528-536 | a button is shown iff it has no requirement or one of its services is offered |
| NavFilter.FilteredSpacers | gui.py:520-540 | no leading, adjacent or trailing spacer; only buttons of the list |
| NavFilter.SidebarEnds | gui.py:493-512 | the sidebar opens with status and travel and closes with save game |

## Left out

- Rendering, dialogs and callbacks: gui.py outside get_filtered_nav_buttons, icon_manager.py and generate_icons.py. The print-only scripts (check_all_four_locations.py, test_harvest_game_logic.py, fix_connections.py) are left out too.
- Random draws are parameters. The model says nothing about their distributions.
- `time.time()` is a `now` parameter.
- IEEE floating point is modelled as exact `real` arithmetic.
- The periodic tick of update_game_state is timing glue and is not modelled.
- The volume system, config, vessels, berths, the commodity market and faction_items are not part of this model. They enter as parameters: `canAdd`, `cargoVolume`, `maxCanAdd`, `capacity`, `TAX_RATE`, the fluctuation range, the training constants and `isMothership`.
- The large data tables are not transcribed. MODULES, MODULE_COMPONENTS, SHIP_COMPONENTS, the four recipe tables and LOCATIONS are fields of the injected `Catalog`.
- find_best_trade_route, get_available_modules, get_available_components, the get_*_by_type helpers and the economy's to_dict/from_dict are not modelled. They only read and format the modelled state.
- Shipyard get_ship_info, get_ships_by_type and get_upgrade_path are not modelled. They read keys the generated ships lack.
- get_repair_cost, combat, travel encounters, generate_contracts, contract descriptions, get_progress_text and Player.to_dict/from_dict are not modelled. They depend on vessel floats, randomness or text only.
- The `Vessel` object is reduced to the numbers the core reads: capacity, mining efficiency and tier. Its starter modules and the stats counters are not modelled.
- Economy.ShipMarket.GetAvailableShips: the display name and stats of each row are left out.
- The `order` parameters of the listing methods (Economy.ShipMarket.GetAvailableShips, Locations.AnalyzeConnections and others) stand for dictionary iteration order.
- Engine.RefineOre: requires quantity ≥ 1. At 0 the source credits one unit and then divides by zero (game_engine.py:639, 704-716).
- Engine.RefineOre: requires the yield draw to lie in the ore's range, the refined resource to be listed, and the current location to be a key of LOCATIONS.
- Engine.MineResources: requires the random pick to index the mineable list and the base yield to lie in 10..30.
- Engine.MineResources: the mining statistics counter, the collect_resource contract progress with its auto-payment and experience, and the encounter roll (game_engine.py:376-410) are not modelled. They update state outside the hold and the credits or depend on randomness only.
- Engine.MineResources: the source's KeyError for a picked ore missing from RESOURCES (game_engine.py:353) is the UnknownOre outcome, which leaves the player unchanged.
- PlayerModel.Player.AddExperience: requires a level of at least 1 and a positive threshold. Without them the source's level-up loop need not end. The constructor sets both up and level_up keeps them.
- PlayerModel.Player.CheckSkillTraining: requires the same, for the same reason.
- PlayerModel.Player.StartSkillTraining: requires non-negative skill levels.
- Respawn.HandleShipDestruction: the ship taken out of storage is some stored ship with a positive count. The source takes the first in the dictionary's order.
- Missions.Contract.constructor: requires a known contract type. The source raises ValueError for any other.
- Missions.Contract.constructor: requires draws within the ranges the source draws from.
- Missions.Contract.UpdateProgress: excludes a refining or manufacturing contract that is not completed. Its empty objectives make the source raise KeyError (missions.py:144, 175).
- Manufacturing.ManufacturingManager.CheckCompletedJobs: requires every job to have a non-zero duration. Progress divides by it.
- Travel.DistanceSymmetric: assumes each pair is listed in one order only. This is not proved for the transcribed TRAVEL_DISTANCES table: checking its 96 literal string pairs is beyond the solver's budget.
- Locations.VerifyAllLocationsReachable: requires the start to be a location and every connection to name a location. On any other table the source raises KeyError at verify_locations.py:31; that outcome is not modelled.
- Manufacturing.FromDict: a record with neither `item_id` nor `module_id`, or with a value of the wrong type, loads in the source (item id None, or the value unchecked) and fails only later. The model refuses such a record with None.
- Catalog.SampleCatalogRecipes: the one-input property is proved for the sample catalogue only. The four recipe tables of data.py are not transcribed, so it is not proved for them.
- CATEGORY_DEFAULTS (symbols.py:194-201) is not modelled. get_symbol never reads it.
- A navigation button's command callback is identified by the view it opens.
- game_engine.py:1084-1090 passes the current ship id into the skills parameter of shipyard purchase_ship. The caller is not modelled, only the function it calls.
- The recipes for harvester_drill_t3 and nova_engine_t3 name items the catalogue lacks. This is a property of the untranscribed tables.
