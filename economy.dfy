/** economy.py: the resource market of one location, the manager owning one
    market per location that offers the "market" service, the module and
    component price adapters, and the ship market with its per-station stock. */
module Economy {
  import opened Common
  import opened Catalog
  import opened Sorting
  import Shipyard

  /** RESOURCES[r]["base_price"] as a real (0 for an id outside the
      catalogue, which the markets never hold). */
  function Base(c: Catalog, r: string): (b: real)
    ensures c.PricesPositive() && r in c.AllResources() ==> b > 0.0
  {
    if r in c.AllResources() then c.AllResources()[r].basePrice as real else 0.0
  }

  /** LOCATIONS.get(id, {}).get("resources", []). */
  function LocalResources(locations: map<string, Location>, id: string): seq<string>
  {
    if id in locations then locations[id].resources else []
  }

  /** The draws _initialize_market makes for one resource: a local resource
      is 20-30% cheaper with 1000-5000 units, an imported one 20-50% dearer
      with 100-500 units. */
  predicate SeedDraw(local: bool, priceMult: real, amount: int)
  {
    if local then 0.7 <= priceMult <= 0.8 && 1000 <= amount <= 5000
    else 1.2 <= priceMult <= 1.5 && 100 <= amount <= 500
  }

  /** One step of fluctuate_prices for one resource: the moved price clamped
      to [0.5, 3] times the base price. */
  function FluctuatedPrice(c: Catalog, r: string, p: real, change: real): (q: real)
    ensures Base(c, r) >= 0.0 ==> 0.5 * Base(c, r) <= q <= 3.0 * Base(c, r)
    ensures Base(c, r) >= 0.0 && 0.5 * Base(c, r) <= p * (1.0 + change) <= 3.0 * Base(c, r) ==> q == p * (1.0 + change)
  {
    MaxR(0.5 * Base(c, r), MinR(3.0 * Base(c, r), p * (1.0 + change)))
  }

  /** The prices after one fluctuate_prices call. */
  function FluctuatedPrices(c: Catalog, p: map<string, real>, change: map<string, real>): map<string, real>
    requires p.Keys <= change.Keys
  {
    map r | r in p :: FluctuatedPrice(c, r, p[r], change[r])
  }

  /** The stock after one fluctuate_prices call. */
  function FluctuatedStock(s: map<string, int>, stockChange: map<string, int>): map<string, int>
    requires s.Keys <= stockChange.Keys
  {
    map r | r in s :: Max(0, s[r] + stockChange[r])
  }

  /** The first loop of fluctuate_prices, over the priced resources. */
  method FluctuateEach(c: Catalog, prices: map<string, real>, change: map<string, real>) returns (p: map<string, real>)
    requires prices.Keys <= change.Keys
    ensures p == FluctuatedPrices(c, prices, change)
  {
    p := prices;
    var keys := p.Keys;
    while keys != {}
      invariant keys <= p.Keys == prices.Keys
      invariant forall r :: r in p && r !in keys ==> p[r] == FluctuatedPrice(c, r, prices[r], change[r])
      invariant forall r :: r in keys ==> p[r] == prices[r]
      decreases keys
    {
      var r :| r in keys;
      p := p[r := FluctuatedPrice(c, r, p[r], change[r])];
      keys := keys - {r};
    }
  }

  /** The second loop of fluctuate_prices, over the stocked resources. */
  method FluctuateStock(stock: map<string, int>, stockChange: map<string, int>) returns (s: map<string, int>)
    requires stock.Keys <= stockChange.Keys
    ensures s == FluctuatedStock(stock, stockChange)
  {
    s := stock;
    var keys := s.Keys;
    while keys != {}
      invariant keys <= s.Keys == stock.Keys
      invariant forall r :: r in s && r !in keys ==> s[r] == Max(0, stock[r] + stockChange[r])
      invariant forall r :: r in keys ==> s[r] == stock[r]
      decreases keys
    {
      var r :| r in keys;
      s := s[r := Max(0, s[r] + stockChange[r])];
      keys := keys - {r};
    }
  }

  /** Fluctuation keeps the set of stocked resources and leaves no stock
      negative, moving it by exactly its draw when that stays non-negative. */
  lemma FluctuatedStockNonNegative(s: map<string, int>, stockChange: map<string, int>)
    requires s.Keys <= stockChange.Keys
    ensures FluctuatedStock(s, stockChange).Keys == s.Keys
    ensures forall r :: r in s ==> FluctuatedStock(s, stockChange)[r] >= 0
    ensures forall r :: r in s && s[r] + stockChange[r] >= 0 ==> FluctuatedStock(s, stockChange)[r] == s[r] + stockChange[r]
  {
  }

  /** Fluctuation keeps the set of priced resources and brings every price
      within [0.5, 3] times its base price, moving it by exactly its draw
      when that stays in range. */
  lemma FluctuationBounded(c: Catalog, p: map<string, real>, change: map<string, real>)
    requires c.PricesPositive() && p.Keys <= c.AllResources().Keys && p.Keys <= change.Keys
    ensures FluctuatedPrices(c, p, change).Keys == p.Keys
    ensures forall r :: r in p ==>
      0.5 * Base(c, r) <= FluctuatedPrices(c, p, change)[r] <= 3.0 * Base(c, r)
    ensures forall r :: r in p && 0.5 * Base(c, r) <= p[r] * (1.0 + change[r]) <= 3.0 * Base(c, r) ==>
      FluctuatedPrices(c, p, change)[r] == p[r] * (1.0 + change[r])
  {
  }

  /** The bulk multiplier of a purchase: 10% premium above 100 units. */
  function BulkPremium(quantity: int): real
  {
    if quantity > 100 then 1.1 else 1.0
  }

  /** The bulk multiplier of a sale: 10% penalty above 100 units. */
  function BulkPenalty(quantity: int): real
  {
    if quantity > 100 then 0.9 else 1.0
  }

  datatype ListingRow = ListingRow(
    id: string, name: string, buyPrice: int, sellPrice: int, stock: int, rarity: string)

  /** `key=lambda x: x["buy_price"]`. */
  function RowKey(row: ListingRow): (int, int)
  {
    (row.buyPrice, 0)
  }

  /** A price of `b * m` with `m` in [lo, hi] lies in [lo * b, hi * b]. */
  lemma ScaleBounds(b: real, m: real, lo: real, hi: real, price: real)
    requires b > 0.0 && lo <= m <= hi && price == b * m
    ensures lo * b <= price <= hi * b
  {
    MulLe(b, lo, m);
    MulLe(b, m, hi);
  }

  /** The prices and stock _initialize_market computes for the resources
      seeded so far. */
  ghost predicate Seeded(c: Catalog, p: map<string, real>, s: map<string, int>,
                         priceMult: map<string, real>, amount: map<string, int>)
  {
    forall k :: k in p ==>
      k in c.AllResources() && k in s && k in priceMult && k in amount &&
      p[k] == Base(c, k) * priceMult[k] && s[k] == amount[k]
  }

  lemma SeededStep(c: Catalog, p: map<string, real>, s: map<string, int>,
                   priceMult: map<string, real>, amount: map<string, int>, r: string)
    requires Seeded(c, p, s, priceMult, amount) && r in c.AllResources()
    requires r in priceMult && r in amount
    ensures Seeded(c, p[r := Base(c, r) * priceMult[r]], s[r := amount[r]], priceMult, amount)
  {
  }

  /** The ranges the seeding draws put each price and stock figure in: a
      local resource at 70-80% of its base price with 1000-5000 units, an
      imported one at 120-150% with 100-500 units. */
  ghost predicate SeedBounded(c: Catalog, local: seq<string>, p: map<string, real>, s: map<string, int>)
    requires p.Keys <= s.Keys
  {
    (forall r :: r in p && r in local ==>
      0.7 * Base(c, r) <= p[r] <= 0.8 * Base(c, r) && 1000 <= s[r] <= 5000) &&
    (forall r :: r in p && r !in local ==>
      1.2 * Base(c, r) <= p[r] <= 1.5 * Base(c, r) && 100 <= s[r] <= 500)
  }

  lemma SeededBounds(c: Catalog, local: seq<string>, p: map<string, real>, s: map<string, int>,
                     priceMult: map<string, real>, amount: map<string, int>)
    requires c.PricesPositive() && Seeded(c, p, s, priceMult, amount)
    requires c.AllResources().Keys <= priceMult.Keys && c.AllResources().Keys <= amount.Keys
    requires forall r :: r in c.AllResources() ==> SeedDraw(r in local, priceMult[r], amount[r])
    ensures p.Keys <= c.AllResources().Keys && p.Keys <= s.Keys
    ensures SeedBounded(c, local, p, s)
    ensures forall r :: r in p ==> 0.5 * Base(c, r) <= p[r] <= 3.0 * Base(c, r) && s[r] >= 0
  {
    forall r | r in p
      ensures r in local ==> 0.7 * Base(c, r) <= p[r] <= 0.8 * Base(c, r) && 1000 <= s[r] <= 5000
      ensures r !in local ==> 1.2 * Base(c, r) <= p[r] <= 1.5 * Base(c, r) && 100 <= s[r] <= 500
    {
      assert r in c.AllResources() && p[r] == Base(c, r) * priceMult[r] && s[r] == amount[r];
      SeedDrawBounds(Base(c, r), priceMult[r], amount[r], r in local, p[r]);
    }
  }

  /** A seeded price is its base price times the drawn multiplier. */
  lemma SeedDrawBounds(b: real, m: real, a: int, local: bool, price: real)
    requires b > 0.0 && SeedDraw(local, m, a) && price == b * m
    ensures local ==> 0.7 * b <= price <= 0.8 * b && 1000 <= a <= 5000
    ensures !local ==> 1.2 * b <= price <= 1.5 * b && 100 <= a <= 500
  {
    if local {
      ScaleBounds(b, m, 0.7, 0.8, price);
    } else {
      ScaleBounds(b, m, 1.2, 1.5, price);
    }
  }

  /** The loop of _initialize_market: one price and one stock figure per
      resource, walking the catalogue in order; `local` lists the resources
      found at the market's location. */
  method SeedMarket(c: Catalog, local: seq<string>, priceMult: map<string, real>, amount: map<string, int>)
    returns (p: map<string, real>, s: map<string, int>)
    requires c.OrderListsResources() && c.PricesPositive()
    requires c.AllResources().Keys <= priceMult.Keys && c.AllResources().Keys <= amount.Keys
    requires forall r :: r in c.AllResources() ==> SeedDraw(r in local, priceMult[r], amount[r])
    ensures p.Keys == c.AllResources().Keys && s.Keys == c.AllResources().Keys
    ensures Seeded(c, p, s, priceMult, amount)
    ensures SeedBounded(c, local, p, s)
    ensures forall r :: r in p ==> 0.5 * Base(c, r) <= p[r] <= 3.0 * Base(c, r) && s[r] >= 0
  {
    var order := c.resourceOrder;
    p, s := map[], map[];
    var i := 0;
    while i < |order|
      invariant 0 <= i <= |order|
      invariant p.Keys == s.Keys == set k | k in order[..i]
      invariant Seeded(c, p, s, priceMult, amount)
    {
      var r := order[i];
      assert r in c.AllResources();
      SeededStep(c, p, s, priceMult, amount, r);
      p := p[r := Base(c, r) * priceMult[r]];
      s := s[r := amount[r]];
      assert order[..i + 1] == order[..i] + [r];
      i := i + 1;
    }
    assert order[..i] == order;
    OrderCoversResources(c);
    SeededBounds(c, local, p, s, priceMult, amount);
  }

  /** The catalogue's order lists exactly its resources. */
  lemma OrderCoversResources(c: Catalog)
    requires c.OrderListsResources()
    ensures (set k | k in c.resourceOrder) == c.AllResources().Keys
  {
  }

  class Market {
    const catalog: Catalog
    const locationId: string
    var prices: map<string, real>
    var stock: map<string, int>

    /** Every priced or stocked key is a resource of the catalogue. */
    ghost predicate Valid()
      reads this
    {
      catalog.ResourcesWellFormed() &&
      prices.Keys <= catalog.AllResources().Keys && stock.Keys <= catalog.AllResources().Keys
    }

    /** Every price lies within [0.5, 3] times its base price. */
    ghost predicate InBand()
      reads this
    {
      forall r :: r in prices ==> 0.5 * Base(catalog, r) <= prices[r] <= 3.0 * Base(catalog, r)
    }

    ghost predicate StockNonNegative()
      reads this
    {
      forall r :: r in stock ==> stock[r] >= 0
    }

    /** Market(location_id): _initialize_market seeds one price and one stock
        figure per resource, walking the catalogue in order, from the draws. */
    constructor (c: Catalog, locationId: string, locations: map<string, Location>,
                 priceMult: map<string, real>, amount: map<string, int>)
      requires c.ResourcesWellFormed()
      requires c.AllResources().Keys <= priceMult.Keys && c.AllResources().Keys <= amount.Keys
      requires forall r :: r in c.AllResources() ==>
        SeedDraw(r in LocalResources(locations, locationId), priceMult[r], amount[r])
      ensures catalog == c && this.locationId == locationId
      ensures prices.Keys == c.AllResources().Keys && stock.Keys == c.AllResources().Keys
      ensures Seeded(c, prices, stock, priceMult, amount)
      ensures SeedBounded(c, LocalResources(locations, locationId), prices, stock)
      ensures Valid() && InBand() && StockNonNegative()
    {
      var p, s := SeedMarket(c, LocalResources(locations, locationId), priceMult, amount);
      catalog := c;
      this.locationId := locationId;
      prices := p;
      stock := s;
    }

    /** fluctuate_prices: every price moves by its draw and is clamped to
        [0.5, 3] times its base price; every stock moves by its draw and is
        floored at 0. */
    method FluctuatePrices(change: map<string, real>, stockChange: map<string, int>)
      requires prices.Keys <= change.Keys && stock.Keys <= stockChange.Keys
      modifies this
      ensures prices == FluctuatedPrices(catalog, old(prices), change)
      ensures stock == FluctuatedStock(old(stock), stockChange)
      ensures old(Valid()) ==> Valid() && InBand()
      ensures StockNonNegative()
    {
      if Valid() {
        FluctuationBounded(catalog, prices, change);
      }
      FluctuatedStockNonNegative(stock, stockChange);
      prices := FluctuateEach(catalog, prices, change);
      stock := FluctuateStock(stock, stockChange);
    }

    /** get_buy_price: 0 for an unpriced resource, otherwise the price less
        the trade discount, with the bulk premium, times the quantity. */
    function BuyQuote(resourceId: string, quantity: int, tradeBonus: real): (q: real)
      reads this`prices
      ensures resourceId !in prices ==> q == 0.0
    {
      if resourceId !in prices then 0.0
      else prices[resourceId] * (1.0 - tradeBonus) * BulkPremium(quantity) * quantity as real
    }

    /** get_sell_price: 0 for an unpriced resource, otherwise the price plus
        the trade bonus, with the bulk penalty, less the tax (TAX_RATE minus
        the player's reduction, never below 0), times the quantity. */
    function SellQuote(resourceId: string, quantity: int, tradeBonus: real, taxReduction: real, taxRate: real): (q: real)
      reads this`prices
      ensures resourceId !in prices ==> q == 0.0
    {
      if resourceId !in prices then 0.0
      else prices[resourceId] * (1.0 + tradeBonus) * BulkPenalty(quantity)
             * (1.0 - MaxR(0.0, taxRate - taxReduction)) * quantity as real
    }

    /** buy_from_market: fails, leaving the stock as it was, for a resource
        outside the catalogue, for short stock, or when the quote exceeds the
        player's credits (then reporting the quote); otherwise takes exactly
        `quantity` units off that resource's stock and reports int(quote). */
    method BuyFromMarket(resourceId: string, quantity: int, playerCredits: int, tradeBonus: real)
      returns (ok: bool, cost: int)
      modifies this
      ensures prices == old(prices)
      ensures ok <==> resourceId in catalog.AllResources() && resourceId in old(stock) && old(stock[resourceId]) >= quantity
                      && playerCredits as real >= BuyQuote(resourceId, quantity, tradeBonus)
      ensures ok ==> stock == old(stock)[resourceId := old(stock[resourceId]) - quantity]
      ensures ok ==> cost == Trunc(BuyQuote(resourceId, quantity, tradeBonus))
      ensures !ok ==> stock == old(stock)
      ensures !ok && (resourceId !in catalog.AllResources() || resourceId !in stock || stock[resourceId] < quantity) ==> cost == 0
      ensures !ok && resourceId in catalog.AllResources() && resourceId in stock && stock[resourceId] >= quantity ==>
        cost == Trunc(BuyQuote(resourceId, quantity, tradeBonus))
      ensures old(Valid()) ==> Valid()
      ensures old(Valid()) && old(InBand()) ==> InBand()
      ensures old(StockNonNegative()) ==> StockNonNegative()
    {
      if resourceId !in catalog.AllResources() {
        return false, 0;
      }
      if resourceId !in stock || stock[resourceId] < quantity {
        return false, 0;
      }
      var quote := BuyQuote(resourceId, quantity, tradeBonus);
      if (playerCredits as real) < quote {
        return false, Trunc(quote);
      }
      stock := stock[resourceId := stock[resourceId] - quantity];
      return true, Trunc(quote);
    }

    /** sell_to_market: succeeds for every resource of the catalogue, adding
        exactly `quantity` to its stock (creating the entry), and reports
        int(quote); any other id fails with nothing changed. */
    method SellToMarket(resourceId: string, quantity: int, tradeBonus: real, taxReduction: real, taxRate: real)
      returns (ok: bool, payment: int)
      modifies this
      ensures prices == old(prices)
      ensures ok <==> resourceId in catalog.AllResources()
      ensures ok ==> stock == old(stock)[resourceId := Count(old(stock), resourceId) + quantity]
      ensures ok ==> payment == Trunc(SellQuote(resourceId, quantity, tradeBonus, taxReduction, taxRate))
      ensures !ok ==> stock == old(stock) && payment == 0
      ensures old(Valid()) ==> Valid()
      ensures old(Valid()) && old(InBand()) ==> InBand()
      ensures old(StockNonNegative()) && quantity >= 0 ==> StockNonNegative()
    {
      if resourceId !in catalog.AllResources() {
        return false, 0;
      }
      var quote := SellQuote(resourceId, quantity, tradeBonus, taxReduction, taxRate);
      if resourceId in stock {
        stock := stock[resourceId := stock[resourceId] + quantity];
      } else {
        stock := stock[resourceId := quantity];
      }
      return true, Trunc(quote);
    }

    /** The row get_market_listing builds for one priced resource. */
    function RowOf(r: string): ListingRow
      reads this
      requires r in catalog.AllResources() && r in prices
    {
      ListingRow(r, catalog.AllResources()[r].name, Trunc(prices[r]), Trunc(prices[r] * 0.8),
                 Count(stock, r), catalog.AllResources()[r].rarity)
    }

    /** Whether the listing shows resource `r`. */
    predicate Listed(r: string, filterAvailable: bool)
      reads this
    {
      r in prices && !(filterAvailable && Count(stock, r) == 0)
    }

    /** The rows of the listing, unsorted, for the resources `ids` in order. */
    function Rows(ids: seq<string>, filterAvailable: bool): seq<ListingRow>
      reads this
      requires forall i :: 0 <= i < |ids| ==> ids[i] in catalog.AllResources()
    {
      if ids == [] then []
      else
        var r := ids[|ids| - 1];
        Rows(ids[..|ids| - 1], filterAvailable) + (if Listed(r, filterAvailable) then [RowOf(r)] else [])
    }

    /** get_market_listing: the rows in catalogue order, then sorted by buy price. */
    method GetMarketListing(filterAvailable: bool) returns (rows: seq<ListingRow>)
      requires catalog.OrderListsResources()
      ensures rows == SortBy(Rows(catalog.resourceOrder, filterAvailable), RowKey)
    {
      var order := catalog.resourceOrder;
      var listings: seq<ListingRow> := [];
      var i := 0;
      while i < |order|
        invariant 0 <= i <= |order|
        invariant listings == Rows(order[..i], filterAvailable)
      {
        var r := order[i];
        assert order[..i + 1][..i] == order[..i];
        if r in prices && !(filterAvailable && Count(stock, r) == 0) {
          listings := listings + [RowOf(r)];
        }
        i := i + 1;
      }
      assert order[..i] == order;
      rows := SortBy(listings, RowKey);
    }
  }

  /** Below and at 100 units a buy quote is the unit quote times the
      quantity; above 100 it is 10% more. */
  lemma BuyQuoteBulk(m: Market, r: string, quantity: int, tradeBonus: real)
    requires r in m.prices && quantity >= 1
    ensures quantity <= 100 ==> m.BuyQuote(r, quantity, tradeBonus) == quantity as real * m.BuyQuote(r, 1, tradeBonus)
    ensures quantity > 100 ==> m.BuyQuote(r, quantity, tradeBonus) == 1.1 * quantity as real * m.BuyQuote(r, 1, tradeBonus)
  {
  }

  /** Without a trade bonus, selling never pays more than buying costs: the
      bulk penalty, the tax and the bulk premium all work against the player. */
  lemma SellQuoteAtMostBuyQuote(m: Market, r: string, quantity: int, taxReduction: real, taxRate: real)
    requires r in m.prices && m.prices[r] >= 0.0 && quantity >= 0 && taxRate <= 1.0 + taxReduction
    ensures m.SellQuote(r, quantity, 0.0, taxReduction, taxRate) <= m.BuyQuote(r, quantity, 0.0)
  {
    var p, q := m.prices[r], quantity as real;
    var keep := 1.0 - MaxR(0.0, taxRate - taxReduction);
    assert 0.0 <= keep <= 1.0;
    var pq := p * q;
    MulLe(p, 0.0, q);
    calc {
      m.SellQuote(r, quantity, 0.0, taxReduction, taxRate);
      == p * (1.0 + 0.0) * BulkPenalty(quantity) * keep * q;
      == pq * (BulkPenalty(quantity) * keep);
    <= { assert BulkPenalty(quantity) * keep <= 1.0; MulLe(pq, BulkPenalty(quantity) * keep, 1.0); }
      pq * 1.0;
    <= { MulLe(pq, 1.0, BulkPremium(quantity)); }
      pq * BulkPremium(quantity);
      == p * (1.0 - 0.0) * BulkPremium(quantity) * q;
      == m.BuyQuote(r, quantity, 0.0);
    }
  }

  /** Each row of the listing carries its resource's truncated price, a
      sell price of 80% of it, and its stock (0 when absent); the sell price
      never exceeds the buy price. */
  lemma {:induction false} RowsContents(m: Market, ids: seq<string>, filterAvailable: bool, row: ListingRow)
    requires forall i :: 0 <= i < |ids| ==> ids[i] in m.catalog.AllResources()
    requires forall r :: r in m.prices ==> m.prices[r] >= 0.0
    requires row in m.Rows(ids, filterAvailable)
    ensures row.id in ids && m.Listed(row.id, filterAvailable)
    ensures row.buyPrice == Trunc(m.prices[row.id]) && row.sellPrice == Trunc(m.prices[row.id] * 0.8)
    ensures row.stock == Count(m.stock, row.id) && row.sellPrice <= row.buyPrice
    ensures !filterAvailable || row.stock != 0
  {
    var last := ids[|ids| - 1];
    if row in m.Rows(ids[..|ids| - 1], filterAvailable) {
      RowsContents(m, ids[..|ids| - 1], filterAvailable, row);
    } else {
      assert row == m.RowOf(last);
      TruncMonotone(m.prices[last] * 0.8, m.prices[last]);
    }
  }

  /** Every priced resource of `ids` that passes the filter gets a row. */
  lemma {:induction false} RowsComplete(m: Market, ids: seq<string>, filterAvailable: bool, r: string)
    requires forall i :: 0 <= i < |ids| ==> ids[i] in m.catalog.AllResources()
    requires r in ids && m.Listed(r, filterAvailable)
    ensures exists row :: row in m.Rows(ids, filterAvailable) && row.id == r
  {
    var last := ids[|ids| - 1];
    if r == last {
      assert m.RowOf(r) in m.Rows(ids, filterAvailable);
    } else {
      assert r in ids[..|ids| - 1] by {
        var k :| 0 <= k < |ids| && ids[k] == r;
        assert k < |ids| - 1 && ids[..|ids| - 1][k] == r;
      }
      RowsComplete(m, ids[..|ids| - 1], filterAvailable, r);
      var row :| row in m.Rows(ids[..|ids| - 1], filterAvailable) && row.id == r;
      assert row in m.Rows(ids, filterAvailable);
    }
  }

  /** Sorting the rows neither adds nor drops a row. */
  lemma SortedRowsSameRows(unsorted: seq<ListingRow>, rows: seq<ListingRow>)
    requires rows == SortBy(unsorted, RowKey)
    ensures forall row :: row in rows <==> row in unsorted
  {
    assert multiset(rows) == multiset(unsorted);
    forall row
      ensures row in rows <==> row in unsorted
    {
      assert row in rows <==> row in multiset(rows);
      assert row in unsorted <==> row in multiset(unsorted);
    }
  }

  /** The listing is sorted by buy price and shows exactly the priced
      resources that pass the stock filter. */
  lemma ListingFacts(m: Market, filterAvailable: bool, rows: seq<ListingRow>)
    requires m.catalog.OrderListsResources()
    requires rows == SortBy(m.Rows(m.catalog.resourceOrder, filterAvailable), RowKey)
    requires forall r :: r in m.prices ==> m.prices[r] >= 0.0
    ensures forall i, j :: 0 <= i < j < |rows| ==> rows[i].buyPrice <= rows[j].buyPrice
    ensures forall r :: r in m.catalog.AllResources() ==>
      ((exists row :: row in rows && row.id == r) <==> m.Listed(r, filterAvailable))
    ensures forall row :: row in rows ==> row.sellPrice <= row.buyPrice
  {
    var order := m.catalog.resourceOrder;
    var unsorted := m.Rows(order, filterAvailable);
    SortBySorted(unsorted, RowKey);
    SortedRowsSameRows(unsorted, rows);
    forall r | r in m.catalog.AllResources()
      ensures (exists row :: row in rows && row.id == r) <==> m.Listed(r, filterAvailable)
    {
      if exists row :: row in rows && row.id == r {
        var row :| row in rows && row.id == r;
        RowsContents(m, order, filterAvailable, row);
      }
      if m.Listed(r, filterAvailable) {
        RowsComplete(m, order, filterAvailable, r);
        var row :| row in unsorted && row.id == r;
        assert row in rows;
      }
    }
    forall row | row in rows
      ensures row.sellPrice <= row.buyPrice
    {
      RowsContents(m, order, filterAvailable, row);
    }
  }

  // ---------------------------------------------------------------- EconomyManager

  /** Whether a location offers the "market" service. */
  predicate HasMarket(l: Location)
  {
    "market" in l.services
  }

  class EconomyManager {
    var markets: map<string, Market>

    /** Each market sits under its own location's id, so no two locations
        share a market object. */
    ghost predicate Valid()
      reads this
    {
      forall k :: k in markets ==> markets[k].locationId == k
    }

    /** Every market keeps its own invariant. */
    ghost predicate MarketsValid()
      reads this, markets.Values
    {
      forall k :: k in markets ==> markets[k].Valid() && markets[k].InBand()
    }

    /** _initialize_markets: a market for exactly the locations offering the
        "market" service. */
    constructor (c: Catalog, locations: map<string, Location>,
                 priceMult: map<string, map<string, real>>, amount: map<string, map<string, int>>)
      requires c.ResourcesWellFormed()
      requires locations.Keys <= priceMult.Keys && locations.Keys <= amount.Keys
      requires forall loc :: loc in locations ==>
        c.AllResources().Keys <= priceMult[loc].Keys && c.AllResources().Keys <= amount[loc].Keys
      requires forall loc, r :: loc in locations && r in c.AllResources() ==>
        SeedDraw(r in locations[loc].resources, priceMult[loc][r], amount[loc][r])
      ensures markets.Keys == set loc | loc in locations && HasMarket(locations[loc])
      ensures forall k :: k in markets ==> markets[k].catalog == c
      ensures Valid() && MarketsValid()
    {
      var ms: map<string, Market> := map[];
      var keys := locations.Keys;
      while keys != {}
        invariant keys <= locations.Keys
        invariant forall k :: k in ms <==> k in locations && k !in keys && HasMarket(locations[k])
        invariant forall k :: k in ms ==> ms[k].catalog == c
        invariant forall k :: k in ms ==> ms[k].locationId == k && ms[k].Valid() && ms[k].InBand()
        decreases keys
      {
        var loc :| loc in keys;
        if HasMarket(locations[loc]) {
          var m := new Market(c, loc, locations, priceMult[loc], amount[loc]);
          ms := ms[loc := m];
        }
        keys := keys - {loc};
      }
      markets := ms;
    }

    /** get_market: the market at a location, if any. */
    function GetMarket(locationId: string): (m: Option<Market>)
      reads this
      ensures m.Some? <==> locationId in markets
      ensures m.Some? ==> m.value == markets[locationId]
      ensures Valid() && m.Some? ==> m.value.locationId == locationId
    {
      if locationId in markets then Some(markets[locationId]) else None
    }

    /** update_markets: fluctuates every market once, each with its own
        draws. */
    method UpdateMarkets(change: map<string, map<string, real>>, stockChange: map<string, map<string, int>>)
      requires Valid()
      requires markets.Keys <= change.Keys && markets.Keys <= stockChange.Keys
      requires forall k :: k in markets ==>
        markets[k].prices.Keys <= change[k].Keys && markets[k].stock.Keys <= stockChange[k].Keys
      modifies markets.Values
      ensures forall k :: k in markets ==> Fluctuated(markets[k], change[k], stockChange[k])
    {
      var keys := markets.Keys;
      while keys != {}
        invariant keys <= markets.Keys
        invariant forall k :: k in keys ==> unchanged(markets[k])
        invariant forall k :: k in markets && k !in keys ==> Fluctuated(markets[k], change[k], stockChange[k])
        decreases keys
      {
        var k :| k in keys;
        var m := markets[k];
        m.FluctuatePrices(change[k], stockChange[k]);
        keys := keys - {k};
      }
    }
  }

  /** A market after fluctuate_prices with the given draws. */
  twostate predicate Fluctuated(m: Market, change: map<string, real>, stockChange: map<string, int>)
    reads m
  {
    old(m.prices).Keys <= change.Keys && old(m.stock).Keys <= stockChange.Keys &&
    m.prices == FluctuatedPrices(m.catalog, old(m.prices), change) &&
    m.stock == FluctuatedStock(old(m.stock), stockChange)
  }

  // ---------------------------------------------------------------- ModuleMarket and ComponentMarket

  /** The outcome of a purchase or sale: whether it went through and the
      credits it names. */
  datatype Deal = Deal(ok: bool, amount: int)

  const ModuleMarkup: real := 1.3
  const Buyback: real := 0.6
  const ComponentMarkup: real := 1.8
  const ComponentCostMultiplier: real := 1.5

  /** `.get("level_requirement", 1)` */
  function LevelReq(d: ItemDef): int
  {
    d.levelRequirement.GetOr(1)
  }

  /** `.get("manufacturing_cost", 1000)` */
  function MfgCost(d: ItemDef): real
  {
    d.manufacturingCost.GetOr(1000) as real
  }

  /** get_module_cost: the list price int(manufacturing cost x 1.3), or None
      for an unknown module or a player below its level. */
  function ModuleCost(c: Catalog, moduleId: string, playerLevel: int): (r: Option<int>)
    ensures r.Some? <==> moduleId in c.modules && playerLevel >= LevelReq(c.modules[moduleId])
  {
    if moduleId !in c.modules then None
    else if playerLevel < LevelReq(c.modules[moduleId]) then None
    else Some(Trunc(MfgCost(c.modules[moduleId]) * ModuleMarkup))
  }

  /** get_module_value: the buyback int(manufacturing cost x 0.6), 0 for an unknown module. */
  function ModuleValue(c: Catalog, moduleId: string): (v: int)
    ensures moduleId !in c.modules ==> v == 0
  {
    if moduleId !in c.modules then 0 else Trunc(MfgCost(c.modules[moduleId]) * Buyback)
  }

  /** purchase_module: fails for an unknown module, then for the level, then
      for funds; the price is int(manufacturing cost x 1.3 x (1 - bonus)). */
  function PurchaseModule(c: Catalog, moduleId: string, playerCredits: int, playerLevel: int, tradeBonus: real): (d: Deal)
    ensures !d.ok ==> d.amount == 0
  {
    if moduleId !in c.modules then Deal(false, 0)
    else if playerLevel < LevelReq(c.modules[moduleId]) then Deal(false, 0)
    else
      var cost := Trunc(MfgCost(c.modules[moduleId]) * ModuleMarkup * (1.0 - tradeBonus));
      if playerCredits < cost then Deal(false, 0) else Deal(true, cost)
  }

  /** sell_module: int(buyback value x (1 + bonus)) for a known module. */
  function SellModule(c: Catalog, moduleId: string, tradeBonus: real): (d: Deal)
    ensures d.ok <==> moduleId in c.modules
  {
    if moduleId !in c.modules then Deal(false, 0)
    else Deal(true, Trunc(ModuleValue(c, moduleId) as real * (1.0 + tradeBonus)))
  }

  /** With no trade bonus a purchase costs the list price and goes through
      exactly when the module is listed for the player and affordable; the
      sale brings the buyback value, which never exceeds that price. */
  lemma ModuleDealsAgree(c: Catalog, moduleId: string, playerCredits: int, playerLevel: int)
    requires moduleId in c.modules ==> MfgCost(c.modules[moduleId]) >= 0.0
    ensures PurchaseModule(c, moduleId, playerCredits, playerLevel, 0.0).ok <==>
      ModuleCost(c, moduleId, playerLevel).Some? && playerCredits >= ModuleCost(c, moduleId, playerLevel).value
    ensures PurchaseModule(c, moduleId, playerCredits, playerLevel, 0.0).ok ==>
      PurchaseModule(c, moduleId, playerCredits, playerLevel, 0.0).amount == ModuleCost(c, moduleId, playerLevel).value
    ensures SellModule(c, moduleId, 0.0).amount == ModuleValue(c, moduleId)
    ensures ModuleCost(c, moduleId, playerLevel).Some? ==> ModuleValue(c, moduleId) <= ModuleCost(c, moduleId, playerLevel).value
  {
    if moduleId in c.modules {
      var m := MfgCost(c.modules[moduleId]);
      assert m * ModuleMarkup * (1.0 - 0.0) == m * ModuleMarkup;
      TruncMonotone(m * Buyback, m * ModuleMarkup);
      assert ModuleValue(c, moduleId) as real * (1.0 + 0.0) == ModuleValue(c, moduleId) as real;
    }
  }

  /** get_component_cost: int(manufacturing cost x 1.5 x 1.8), or None for an
      unknown component or a player below its level. */
  function ComponentCost(c: Catalog, compId: string, playerLevel: int): (r: Option<int>)
    ensures r.Some? <==> compId in c.shipComponents && playerLevel >= LevelReq(c.shipComponents[compId])
  {
    if compId !in c.shipComponents then None
    else if playerLevel < LevelReq(c.shipComponents[compId]) then None
    else Some(Trunc(MfgCost(c.shipComponents[compId]) * ComponentCostMultiplier * ComponentMarkup))
  }

  /** get_component_value: int(manufacturing cost x 0.6), 0 for an unknown component. */
  function ComponentValue(c: Catalog, compId: string): (v: int)
    ensures compId !in c.shipComponents ==> v == 0
  {
    if compId !in c.shipComponents then 0 else Trunc(MfgCost(c.shipComponents[compId]) * Buyback)
  }

  /** purchase_component: fails for an unknown component, then for the
      level, then for funds; the price is int(cost x 1.5 x 1.8 x (1 - bonus)). */
  function PurchaseComponent(c: Catalog, compId: string, playerCredits: int, playerLevel: int, tradeBonus: real): (d: Deal)
    ensures !d.ok ==> d.amount == 0
  {
    if compId !in c.shipComponents then Deal(false, 0)
    else if playerLevel < LevelReq(c.shipComponents[compId]) then Deal(false, 0)
    else
      var cost := Trunc(MfgCost(c.shipComponents[compId]) * ComponentCostMultiplier * ComponentMarkup * (1.0 - tradeBonus));
      if playerCredits < cost then Deal(false, 0) else Deal(true, cost)
  }

  /** sell_component: int(buyback value x (1 + bonus)) for a known component. */
  function SellComponent(c: Catalog, compId: string, tradeBonus: real): (d: Deal)
    ensures d.ok <==> compId in c.shipComponents
  {
    if compId !in c.shipComponents then Deal(false, 0)
    else Deal(true, Trunc(ComponentValue(c, compId) as real * (1.0 + tradeBonus)))
  }

  /** The component adapter agrees with itself the way the module one does:
      bonus-free purchases cost the list price, and buyback stays below it. */
  lemma ComponentDealsAgree(c: Catalog, compId: string, playerCredits: int, playerLevel: int)
    requires compId in c.shipComponents ==> MfgCost(c.shipComponents[compId]) >= 0.0
    ensures PurchaseComponent(c, compId, playerCredits, playerLevel, 0.0).ok <==>
      ComponentCost(c, compId, playerLevel).Some? && playerCredits >= ComponentCost(c, compId, playerLevel).value
    ensures PurchaseComponent(c, compId, playerCredits, playerLevel, 0.0).ok ==>
      PurchaseComponent(c, compId, playerCredits, playerLevel, 0.0).amount == ComponentCost(c, compId, playerLevel).value
    ensures SellComponent(c, compId, 0.0).amount == ComponentValue(c, compId)
    ensures ComponentCost(c, compId, playerLevel).Some? ==> ComponentValue(c, compId) <= ComponentCost(c, compId, playerLevel).value
  {
    if compId in c.shipComponents {
      var m := MfgCost(c.shipComponents[compId]);
      assert m * ComponentCostMultiplier * ComponentMarkup * (1.0 - 0.0) == m * ComponentCostMultiplier * ComponentMarkup;
      TruncMonotone(m * Buyback, m * ComponentCostMultiplier * ComponentMarkup);
      assert ComponentValue(c, compId) as real * (1.0 + 0.0) == ComponentValue(c, compId) as real;
    }
  }

  // ---------------------------------------------------------------- ShipMarket

  const ShipMarkup: real := 2.5
  const ShipComponentMultiplier: real := 1.5
  const ShipBuyback: real := 0.7

  /** The running total of calculate_ship_cost over the recipe lines `lines`:
      each line naming a ship component adds its manufacturing cost (1000
      when absent) x quantity x 1.5; other lines add nothing. */
  function ComponentTotal(c: Catalog, lines: seq<(string, int)>): real
  {
    if lines == [] then 0.0
    else
      var (id, qty) := lines[|lines| - 1];
      ComponentTotal(c, lines[..|lines| - 1]) +
        (if id in c.shipComponents then MfgCost(c.shipComponents[id]) * qty as real * ShipComponentMultiplier else 0.0)
  }

  /** The price calculate_ship_cost gives: 0 for an unknown ship, the base
      cost x 2.5 without a recipe, otherwise the component total x 2.5. */
  function ShipCost(c: Catalog, shipId: string): int
  {
    if shipId !in c.vessels then 0
    else if shipId !in c.shipRecipes then Trunc(c.vessels[shipId].cost as real * ShipMarkup)
    else Trunc(ComponentTotal(c, c.shipRecipes[shipId].components.GetOr([])) * ShipMarkup)
  }

  /** calculate_ship_value: the cost with the markup taken off, x 0.7. */
  function ShipValue(c: Catalog, shipId: string): (v: int)
    ensures ShipCost(c, shipId) >= 0 ==> 0 <= v <= ShipCost(c, shipId)
    ensures shipId !in c.vessels ==> v == 0
  {
    var cost := ShipCost(c, shipId) as real;
    var v := Trunc(cost / ShipMarkup * ShipBuyback);
    assert cost >= 0.0 ==> v <= ShipCost(c, shipId) by {
      if cost >= 0.0 {
        TruncMonotone(cost / ShipMarkup * ShipBuyback, cost);
      }
    }
    v
  }

  /** Whether every price input of the catalogue is non-negative. */
  ghost predicate NonNegativeCosts(c: Catalog)
  {
    (forall id :: id in c.vessels ==> c.vessels[id].cost >= 0) &&
    (forall id :: id in c.shipComponents ==> MfgCost(c.shipComponents[id]) >= 0.0) &&
    (forall id, i ::
       id in c.shipRecipes && c.shipRecipes[id].components.Some? && 0 <= i < |c.shipRecipes[id].components.value|
       ==> c.shipRecipes[id].components.value[i].1 >= 0)
  }

  lemma {:induction false} ComponentTotalNonNegative(c: Catalog, lines: seq<(string, int)>)
    requires forall id :: id in c.shipComponents ==> MfgCost(c.shipComponents[id]) >= 0.0
    requires forall i :: 0 <= i < |lines| ==> lines[i].1 >= 0
    ensures ComponentTotal(c, lines) >= 0.0
  {
    if lines != [] {
      ComponentTotalNonNegative(c, lines[..|lines| - 1]);
      var (id, qty) := lines[|lines| - 1];
      if id in c.shipComponents {
        MulLe(MfgCost(c.shipComponents[id]), 0.0, qty as real);
      }
    }
  }

  /** With non-negative inputs a ship's price is non-negative, and so its
      buyback value lies between 0 and that price. */
  lemma ShipCostNonNegative(c: Catalog, shipId: string)
    requires NonNegativeCosts(c)
    ensures ShipCost(c, shipId) >= 0
    ensures 0 <= ShipValue(c, shipId) <= ShipCost(c, shipId)
  {
    if shipId in c.vessels && shipId in c.shipRecipes {
      ComponentTotalNonNegative(c, c.shipRecipes[shipId].components.GetOr([]));
    }
  }

  /** sell_ship: int(value x (1 + bonus)) for a known ship. */
  function SellShip(c: Catalog, shipId: string, tradeBonus: real): (d: Deal)
    ensures d.ok <==> shipId in c.vessels
    ensures tradeBonus == 0.0 ==> d.amount == ShipValue(c, shipId)
  {
    if shipId !in c.vessels then Deal(false, 0)
    else Deal(true, Trunc(ShipValue(c, shipId) as real * (1.0 + tradeBonus)))
  }

  /** tier_weights.get(tier, 1): lower tiers are likelier to be stocked. */
  function TierWeight(tier: int): (w: int)
    ensures w >= 1
  {
    if tier == 1 then 35 else if tier == 2 then 30 else if tier == 3 then 20
    else if tier == 4 then 12 else if tier == 5 then 6 else if tier == 6 then 3 else 1
  }

  /** The randint bounds of the quantity stocked for a ship of a tier. */
  function StockRange(tier: int): (r: (int, int))
    ensures 1 <= r.0 <= r.1 <= 6
  {
    if tier == 1 then (3, 6) else if tier == 2 then (2, 4) else if tier <= 4 then (1, 3) else (1, 2)
  }

  /** ships_by_tier over the ships `ids` in catalogue order: the tiers in
      order of first appearance, and each tier's ships in order. */
  function GroupByTier(c: Catalog, ids: seq<string>): (g: (seq<int>, map<int, seq<string>>))
    requires forall i :: 0 <= i < |ids| ==> ids[i] in c.vessels
    ensures forall i :: 0 <= i < |g.0| ==> g.0[i] in g.1
    ensures forall t :: t in g.1 ==> t in g.0
    ensures forall t, j :: t in g.1 && 0 <= j < |g.1[t]| ==> g.1[t][j] in c.vessels
  {
    if ids == [] then ([], map[])
    else
      var (tiers, groups) := GroupByTier(c, ids[..|ids| - 1]);
      var id := ids[|ids| - 1];
      var t := c.vessels[id].tierNum;
      if t in groups then (tiers, groups[t := groups[t] + [id]])
      else (tiers + [t], groups[t := [id]])
  }

  /** `n` copies of `x`. */
  function Repeat(x: string, n: nat): (r: seq<string>)
    ensures |r| == n && forall i :: 0 <= i < n ==> r[i] == x
  {
    if n == 0 then [] else Repeat(x, n - 1) + [x]
  }

  /** Each ship of a tier group `weight` times over. */
  function GroupPool(ids: seq<string>, weight: nat): (r: seq<string>)
    ensures forall x :: x in r ==> x in ids
  {
    if ids == [] then []
    else GroupPool(ids[..|ids| - 1], weight) + Repeat(ids[|ids| - 1], weight)
  }

  /** available_ships: the weighted pool, tier group by tier group. */
  function TierPool(tiers: seq<int>, groups: map<int, seq<string>>): (r: seq<string>)
    requires forall i :: 0 <= i < |tiers| ==> tiers[i] in groups
    ensures forall x :: x in r ==> exists t :: t in groups && x in groups[t]
  {
    if tiers == [] then []
    else
      var t := tiers[|tiers| - 1];
      TierPool(tiers[..|tiers| - 1], groups) + GroupPool(groups[t], TierWeight(t))
  }

  function WeightedPool(c: Catalog): (pool: seq<string>)
    requires c.VesselOrderValid()
    ensures forall x :: x in pool ==> x in c.vessels
  {
    var (tiers, groups) := GroupByTier(c, c.vesselOrder);
    var pool := TierPool(tiers, groups);
    assert forall x :: x in pool ==> x in c.vessels by {
      forall x | x in pool
        ensures x in c.vessels
      {
        var t :| t in groups && x in groups[t];
        var j :| 0 <= j < |groups[t]| && groups[t][j] == x;
      }
    }
    pool
  }

  /** The grouping loop of generate_station_inventory. */
  method GroupShips(c: Catalog, order: seq<string>) returns (tiers: seq<int>, groups: map<int, seq<string>>)
    requires forall i :: 0 <= i < |order| ==> order[i] in c.vessels
    ensures (tiers, groups) == GroupByTier(c, order)
  {
    tiers, groups := [], map[];
    var i := 0;
    while i < |order|
      invariant 0 <= i <= |order|
      invariant (tiers, groups) == GroupByTier(c, order[..i])
    {
      var id := order[i];
      assert order[..i + 1][..i] == order[..i];
      var t := c.vessels[id].tierNum;
      if t in groups {
        groups := groups[t := groups[t] + [id]];
      } else {
        tiers := tiers + [t];
        groups := groups[t := [id]];
      }
      i := i + 1;
    }
    assert order[..i] == order;
  }

  /** The inner loops of generate_station_inventory for one tier group:
      each ship of the group appended `weight` times. */
  method AppendGroup(pool: seq<string>, group: seq<string>, weight: nat) returns (r: seq<string>)
    ensures r == pool + GroupPool(group, weight)
  {
    r := pool;
    var gi := 0;
    while gi < |group|
      invariant 0 <= gi <= |group|
      invariant r == pool + GroupPool(group[..gi], weight)
    {
      var id := group[gi];
      assert group[..gi + 1][..gi] == group[..gi];
      ghost var mid := r;
      var k := 0;
      while k < weight
        invariant 0 <= k <= weight
        invariant r == mid + Repeat(id, k)
      {
        r := r + [id];
        k := k + 1;
      }
      gi := gi + 1;
    }
    assert group[..gi] == group;
  }

  /** The drawing loop of generate_station_inventory: each sampled position
      puts its ship in with its drawn quantity. */
  method StockFromPicks(pool: seq<string>, picks: seq<int>, quantities: seq<int>) returns (inventory: map<string, int>)
    requires |quantities| == |picks|
    requires forall i :: 0 <= i < |picks| ==> 0 <= picks[i] < |pool|
    ensures inventory == Stocked(pool, picks, quantities)
  {
    inventory := map[];
    var i := 0;
    while i < |picks|
      invariant 0 <= i <= |picks|
      invariant inventory == Stocked(pool, picks[..i], quantities[..i])
    {
      ghost var ps, qs := picks[..i + 1], quantities[..i + 1];
      assert ps[..i] == picks[..i] && qs[..i] == quantities[..i];
      assert ps[i] == picks[i] && qs[i] == quantities[i];
      assert Stocked(pool, ps, qs) == inventory[pool[picks[i]] := quantities[i]];
      inventory := inventory[pool[picks[i]] := quantities[i]];
      i := i + 1;
    }
    assert picks[..i] == picks && quantities[..i] == quantities;
  }

  /** The station stock after the draws: each selected pool position puts
      its ship in with its drawn quantity, a later pick of the same ship
      overwriting an earlier one. */
  function Stocked(pool: seq<string>, picks: seq<int>, quantities: seq<int>): (inv: map<string, int>)
    requires |quantities| == |picks|
    requires forall i :: 0 <= i < |picks| ==> 0 <= picks[i] < |pool|
  {
    if picks == [] then map[]
    else
      var n := |picks| - 1;
      Stocked(pool, picks[..n], quantities[..n])[pool[picks[n]] := quantities[n]]
  }

  /** Each stocked ship came from a pick, with that pick's quantity, and there
      are no more kinds than picks. */
  lemma {:induction false} StockedFromPicks(pool: seq<string>, picks: seq<int>, quantities: seq<int>)
    requires |quantities| == |picks|
    requires forall i :: 0 <= i < |picks| ==> 0 <= picks[i] < |pool|
    ensures forall id :: id in Stocked(pool, picks, quantities) ==>
      exists i :: 0 <= i < |picks| && pool[picks[i]] == id && Stocked(pool, picks, quantities)[id] == quantities[i]
    ensures |Stocked(pool, picks, quantities)| <= |picks|
  {
    if picks != [] {
      var n := |picks| - 1;
      StockedFromPicks(pool, picks[..n], quantities[..n]);
      var prev := Stocked(pool, picks[..n], quantities[..n]);
      var inv := Stocked(pool, picks, quantities);
      assert inv == prev[pool[picks[n]] := quantities[n]];
      forall id | id in inv
        ensures exists i :: 0 <= i < |picks| && pool[picks[i]] == id && inv[id] == quantities[i]
      {
        if id != pool[picks[n]] {
          var i :| 0 <= i < n && pool[picks[..n][i]] == id && prev[id] == quantities[..n][i];
          assert pool[picks[i]] == id && inv[id] == quantities[i];
        }
      }
    }
  }

  /** random.sample(available_ships, min(num_types, len)) as drawn indices:
      distinct positions of the pool, as many as the sample size. */
  predicate SampleDraw(poolSize: int, numTypes: int, picks: seq<int>)
  {
    |picks| == Min(numTypes, poolSize) &&
    (forall i :: 0 <= i < |picks| ==> 0 <= picks[i] < poolSize) &&
    (forall i, j :: 0 <= i < j < |picks| ==> picks[i] != picks[j])
  }

  /** The draws generate_station_inventory makes for one station: 8 to 15
      ship kinds sampled from the pool, each with a quantity in its tier's range. */
  predicate StationDraw(c: Catalog, numTypes: int, picks: seq<int>, quantities: seq<int>)
    requires c.VesselOrderValid()
  {
    8 <= numTypes <= 15 && SampleDraw(|WeightedPool(c)|, numTypes, picks) && |quantities| == |picks| &&
    forall i :: 0 <= i < |picks| ==>
      StockRange(c.vessels[WeightedPool(c)[picks[i]]].tierNum).0 <= quantities[i] <=
      StockRange(c.vessels[WeightedPool(c)[picks[i]]].tierNum).1
  }

  /** Every draw names a position of the pool, and an empty pool draws nothing. */
  lemma DrawsInPool(c: Catalog, numTypes: int, picks: seq<int>, quantities: seq<int>)
    requires c.VesselOrderValid() && StationDraw(c, numTypes, picks, quantities)
    ensures |quantities| == |picks|
    ensures forall i :: 0 <= i < |picks| ==> 0 <= picks[i] < |WeightedPool(c)|
  {
  }

  /** The stock generate_station_inventory gives a station from its draws. */
  function StationStock(c: Catalog, numTypes: int, picks: seq<int>, quantities: seq<int>): map<string, int>
    requires c.VesselOrderValid() && StationDraw(c, numTypes, picks, quantities)
  {
    Stocked(WeightedPool(c), picks, quantities)
  }

  /** Whether `loc` is a location offering the "shipyard" service. */
  predicate IsShipyard(locations: map<string, Location>, loc: string)
  {
    loc in locations && "shipyard" in locations[loc].services
  }

  /** `station_inventories.get(location_id, {})`. */
  function InventoryOf(invs: map<string, map<string, int>>, locationId: string): map<string, int>
  {
    if locationId in invs then invs[locationId] else map[]
  }

  /** `int(base_cost * (1.0 - trade_bonus))`: a price with the trade
      discount taken off; a discount between 0 and 1 never raises a
      non-negative price nor takes it below 0. */
  function Discounted(base: int, tradeBonus: real): (price: int)
    ensures base >= 0 && 0.0 <= tradeBonus <= 1.0 ==> 0 <= price <= base
  {
    var cost := base as real;
    var price := Trunc(cost * (1.0 - tradeBonus));
    assert base >= 0 && 0.0 <= tradeBonus <= 1.0 ==> 0 <= price <= base by {
      if base >= 0 && 0.0 <= tradeBonus <= 1.0 {
        MulLe(cost, 1.0 - tradeBonus, 1.0);
        MulLe(cost, 0.0, 1.0 - tradeBonus);
        TruncMonotone(cost * (1.0 - tradeBonus), cost);
        TruncMonotone(0.0, cost * (1.0 - tradeBonus));
      }
    }
    price
  }

  /** The stock after one ship of `shipId` is sold: one fewer, and the
      entry dropped when none is left. */
  function TakeOne(inv: map<string, int>, shipId: string): map<string, int>
    requires shipId in inv
  {
    if inv[shipId] - 1 <= 0 then inv - {shipId} else inv[shipId := inv[shipId] - 1]
  }

  /** Selling one ship changes only that ship's entry: its count drops by
      one, or the entry goes when the last one is sold; nothing is added. */
  lemma TakeOneFacts(inv: map<string, int>, shipId: string)
    requires shipId in inv && inv[shipId] > 0
    ensures TakeOne(inv, shipId).Keys <= inv.Keys
    ensures forall id :: id in inv && id != shipId ==> id in TakeOne(inv, shipId) && TakeOne(inv, shipId)[id] == inv[id]
    ensures inv[shipId] > 1 ==> shipId in TakeOne(inv, shipId) && TakeOne(inv, shipId)[shipId] == inv[shipId] - 1
    ensures inv[shipId] == 1 ==> shipId !in TakeOne(inv, shipId)
    ensures |TakeOne(inv, shipId)| <= |inv|
  {
  }

  /** One row of ShipMarket.get_available_ships (the fields the gates and
      the sort read; the display name and stats are left out). */
  datatype ShipListing = ShipListing(
    id: string, cost: int, levelReq: int, skillId: string, skillReq: int, stock: int,
    canAfford: bool, canPilotLevel: bool, canPilotSkill: bool, inStock: bool, canPurchase: bool,
    tierNum: int)

  /** `key=lambda x: (x["tier_num"], x["cost"])`. */
  function ListingKey(r: ShipListing): (int, int)
  {
    (r.tierNum, r.cost)
  }

  /** The row for one stocked ship of the catalogue: its price, its gates
      (funds, level, the piloting level of its tier when the player has any
      skills, stock) and whether all of them pass. */
  function ListingOf(c: Catalog, id: string, stock: int, credits: int, level: int,
                     skills: Option<map<string, int>>): ShipListing
    requires id in c.vessels
  {
    var ship := c.vessels[id];
    var cost := ShipCost(c, id);
    var required := Shipyard.PurchaseSkillLevel(ship);
    var canAfford := credits >= cost;
    var canPilotLevel := level >= ship.levelRequirement;
    var canPilotSkill := !Shipyard.HasSkills(skills) || Shipyard.SkillLevel(skills, Shipyard.SkillId(ship)) >= required;
    ShipListing(id, cost, ship.levelRequirement, Shipyard.SkillId(ship), required, stock,
                canAfford, canPilotLevel, canPilotSkill, stock > 0,
                canAfford && canPilotLevel && canPilotSkill && stock > 0, ship.tierNum)
  }

  /** The rows for the station's entries `order` (its dictionary's keys in
      insertion order), before sorting: one per entry naming a ship of the
      catalogue. */
  function Listings(c: Catalog, inv: map<string, int>, order: seq<string>, credits: int, level: int,
                    skills: Option<map<string, int>>): seq<ShipListing>
  {
    if order == [] then []
    else
      var id := order[|order| - 1];
      Listings(c, inv, order[..|order| - 1], credits, level, skills) +
        (if id in inv && id in c.vessels then [ListingOf(c, id, inv[id], credits, level, skills)] else [])
  }

  class ShipMarket {
    var stationInventories: map<string, map<string, int>>

    constructor ()
      ensures stationInventories == map[]
    {
      stationInventories := map[];
    }

    /** get_station_inventory: the stock at a station, empty when none was generated. */
    function GetStationInventory(locationId: string): map<string, int>
      reads this
    {
      InventoryOf(stationInventories, locationId)
    }

    /** calculate_ship_cost: the loop summing the recipe's component lines. */
    method CalculateShipCost(c: Catalog, shipId: string) returns (cost: int)
      ensures cost == ShipCost(c, shipId)
    {
      if shipId !in c.vessels {
        return 0;
      }
      if shipId !in c.shipRecipes {
        return Trunc(c.vessels[shipId].cost as real * ShipMarkup);
      }
      var lines := c.shipRecipes[shipId].components.GetOr([]);
      var total := 0.0;
      var i := 0;
      while i < |lines|
        invariant 0 <= i <= |lines|
        invariant total == ComponentTotal(c, lines[..i])
      {
        var (id, qty) := lines[i];
        assert lines[..i + 1][..i] == lines[..i];
        if id in c.shipComponents {
          total := total + MfgCost(c.shipComponents[id]) * qty as real * ShipComponentMultiplier;
        }
        i := i + 1;
      }
      assert lines[..i] == lines;
      return Trunc(total * ShipMarkup);
    }

    /** The pool loops of generate_station_inventory: ships grouped by tier,
        each repeated by its tier's weight. */
    method BuildWeightedPool(c: Catalog) returns (pool: seq<string>)
      requires c.VesselOrderValid()
      ensures pool == WeightedPool(c)
    {
      var tiers, groups := GroupShips(c, c.vesselOrder);
      pool := [];
      var ti := 0;
      while ti < |tiers|
        invariant 0 <= ti <= |tiers|
        invariant pool == TierPool(tiers[..ti], groups)
      {
        var t := tiers[ti];
        pool := AppendGroup(pool, groups[t], TierWeight(t));
        assert tiers[..ti + 1][..ti] == tiers[..ti];
        ti := ti + 1;
      }
      assert tiers[..ti] == tiers;
    }

    /** generate_station_inventory: a location without the "shipyard"
        service is left alone; otherwise its stock is replaced by the
        sampled ships with their drawn quantities (empty for an empty pool). */
    method GenerateStationInventory(c: Catalog, locationId: string, location: Location,
                                    numTypes: int, picks: seq<int>, quantities: seq<int>)
      requires c.VesselOrderValid() && StationDraw(c, numTypes, picks, quantities)
      modifies this
      ensures stationInventories ==
        if "shipyard" in location.services
        then old(stationInventories)[locationId := StationStock(c, numTypes, picks, quantities)]
        else old(stationInventories)
    {
      if "shipyard" !in location.services {
        return;
      }
      DrawsInPool(c, numTypes, picks, quantities);
      var inventory := DrawStock(c, picks, quantities);
      stationInventories := stationInventories[locationId := inventory];
    }

    /** The pool built and the drawn positions stocked, for a shipyard station. */
    method DrawStock(c: Catalog, picks: seq<int>, quantities: seq<int>) returns (inventory: map<string, int>)
      requires c.VesselOrderValid() && |quantities| == |picks|
      requires forall i :: 0 <= i < |picks| ==> 0 <= picks[i] < |WeightedPool(c)|
      ensures inventory == Stocked(WeightedPool(c), picks, quantities)
    {
      var pool := BuildWeightedPool(c);
      inventory := map[];
      if |pool| > 0 {
        inventory := StockFromPicks(pool, picks, quantities);
      }
    }

    /** initialize_all_stations: stocks every location offering the
        "shipyard" service from its own draws; the other stations keep
        whatever they had. */
    method InitializeAllStations(c: Catalog, locations: map<string, Location>,
                                 numTypes: map<string, int>, picks: map<string, seq<int>>,
                                 quantities: map<string, seq<int>>)
      requires c.VesselOrderValid()
      requires locations.Keys <= numTypes.Keys && locations.Keys <= picks.Keys && locations.Keys <= quantities.Keys
      requires forall loc {:trigger StationDraw(c, numTypes[loc], picks[loc], quantities[loc])} ::
        loc in locations ==> StationDraw(c, numTypes[loc], picks[loc], quantities[loc])
      modifies this
      ensures forall loc :: loc in stationInventories <==> loc in old(stationInventories) || IsShipyard(locations, loc)
      ensures forall loc :: IsShipyard(locations, loc) ==>
        stationInventories[loc] == StationStock(c, numTypes[loc], picks[loc], quantities[loc])
      ensures forall loc :: loc in old(stationInventories) && !IsShipyard(locations, loc) ==>
        stationInventories[loc] == old(stationInventories)[loc]
    {
      var keys := locations.Keys;
      ghost var done: set<string> := {};
      while keys != {}
        invariant keys <= locations.Keys && done == locations.Keys - keys
        invariant forall loc :: loc in stationInventories <==>
          loc in old(stationInventories) || (loc in done && IsShipyard(locations, loc))
        invariant forall loc :: loc in done && IsShipyard(locations, loc) ==>
          stationInventories[loc] == StationStock(c, numTypes[loc], picks[loc], quantities[loc])
        invariant forall loc :: loc in old(stationInventories) && !(loc in done && IsShipyard(locations, loc)) ==>
          stationInventories[loc] == old(stationInventories)[loc]
        decreases keys
      {
        var loc :| loc in keys;
        GenerateStationInventory(c, loc, locations[loc], numTypes[loc], picks[loc], quantities[loc]);
        keys := keys - {loc};
        done := done + {loc};
      }
    }

    /** get_available_ships (the signature of economy.py:635): every ship of
        the station's stock that the catalogue knows, with its price and its
        gates, sorted by tier and then cost; nothing for an empty station.
        `order` is the station's dictionary order. */
    method GetAvailableShips(c: Catalog, locationId: string, playerCredits: int, playerLevel: int,
                             skills: Option<map<string, int>>, order: seq<string>)
      returns (rows: seq<ShipListing>)
      ensures rows == SortBy(Listings(c, InventoryOf(stationInventories, locationId), order,
                                      playerCredits, playerLevel, skills), ListingKey)
    {
      var inventory := GetStationInventory(locationId);
      if inventory == map[] {
        NoStockNoListings(c, inventory, order, playerCredits, playerLevel, skills);
        return [];
      }
      var available: seq<ShipListing> := [];
      for i := 0 to |order|
        invariant available == Listings(c, inventory, order[..i], playerCredits, playerLevel, skills)
      {
        var id := order[i];
        assert order[..i + 1][..i] == order[..i];
        if id !in inventory || id !in c.vessels {
          continue;
        }
        var stock := inventory[id];
        var ship := c.vessels[id];
        var cost := CalculateShipCost(c, id);
        var skillId := ship.classType + "_piloting";
        var required := if ship.tierNum == 1 then 1 else if ship.tierNum == 2 then 4 else 7;
        var canAfford := playerCredits >= cost;
        var canPilotLevel := playerLevel >= ship.levelRequirement;
        var canPilotSkill := true;
        if skills.Some? && skills.value != map[] {
          canPilotSkill := Count(skills.value, skillId) >= required;
        }
        var inStock := stock > 0;
        available := available + [ShipListing(id, cost, ship.levelRequirement, skillId, required, stock,
                                              canAfford, canPilotLevel, canPilotSkill, inStock,
                                              canAfford && canPilotLevel && canPilotSkill && inStock, ship.tierNum)];
      }
      assert order[..|order|] == order;
      rows := SortBy(available, ListingKey);
    }

    /** purchase_ship: fails with nothing changed for an unknown ship, a ship
        not in stock here, a player below its level, or short funds; the
        price is int(calculate_ship_cost x (1 - bonus)). A purchase takes one
        ship off the station's count and drops the entry when none is left. */
    method PurchaseShip(c: Catalog, shipId: string, locationId: string,
                        playerCredits: int, playerLevel: int, tradeBonus: real)
      returns (ok: bool, cost: int)
      modifies this
      ensures ok <==> shipId in c.vessels && shipId in InventoryOf(old(stationInventories), locationId) &&
                      InventoryOf(old(stationInventories), locationId)[shipId] > 0 &&
                      playerLevel >= c.vessels[shipId].levelRequirement &&
                      playerCredits >= Discounted(ShipCost(c, shipId), tradeBonus)
      ensures ok ==> cost == Discounted(ShipCost(c, shipId), tradeBonus)
      ensures !ok ==> cost == 0 && stationInventories == old(stationInventories)
      ensures ok ==> (stationInventories ==
        old(stationInventories)[locationId := TakeOne(InventoryOf(old(stationInventories), locationId), shipId)])
    {
      if shipId !in c.vessels {
        return false, 0;
      }
      var inventory := GetStationInventory(locationId);
      if shipId !in inventory || inventory[shipId] <= 0 {
        return false, 0;
      }
      if playerLevel < c.vessels[shipId].levelRequirement {
        return false, 0;
      }
      var baseCost := CalculateShipCost(c, shipId);
      cost := Discounted(baseCost, tradeBonus);
      if playerCredits < cost {
        return false, 0;
      }
      var count := inventory[shipId] - 1;
      if count <= 0 {
        inventory := inventory - {shipId};
      } else {
        inventory := inventory[shipId := count];
      }
      stationInventories := stationInventories[locationId := inventory];
      ok := true;
    }
  }

  /** Every ship a station stocks is in the catalogue, with a quantity in its
      tier's range, and at most 15 kinds are stocked. */
  lemma StockedFacts(c: Catalog, numTypes: int, picks: seq<int>, quantities: seq<int>)
    requires c.VesselOrderValid() && StationDraw(c, numTypes, picks, quantities)
    ensures |StationStock(c, numTypes, picks, quantities)| <= 15
    ensures forall id :: id in StationStock(c, numTypes, picks, quantities) ==>
      id in c.vessels &&
      StockRange(c.vessels[id].tierNum).0 <= StationStock(c, numTypes, picks, quantities)[id] <= StockRange(c.vessels[id].tierNum).1
  {
    var pool := WeightedPool(c);
    var inv := Stocked(pool, picks, quantities);
    StockedFromPicks(pool, picks, quantities);
    forall id | id in inv
      ensures id in c.vessels && StockRange(c.vessels[id].tierNum).0 <= inv[id] <= StockRange(c.vessels[id].tierNum).1
    {
      var i :| 0 <= i < |picks| && pool[picks[i]] == id && inv[id] == quantities[i];
      assert pool[picks[i]] in pool;
    }
  }

  lemma {:induction false} NoStockNoListings(c: Catalog, inv: map<string, int>, order: seq<string>,
                                             credits: int, level: int, skills: Option<map<string, int>>)
    requires inv == map[]
    ensures Listings(c, inv, order, credits, level, skills) == []
  {
    if order != [] {
      NoStockNoListings(c, inv, order[..|order| - 1], credits, level, skills);
    }
  }

  /** Every row is a stocked ship of the catalogue, as the listing describes it. */
  lemma {:induction false} ListingsContents(c: Catalog, inv: map<string, int>, order: seq<string>,
                                            credits: int, level: int, skills: Option<map<string, int>>, r: ShipListing)
    requires r in Listings(c, inv, order, credits, level, skills)
    ensures r.id in order && r.id in inv && r.id in c.vessels
    ensures r == ListingOf(c, r.id, inv[r.id], credits, level, skills)
  {
    var init := order[..|order| - 1];
    if r in Listings(c, inv, init, credits, level, skills) {
      ListingsContents(c, inv, init, credits, level, skills, r);
    }
  }

  /** Every stocked ship of the catalogue among `order` gets its row. */
  lemma {:induction false} ListingsComplete(c: Catalog, inv: map<string, int>, order: seq<string>,
                                            credits: int, level: int, skills: Option<map<string, int>>, id: string)
    requires id in order && id in inv && id in c.vessels
    ensures ListingOf(c, id, inv[id], credits, level, skills) in Listings(c, inv, order, credits, level, skills)
  {
    var init := order[..|order| - 1];
    if id != order[|order| - 1] {
      assert id in init by {
        var k :| 0 <= k < |order| && order[k] == id;
        assert k < |order| - 1 && init[k] == id;
      }
      ListingsComplete(c, inv, init, credits, level, skills, id);
    }
  }

  /** The station listing is sorted by (tier, cost); it holds a row for every
      ship of the station's stock that the catalogue knows, and nothing else. */
  lemma ShipListingFacts(c: Catalog, inv: map<string, int>, order: seq<string>, credits: int, level: int,
                         skills: Option<map<string, int>>, rows: seq<ShipListing>)
    requires forall id :: id in inv ==> id in order
    requires rows == SortBy(Listings(c, inv, order, credits, level, skills), ListingKey)
    ensures SortedBy(rows, ListingKey)
    ensures forall r :: r in rows ==>
      r.id in inv && r.id in c.vessels && r == ListingOf(c, r.id, inv[r.id], credits, level, skills)
    ensures forall id :: id in inv && id in c.vessels ==> ListingOf(c, id, inv[id], credits, level, skills) in rows
  {
    var unsorted := Listings(c, inv, order, credits, level, skills);
    SortBySorted(unsorted, ListingKey);
    assert multiset(rows) == multiset(unsorted);
    forall r | r in rows
      ensures r.id in inv && r.id in c.vessels && r == ListingOf(c, r.id, inv[r.id], credits, level, skills)
    {
      assert r in multiset(rows);
      ListingsContents(c, inv, order, credits, level, skills, r);
    }
    forall id | id in inv && id in c.vessels
      ensures ListingOf(c, id, inv[id], credits, level, skills) in rows
    {
      ListingsComplete(c, inv, order, credits, level, skills, id);
      assert ListingOf(c, id, inv[id], credits, level, skills) in multiset(unsorted);
    }
  }

  /** A row marked purchasable passes every gate of ShipMarket.purchase_ship
      with no trade bonus, and its listed cost is the price paid. */
  lemma PurchasableRowBuys(c: Catalog, inv: map<string, int>, id: string, credits: int, level: int,
                           skills: Option<map<string, int>>)
    requires id in c.vessels && id in inv && ListingOf(c, id, inv[id], credits, level, skills).canPurchase
    ensures inv[id] > 0 && level >= c.vessels[id].levelRequirement
    ensures credits >= Discounted(ShipCost(c, id), 0.0) == ListingOf(c, id, inv[id], credits, level, skills).cost
  {
  }

  /** The listing's skill gate is stricter than the purchase's, which has none:
      a player with skills too low for a ship still buys it. */
  lemma SkillGateListingOnly(c: Catalog, inv: map<string, int>, id: string, credits: int, level: int,
                             skills: Option<map<string, int>>)
    requires id in c.vessels && id in inv && inv[id] > 0
    requires level >= c.vessels[id].levelRequirement && credits >= ShipCost(c, id) >= 0
    requires Shipyard.HasSkills(skills)
    requires Shipyard.SkillLevel(skills, Shipyard.SkillId(c.vessels[id])) < Shipyard.PurchaseSkillLevel(c.vessels[id])
    ensures !ListingOf(c, id, inv[id], credits, level, skills).canPurchase
    ensures credits >= Discounted(ShipCost(c, id), 0.0)
  {
  }
}
