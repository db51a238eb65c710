/** The demonstration catalogue of `groceryService.ts`: five Austin stores, five items, item
    search, the stores near a zip code and the price comparison for one item. The randomly
    generated price list is a parameter (`prices`), as is the random draw in `[0, 1)` behind each
    store's distance (`draw`); the artificial delays are left out. */
module GroceryService {
  import opened Js
  import opened Types
  import Stats

  function AustinStore(id: string, name: string, chain: string, address: string, zipCode: string): Store
  {
    Store(id, name, chain, address, "Austin", "TX", zipCode, 30.2672, -97.7431, None)
  }

  const MockStores: seq<Store> := [
    AustinStore("1", "Walmart Supercenter", "Walmart", "123 Main St", "78701"),
    AustinStore("2", "HEB Central Market", "HEB", "456 Oak Ave", "78702"),
    AustinStore("3", "Whole Foods Market", "Whole Foods", "789 Lamar Blvd", "78703"),
    AustinStore("4", "Target", "Target", "321 Congress Ave", "78704"),
    AustinStore("5", "Trader Joe's", "Trader Joe's", "654 Guadalupe St", "78705")]

  const MockItems: seq<GroceryItem> := [
    GroceryItem("1", "Bananas", Some("Chiquita"), "Produce", Some("1 lb"), Some("lb")),
    GroceryItem("2", "Milk", Some("Organic Valley"), "Dairy", Some("1 gallon"), Some("gallon")),
    GroceryItem("3", "Bread", Some("Sara Lee"), "Bakery", Some("20 oz"), Some("loaf")),
    GroceryItem("4", "Chicken Breast", Some("Perdue"), "Meat", Some("1 lb"), Some("lb")),
    GroceryItem("5", "Eggs", Some("Eggland's Best"), "Dairy", Some("12 count"), Some("dozen"))]

  // ---------------------------------------------------------------- search

  /** The lower-cased name, brand or category of the item contains the (lower-cased) query. */
  predicate Matches(item: GroceryItem, lowercaseQuery: string)
  {
    Includes(ToLower(item.name), lowercaseQuery)
    || (item.brand.Some? && Includes(ToLower(item.brand.value), lowercaseQuery))
    || Includes(ToLower(item.category), lowercaseQuery)
  }

  /** The test `searchItems` filters the catalogue with. */
  function MatcherFor(query: string): GroceryItem -> bool
  {
    (item: GroceryItem) => Matches(item, ToLower(query))
  }

  /** `searchItems`: exactly the catalogue items matching the query, case-insensitively. */
  function SearchItems(query: string): (items: seq<GroceryItem>)
    ensures forall item :: item in items <==> item in MockItems && Matches(item, ToLower(query))
    ensures Keeps(MockItems, MatcherFor(query), items)
  {
    FilterKeeps(MockItems, MatcherFor(query));
    Filter(MockItems, MatcherFor(query))
  }

  /** No two catalogue entries share an id, so none is listed twice. */
  lemma MockItemsDistinct()
    ensures forall a, b :: 0 <= a < b < |MockItems| ==> MockItems[a].id != MockItems[b].id
    ensures forall a, b :: 0 <= a < b < |MockItems| ==> MockItems[a] != MockItems[b]
  {
  }

  /** The items found come in catalogue order. */
  lemma SearchKeepsCatalogOrder(query: string, i: nat, j: nat)
    requires i < j < |SearchItems(query)|
    ensures FirstIndex(MockItems, SearchItems(query)[i]) < FirstIndex(MockItems, SearchItems(query)[j])
  {
    MockItemsDistinct();
    FilterKeepsOrder(MockItems, MatcherFor(query), i, j);
  }

  /** Every string contains the empty string, so the empty query finds the whole catalogue. */
  lemma EmptyQueryFindsEverything()
    ensures SearchItems("") == MockItems
  {
    var f := MatcherFor("");
    forall i | 0 <= i < |MockItems|
      ensures f(MockItems[i])
    {
      assert OccursAt(ToLower(MockItems[i].name), "", 0);
    }
    FilterAll(MockItems, f);
  }

  // ---------------------------------------------------------------- stores

  /** A store's simulated distance, `Math.random() * radius`, for the draw `u`. */
  function RandomDistance(u: real, radius: real): real
  {
    u * radius
  }

  /** `getStoresNearZipcode`: for a zip code starting with `787`, every catalogue store in order,
      at the distance of its own draw; for any other zip code, none. */
  function GetStoresNearZipcode(zipCode: string, radius: real, draw: nat -> real): (stores: seq<Store>)
    ensures "787" <= zipCode ==>
              |stores| == |MockStores| && forall i :: 0 <= i < |stores| ==> stores[i].(distance := None) == MockStores[i]
    ensures !("787" <= zipCode) ==> stores == []
    ensures forall i: nat :: i < |stores| ==> stores[i].distance == Some(RandomDistance(draw(i), radius))
  {
    if "787" <= zipCode then
      seq(|MockStores|, (i: nat) requires i < |MockStores| => MockStores[i].(distance := Some(RandomDistance(draw(i), radius))))
    else []
  }

  /** With draws in `[0, 1)` and a non-negative radius, every store found lies within the radius. */
  lemma StoresWithinRadius(zipCode: string, radius: real, draw: nat -> real, i: nat)
    requires radius >= 0.0
    requires i < |GetStoresNearZipcode(zipCode, radius, draw)|
    requires 0.0 <= draw(i) < 1.0
    ensures 0.0 <= GetStoresNearZipcode(zipCode, radius, draw)[i].distance.value <= radius
  {
    assert 0.0 <= draw(i) * radius <= 1.0 * radius;
  }

  // ---------------------------------------------------------------- price comparison

  /** Some store of the list has this id (`stores.some(s => s.id === id)`). */
  predicate HasStore(stores: seq<Store>, storeId: string)
  {
    exists i :: 0 <= i < |stores| && stores[i].id == storeId
  }

  /** The test `getItemPrices` filters the price list with: a price of the item at one of the
      stores. */
  function PricedHere(itemId: string, stores: seq<Store>): PriceInfo -> bool
  {
    (p: PriceInfo) => p.itemId == itemId && HasStore(stores, p.storeId)
  }

  /** The prices of the item at one of the stores, each occurrence once, in price-list order. */
  function NearbyPrices(itemId: string, stores: seq<Store>, prices: seq<PriceInfo>): (r: seq<PriceInfo>)
    ensures forall p :: p in r <==> p in prices && p.itemId == itemId && HasStore(stores, p.storeId)
  {
    Filter(prices, PricedHere(itemId, stores))
  }

  /** The nearby prices keep every matching price once, in the order of the price list. */
  lemma NearbyPricesKept(itemId: string, stores: seq<Store>, prices: seq<PriceInfo>)
    ensures Keeps(prices, PricedHere(itemId, stores), NearbyPrices(itemId, stores, prices))
  {
    FilterKeeps(prices, PricedHere(itemId, stores));
  }

  /** `stores.find(s => s.id === storeId)!`: the first store with the id. */
  function StoreWithId(stores: seq<Store>, storeId: string): (s: Store)
    requires HasStore(stores, storeId)
    ensures s in stores && s.id == storeId
    ensures exists k :: 0 <= k < |stores| && stores[k] == s && forall j :: 0 <= j < k ==> stores[j].id != storeId
  {
    var found := Find(stores, (s: Store) => s.id == storeId);
    assert found.Some? by {
      var k :| 0 <= k < |stores| && stores[k].id == storeId;
      assert ((s: Store) => s.id == storeId)(stores[k]);
    }
    found.value
  }

  /** `itemPrices.map(price => ({ store, item, priceInfo: price }))`, each price with the first
      store of its id. */
  function PairWithStores(item: GroceryItem, stores: seq<Store>, itemPrices: seq<PriceInfo>): (r: seq<StoreItem>)
    requires forall i :: 0 <= i < |itemPrices| ==> HasStore(stores, itemPrices[i].storeId)
    ensures |r| == |itemPrices|
    ensures forall i :: 0 <= i < |r| ==>
              r[i].item == item && r[i].priceInfo == itemPrices[i]
              && r[i].store in stores && r[i].store.id == itemPrices[i].storeId
  {
    seq(|itemPrices|, i requires 0 <= i < |itemPrices| =>
      StoreItem(StoreWithId(stores, itemPrices[i].storeId), item, itemPrices[i]))
  }

  /** A price passes the filters: at most a truthy `maxPrice` (0 sets no limit), and in stock when
      `inStockOnly` is set. The `category` filter is not consulted. */
  predicate PassesFilters(filters: SearchFilters, p: PriceInfo)
  {
    (filters.maxPrice.Some? && filters.maxPrice.value != 0.0 ==> p.price <= filters.maxPrice.value)
    && (filters.inStockOnly == Some(true) ==> p.inStock)
  }

  /** A store item whose price passes the filters. */
  function StoreItemPasses(filters: SearchFilters): StoreItem -> bool
  {
    (si: StoreItem) => PassesFilters(filters, si.priceInfo)
  }

  /** `item.price <= filters.maxPrice!` */
  function AtMost(limit: real): StoreItem -> bool
  {
    (si: StoreItem) => si.priceInfo.price <= limit
  }

  /** `item.inStock` */
  function InStock(): StoreItem -> bool
  {
    (si: StoreItem) => si.priceInfo.inStock
  }

  /** The maximum-price filter, when `maxPrice` is truthy, then the stock filter, when
      `inStockOnly` is set: exactly the store items whose price passes both remain, each
      occurrence once, in their order. */
  function ApplyFilters(filters: SearchFilters, storeItems: seq<StoreItem>): (r: seq<StoreItem>)
    ensures forall si :: si in r <==> si in storeItems && PassesFilters(filters, si.priceInfo)
  {
    var maxPrice := filters.maxPrice;
    var limit := if maxPrice.Some? then maxPrice.value else 0.0;
    var filtered := if maxPrice.Some? && maxPrice.value != 0.0 then Filter(storeItems, AtMost(limit)) else storeItems;
    if filters.inStockOnly == Some(true) then Filter(filtered, InStock()) else filtered
  }

  /** The two filters in turn are one filter by the combined test: the surviving store items
      are every passing one, once each, in their order. */
  lemma ApplyFiltersKept(filters: SearchFilters, storeItems: seq<StoreItem>)
    ensures ApplyFilters(filters, storeItems) == Filter(storeItems, StoreItemPasses(filters))
    ensures Keeps(storeItems, StoreItemPasses(filters), ApplyFilters(filters, storeItems))
  {
    var maxPrice := filters.maxPrice;
    var limit := if maxPrice.Some? then maxPrice.value else 0.0;
    var byPrice := AtMost(limit);
    var inStock := InStock();
    var priceLimited := maxPrice.Some? && maxPrice.value != 0.0;
    var stockOnly := filters.inStockOnly == Some(true);
    var filtered := if priceLimited then Filter(storeItems, byPrice) else storeItems;
    var r := if stockOnly then Filter(filtered, inStock) else filtered;
    var passes := StoreItemPasses(filters);
    assert r == Filter(storeItems, passes) by {
      if priceLimited && stockOnly {
        FilterOfFilter(storeItems, byPrice, inStock, passes);
      } else if priceLimited {
        FilterSame(storeItems, byPrice, passes);
      } else if stockOnly {
        FilterSame(storeItems, inStock, passes);
      } else {
        FilterAll(storeItems, passes);
      }
    }
    FilterKeeps(storeItems, passes);
  }

  /** `finalStoreItems.reduce((best, current) => current.price < best.price ? current : best)`,
      as the position of the item it returns: the first of the cheapest. */
  function BestIndex(storeItems: seq<StoreItem>): (k: nat)
    requires |storeItems| > 0
    ensures k < |storeItems|
    ensures forall j :: 0 <= j < |storeItems| ==> storeItems[k].priceInfo.price <= storeItems[j].priceInfo.price
    ensures forall j :: 0 <= j < k ==> storeItems[j].priceInfo.price > storeItems[k].priceInfo.price
  {
    if |storeItems| == 1 then 0
    else
      var last := |storeItems| - 1;
      var best := BestIndex(storeItems[..last]);
      if storeItems[last].priceInfo.price < storeItems[best].priceInfo.price then last else best
  }

  function PricesOf(storeItems: seq<StoreItem>): (ps: seq<real>)
    ensures |ps| == |storeItems|
    ensures forall i :: 0 <= i < |ps| ==> ps[i] == storeItems[i].priceInfo.price
  {
    seq(|storeItems|, i requires 0 <= i < |storeItems| => storeItems[i].priceInfo.price)
  }

  /** What a price comparison promises about its numbers: the best price is the first of the
      cheapest store items, the range spans every price and is attained at both ends, the
      minimum is the best price, and the average is the mean price, which lies within the
      range. */
  predicate Summarizes(res: SearchResult)
  {
    |res.stores| > 0
    && (exists k :: 0 <= k < |res.stores| && res.bestPrice == res.stores[k].priceInfo
                    && forall j :: 0 <= j < k ==> res.stores[j].priceInfo.price > res.bestPrice.price)
    && (forall j :: 0 <= j < |res.stores| ==>
          res.priceRange.min <= res.stores[j].priceInfo.price <= res.priceRange.max)
    && (exists j :: 0 <= j < |res.stores| && res.stores[j].priceInfo.price == res.priceRange.max)
    && res.bestPrice.price == res.priceRange.min
    && res.averagePrice == Stats.Mean(PricesOf(res.stores))
    && res.priceRange.min <= res.averagePrice <= res.priceRange.max
  }

  /** The comparison built from a non-empty list of store items. */
  function Summarize(item: GroceryItem, storeItems: seq<StoreItem>): (res: SearchResult)
    requires |storeItems| > 0
    ensures res.item == item && res.stores == storeItems
    ensures Summarizes(res)
  {
    var prices := PricesOf(storeItems);
    var best := BestIndex(storeItems);
    var res := SearchResult(item, storeItems, storeItems[best].priceInfo, Stats.Mean(prices),
                            PriceRange(Stats.Min(prices), Stats.Max(prices)));
    assert Stats.Min(prices) == prices[best] by {
      var m :| 0 <= m < |prices| && Stats.Min(prices) == prices[m];
    }
    Stats.MeanBetweenMinAndMax(prices);
    assert res.stores[best].priceInfo == res.bestPrice;
    res
  }

  /** The price of the item at one of the stores. */
  predicate PricedAt(item: GroceryItem, stores: seq<Store>, p: PriceInfo)
  {
    p.itemId == item.id && HasStore(stores, p.storeId)
  }

  /** The store items of the item at the stores that pass the filters, in price-list order. */
  function Selected(item: GroceryItem, filters: SearchFilters, stores: seq<Store>, prices: seq<PriceInfo>): seq<StoreItem>
  {
    ApplyFilters(filters, PairWithStores(item, stores, NearbyPrices(item.id, stores, prices)))
  }

  /** Only store items of the item priced at one of the stores and passing the filters are
      selected, each with its own store, and every such price is. */
  lemma SelectedContents(item: GroceryItem, filters: SearchFilters, stores: seq<Store>, prices: seq<PriceInfo>)
    ensures forall si :: si in Selected(item, filters, stores, prices) ==>
              si.item == item && si.priceInfo in prices && PricedAt(item, stores, si.priceInfo)
              && si.store in stores && si.store.id == si.priceInfo.storeId
              && PassesFilters(filters, si.priceInfo)
    ensures forall p :: p in prices && PricedAt(item, stores, p) && PassesFilters(filters, p) ==>
              exists si :: si in Selected(item, filters, stores, prices) && si.priceInfo == p
  {
    var itemPrices := NearbyPrices(item.id, stores, prices);
    var paired := PairWithStores(item, stores, itemPrices);
    var listed := ApplyFilters(filters, paired);
    forall si | si in listed
      ensures si.item == item && si.priceInfo in prices && PricedAt(item, stores, si.priceInfo)
              && si.store in stores && si.store.id == si.priceInfo.storeId
    {
      var i :| 0 <= i < |paired| && paired[i] == si;
    }
    forall p | p in prices && PricedAt(item, stores, p) && PassesFilters(filters, p)
      ensures exists si :: si in listed && si.priceInfo == p
    {
      var i :| 0 <= i < |itemPrices| && itemPrices[i] == p;
      assert paired[i] in paired && paired[i] in listed;
    }
  }

  const EmptyReduceError: string := "Reduce of empty array with no initial value"

  /** The comparison for a known item among the given stores: null when none of them prices the
      item, the error the empty `reduce` throws when the filters leave nothing, otherwise the
      summary of the selected store items. */
  function ComparePrices(item: GroceryItem, filters: SearchFilters, stores: seq<Store>,
                         prices: seq<PriceInfo>): (r: Result<Option<SearchResult>, string>)
    ensures r.Err? ==> r.error == EmptyReduceError
    ensures r.Ok? && r.value.Some? ==>
              Summarizes(r.value.value) && r.value.value.item == item
              && r.value.value.stores == Selected(item, filters, stores, prices)
  {
    if |NearbyPrices(item.id, stores, prices)| == 0 then Ok(None)
    else
      var finalStoreItems := Selected(item, filters, stores, prices);
      if |finalStoreItems| == 0 then Err(EmptyReduceError)
      else Ok(Some(Summarize(item, finalStoreItems)))
  }

  /** Null exactly when no store of the list prices the item. */
  lemma ComparePricesNull(item: GroceryItem, filters: SearchFilters, stores: seq<Store>, prices: seq<PriceInfo>)
    ensures ComparePrices(item, filters, stores, prices) == Ok(None) <==>
              forall p :: p in prices ==> !PricedAt(item, stores, p)
  {
    var itemPrices := NearbyPrices(item.id, stores, prices);
    if |itemPrices| > 0 {
      assert itemPrices[0] in itemPrices;
    }
  }

  /** The error exactly when some store of the list prices the item but the filters reject every
      such price. */
  lemma ComparePricesError(item: GroceryItem, filters: SearchFilters, stores: seq<Store>, prices: seq<PriceInfo>)
    ensures ComparePrices(item, filters, stores, prices).Err? <==>
              && (exists p :: p in prices && PricedAt(item, stores, p))
              && (forall p :: p in prices && PricedAt(item, stores, p) ==> !PassesFilters(filters, p))
  {
    var itemPrices := NearbyPrices(item.id, stores, prices);
    var finalStoreItems := Selected(item, filters, stores, prices);
    SelectedContents(item, filters, stores, prices);
    if |itemPrices| > 0 {
      assert itemPrices[0] in itemPrices;
      if |finalStoreItems| > 0 {
        assert finalStoreItems[0] in finalStoreItems;
      }
    }
  }

  /** `getItemPrices` over the price list `prices`: null for an item outside the catalogue,
      otherwise the comparison among the stores near the filters' zip code. */
  function GetItemPrices(itemId: string, filters: SearchFilters, prices: seq<PriceInfo>,
                         draw: nat -> real): (r: Result<Option<SearchResult>, string>)
    ensures r.Err? ==> r.error == EmptyReduceError
    ensures r.Ok? && r.value.Some? ==>
              Summarizes(r.value.value) && r.value.value.item in MockItems && r.value.value.item.id == itemId
  {
    match Find(MockItems, (i: GroceryItem) => i.id == itemId)
    case None => Ok(None)
    case Some(item) =>
      assert item in MockItems && item.id == itemId;
      ComparePrices(item, filters, GetStoresNearZipcode(filters.zipCode, filters.radius, draw), prices)
  }

  /** The catalogue has no entry with this id. */
  predicate Unknown(itemId: string)
  {
    forall i :: 0 <= i < |MockItems| ==> MockItems[i].id != itemId
  }

  /** The catalogue entry `getItemPrices` compares prices for. */
  lemma CatalogueLookup(itemId: string)
    ensures Find(MockItems, (i: GroceryItem) => i.id == itemId).None? <==> Unknown(itemId)
  {
    var f := (i: GroceryItem) => i.id == itemId;
    assert forall i :: 0 <= i < |MockItems| ==> (f(MockItems[i]) <==> MockItems[i].id == itemId);
  }

  /** A price of the item at a store near the filters' zip code. */
  predicate Nearby(itemId: string, filters: SearchFilters, draw: nat -> real, p: PriceInfo)
  {
    p.itemId == itemId && HasStore(GetStoresNearZipcode(filters.zipCode, filters.radius, draw), p.storeId)
  }

  /** Null exactly for an item outside the catalogue, or one without any price at a nearby
      store; the error exactly when the item has nearby prices but the filters reject all of
      them. */
  lemma GetItemPricesOutcomes(itemId: string, filters: SearchFilters, prices: seq<PriceInfo>, draw: nat -> real)
    ensures GetItemPrices(itemId, filters, prices, draw) == Ok(None) <==>
              Unknown(itemId) || forall p :: p in prices ==> !Nearby(itemId, filters, draw, p)
    ensures GetItemPrices(itemId, filters, prices, draw).Err? <==>
              && !Unknown(itemId)
              && (exists p :: p in prices && Nearby(itemId, filters, draw, p))
              && (forall p :: p in prices && Nearby(itemId, filters, draw, p) ==> !PassesFilters(filters, p))
  {
    CatalogueLookup(itemId);
    var found := Find(MockItems, (i: GroceryItem) => i.id == itemId);
    if found.Some? {
      var stores := GetStoresNearZipcode(filters.zipCode, filters.radius, draw);
      ComparePricesNull(found.value, filters, stores, prices);
      ComparePricesError(found.value, filters, stores, prices);
    }
  }

  /** A comparison lists only nearby store items of the requested item that pass the filters,
      each with its own store, and lists every such price. */
  lemma GetItemPricesContents(itemId: string, filters: SearchFilters, prices: seq<PriceInfo>, draw: nat -> real)
    requires GetItemPrices(itemId, filters, prices, draw).Ok?
    requires GetItemPrices(itemId, filters, prices, draw).value.Some?
    ensures var res := GetItemPrices(itemId, filters, prices, draw).value.value;
            var near := GetStoresNearZipcode(filters.zipCode, filters.radius, draw);
            && (forall si :: si in res.stores ==>
                  si.item == res.item && si.priceInfo in prices && Nearby(itemId, filters, draw, si.priceInfo)
                  && si.store in near && si.store.id == si.priceInfo.storeId
                  && PassesFilters(filters, si.priceInfo))
            && (forall p :: p in prices && Nearby(itemId, filters, draw, p) && PassesFilters(filters, p) ==>
                  exists si :: si in res.stores && si.priceInfo == p)
  {
    var item := Find(MockItems, (i: GroceryItem) => i.id == itemId).value;
    var stores := GetStoresNearZipcode(filters.zipCode, filters.radius, draw);
    SelectedContents(item, filters, stores, prices);
  }

  // ---------------------------------------------------------------- catalogue lists

  /** `getPopularItems`: the first five catalogue items, which is the whole catalogue. */
  function GetPopularItems(): (items: seq<GroceryItem>)
    ensures items == MockItems
  {
    MockItems[..5]
  }

  function Categories(): seq<string>
  {
    seq(|MockItems|, i requires 0 <= i < |MockItems| => MockItems[i].category)
  }

  /** `getCategories`: each catalogue category once, in order of first appearance. */
  function GetCategories(): (categories: seq<string>)
    ensures forall c :: c in categories <==> exists i :: 0 <= i < |MockItems| && MockItems[i].category == c
    ensures forall i, j :: 0 <= i < j < |categories| ==> categories[i] != categories[j]
  {
    var cs := Categories();
    assert forall i :: 0 <= i < |MockItems| ==> cs[i] == MockItems[i].category;
    Distinct(cs)
  }

  /** The category of each catalogue item, in catalogue order. */
  lemma CatalogueCategories()
    ensures Categories() == ["Produce", "Dairy", "Bakery", "Meat", "Dairy"]
  {
  }

  /** Four different values followed by a repeat of the second keep only the four. */
  lemma DistinctOfFourAndRepeat<T>(a: T, b: T, c: T, e: T)
    requires a != b && a != c && a != e && b != c && b != e && c != e
    ensures Distinct([a, b, c, e, b]) == [a, b, c, e]
  {
    var four := [a, b, c, e];
    DistinctOfNoRepeats(four);
    DistinctSnoc(four, b);
    assert four + [b] == [a, b, c, e, b];
  }

  /** The categories in the order a reader of the catalogue meets them. */
  lemma CategoriesListed()
    ensures GetCategories() == ["Produce", "Dairy", "Bakery", "Meat"]
  {
    CatalogueCategories();
    var p, d, b, m := "Produce", "Dairy", "Bakery", "Meat";
    assert |p| == 7 && |d| == 5 && |b| == 6 && |m| == 4;
    DistinctOfFourAndRepeat(p, d, b, m);
  }

  /** The categories come in the order of their first appearance in the catalogue. */
  lemma CategoriesInFirstAppearanceOrder(i: nat, j: nat)
    requires i < j < |GetCategories()|
    ensures FirstIndex(Categories(), GetCategories()[i]) < FirstIndex(Categories(), GetCategories()[j])
  {
    DistinctKeepsFirstOccurrenceOrder(Categories(), i, j);
  }
}
