/** The location-aware scraper of `storeSpecificScraper.ts`: a per-chain table of location
    configurations kept in insertion order, the placeholder substitution that builds a store's
    location URL, the item base-price, state-multiplier and unit-divisor tables with their
    defaults, and the error path around a location-based scrape. The scrape is a parameter
    returning a result or the message it throws; number formatting is a `show` parameter;
    `Date.now()` is a `now` parameter. */
module StoreSpecificScraper {
  import opened Js
  import opened Types
  import opened RealTimePrice
  import WebScraper

  datatype LocationMethod = ZipCode | StoreIdMethod | Coordinates

  datatype PriceSelectors = PriceSelectors(regular: string, sale: Option<string>, unit: Option<string>)

  datatype StockSelectors = StockSelectors(inStock: string, outOfStock: Option<string>)

  datatype StoreLocationConfig = StoreLocationConfig(
    storeChain: string,
    locationUrl: string,
    locationSelector: string,
    priceSelectors: PriceSelectors,
    stockSelectors: StockSelectors,
    requiresLocation: bool,
    locationMethod: LocationMethod,
    sessionRequired: bool)

  /** A `Partial<StoreLocationConfig>`. */
  datatype LocationConfigPatch = LocationConfigPatch(
    storeChain: Option<string>,
    locationUrl: Option<string>,
    locationSelector: Option<string>,
    priceSelectors: Option<PriceSelectors>,
    stockSelectors: Option<StockSelectors>,
    requiresLocation: Option<bool>,
    locationMethod: Option<LocationMethod>,
    sessionRequired: Option<bool>)

  /** `{ ...existing, ...patch }` */
  function MergeLocationConfig(c: StoreLocationConfig, p: LocationConfigPatch): StoreLocationConfig
  {
    StoreLocationConfig(
      WebScraper.Pick(p.storeChain, c.storeChain),
      WebScraper.Pick(p.locationUrl, c.locationUrl),
      WebScraper.Pick(p.locationSelector, c.locationSelector),
      WebScraper.Pick(p.priceSelectors, c.priceSelectors),
      WebScraper.Pick(p.stockSelectors, c.stockSelectors),
      WebScraper.Pick(p.requiresLocation, c.requiresLocation),
      WebScraper.Pick(p.locationMethod, c.locationMethod),
      WebScraper.Pick(p.sessionRequired, c.sessionRequired))
  }

  /** Only the supplied members change: an empty patch is the identity, a patch applied twice
      is applied once, and a supplied `locationUrl` is taken as given. */
  lemma MergeLocationConfigLaws(c: StoreLocationConfig, p: LocationConfigPatch)
    ensures MergeLocationConfig(c, LocationConfigPatch(None, None, None, None, None, None, None, None)) == c
    ensures MergeLocationConfig(MergeLocationConfig(c, p), p) == MergeLocationConfig(c, p)
    ensures p.locationUrl.Some? ==> MergeLocationConfig(c, p).locationUrl == p.locationUrl.value
    ensures p.requiresLocation.None? ==> MergeLocationConfig(c, p).requiresLocation == c.requiresLocation
  {
  }

  // ---------------------------------------------------------------- the chain table

  /** The selectors every chain but Walmart, Target and Kroger uses. */
  const ProductPriceSelectors: PriceSelectors :=
    PriceSelectors(".product-price", Some(".product-price-sale"), Some(".product-price-unit"))

  const ProductStockSelectors: StockSelectors :=
    StockSelectors(".product-availability", Some(".product-unavailable"))

  /** The seven chains configured at construction, in this order. */
  const InitialChains: seq<string> := ["Walmart", "Target", "Kroger", "Safeway", "Whole Foods", "Publix", "HEB"]

  function InitialLocationConfigs(): map<string, StoreLocationConfig>
  {
    map[
      "Walmart" := StoreLocationConfig("Walmart", "https://www.walmart.com/store/{storeId}", ".store-info",
        PriceSelectors("[data-price-type=\"finalPrice\"] .price-characteristic",
                       Some("[data-price-type=\"finalPrice\"] .price-characteristic"),
                       Some("[data-price-type=\"unitPrice\"] .price-characteristic")),
        StockSelectors("[data-testid=\"fulfillment-shipping\"]", Some("[data-testid=\"fulfillment-unavailable\"]")),
        true, StoreIdMethod, true),
      "Target" := StoreLocationConfig("Target", "https://www.target.com/store-locator/find-stores/{zipcode}", ".store-location",
        PriceSelectors("[data-test=\"product-price\"]", Some("[data-test=\"product-price-sale\"]"),
                       Some("[data-test=\"product-price-unit\"]")),
        StockSelectors("[data-test=\"shipItButton\"]", Some("[data-test=\"outOfStockButton\"]")),
        true, ZipCode, false),
      "Kroger" := StoreLocationConfig("Kroger", "https://www.kroger.com/store/{storeId}", ".store-details",
        PriceSelectors(".price-value", Some(".price-sale"), Some(".price-unit")),
        ProductStockSelectors, true, StoreIdMethod, true),
      "Safeway" := StoreLocationConfig("Safeway", "https://www.safeway.com/store/{storeId}", ".store-info",
        ProductPriceSelectors, ProductStockSelectors, true, StoreIdMethod, true),
      "Whole Foods" := StoreLocationConfig("Whole Foods", "https://www.wholefoodsmarket.com/stores/{storeId}", ".store-details",
        ProductPriceSelectors, ProductStockSelectors, true, StoreIdMethod, false),
      "Publix" := StoreLocationConfig("Publix", "https://www.publix.com/store/{storeId}", ".store-info",
        ProductPriceSelectors, ProductStockSelectors, true, StoreIdMethod, true),
      "HEB" := StoreLocationConfig("HEB", "https://www.heb.com/store/{storeId}", ".store-details",
        ProductPriceSelectors, ProductStockSelectors, true, StoreIdMethod, true)
    ]
  }

  /** The initial chains are listed once each, every one is stored under its own name, requires a
      location, and is located by store id except Target, located by zip code. */
  lemma InitialLocationConfigsShape()
    ensures InsertionOrder(InitialChains, InitialLocationConfigs().Keys)
    ensures forall chain :: chain in InitialLocationConfigs() ==>
              InitialLocationConfigs()[chain].storeChain == chain && InitialLocationConfigs()[chain].requiresLocation
              && (InitialLocationConfigs()[chain].locationMethod == ZipCode <==> chain == "Target")
  {
  }

  // ---------------------------------------------------------------- location URL

  /** The placeholders of the three location methods. */
  const StoreIdPlaceholder: string := "{storeId}"
  const ZipPlaceholder: string := "{zipcode}"
  const LatPlaceholder: string := "{lat}"
  const LngPlaceholder: string := "{lng}"

  /** `buildLocationUrl`: the first placeholder of the configured method replaced by the store's
      id, its zip code, or its coordinates (`{lat}` then `{lng}`, written by `show`). */
  function BuildLocationUrl(config: StoreLocationConfig, store: Store, show: real -> string): string
  {
    var url := config.locationUrl;
    match config.locationMethod
    case StoreIdMethod => ReplaceFirst(url, StoreIdPlaceholder, store.id)
    case ZipCode => ReplaceFirst(url, ZipPlaceholder, store.zipCode)
    case Coordinates =>
      var url := ReplaceFirst(url, LatPlaceholder, show(store.latitude));
      ReplaceFirst(url, LngPlaceholder, show(store.longitude))
  }

  /** The placeholder a method substitutes first. */
  function PlaceholderOf(m: LocationMethod): string
  {
    match m
    case StoreIdMethod => StoreIdPlaceholder
    case ZipCode => ZipPlaceholder
    case Coordinates => LatPlaceholder
  }

  /** For the store-id and zip-code methods: a template without the placeholder comes back
      unchanged, and otherwise its first occurrence, and only that, is replaced by the store's
      id or zip code. */
  lemma BuildLocationUrlSubstitutes(config: StoreLocationConfig, store: Store, show: real -> string)
    requires config.locationMethod != Coordinates
    ensures var url, p := config.locationUrl, PlaceholderOf(config.locationMethod);
            var v := if config.locationMethod == StoreIdMethod then store.id else store.zipCode;
            && ((forall j :: !OccursAt(url, p, j)) ==> BuildLocationUrl(config, store, show) == url)
            && (forall i :: OccursAt(url, p, i) && (forall j :: 0 <= j < i ==> !OccursAt(url, p, j)) ==>
                  BuildLocationUrl(config, store, show) == url[..i] + v + url[i + |p|..])
  {
    var v := if config.locationMethod == StoreIdMethod then store.id else store.zipCode;
    ReplaceFirstSpec(config.locationUrl, PlaceholderOf(config.locationMethod), v);
  }

  /** For the coordinate method a template with neither placeholder comes back unchanged. */
  lemma BuildLocationUrlWithoutCoordinates(config: StoreLocationConfig, store: Store, show: real -> string)
    requires config.locationMethod == Coordinates
    requires forall j :: !OccursAt(config.locationUrl, LatPlaceholder, j)
    requires forall j :: !OccursAt(config.locationUrl, LngPlaceholder, j)
    ensures BuildLocationUrl(config, store, show) == config.locationUrl
  {
    ReplaceFirstSpec(config.locationUrl, LatPlaceholder, show(store.latitude));
    ReplaceFirstSpec(config.locationUrl, LngPlaceholder, show(store.longitude));
  }

  // ---------------------------------------------------------------- lookup tables

  /** `getBasePriceForItem`'s table, by item id. */
  const BasePrices: map<string, real> := map[
    "milk-organic-valley-whole" := 6.99, "milk-horizon-2percent" := 4.49,
    "milk-fairlife-ultra-filtered" := 5.99, "eggs-egglands-best-large" := 4.99,
    "eggs-vital-farms-pasture-raised" := 7.99, "bread-wonder-classic" := 3.49,
    "bread-sara-lee-wheat" := 3.99, "bread-arnold-oatnut" := 4.49,
    "bread-pepperidge-farm-sourdough" := 4.99, "bagels-thomas-plain" := 3.99,
    "cheese-tillamook-cheddar" := 4.99, "yogurt-chobani-greek-vanilla" := 1.49,
    "chicken-perdue-breast-boneless" := 8.99, "chicken-tyson-tenders" := 12.99,
    "beef-ground-80-20" := 6.99, "bacon-oscar-mayer-thick-cut" := 7.99,
    "salmon-wild-alaskan" := 14.99, "bananas-chiquita-organic" := 1.99,
    "apples-gala-organic" := 4.99, "tomatoes-roma" := 2.99,
    "lettuce-romaine-hearts" := 3.99, "avocados-hass-organic" := 5.99,
    "pasta-barilla-spaghetti" := 2.49, "rice-mahatma-long-grain" := 8.99,
    "cereal-cheerios-original" := 4.99, "cereal-frosted-flakes" := 4.49,
    "peanut-butter-jif-creamy" := 3.99, "chips-lays-classic" := 4.99,
    "soda-coca-cola-classic" := 6.99, "water-aquafina-bottles" := 4.99]

  /** `getLocationMultiplier`'s table, by state code, without its `default` entry. */
  const StateMultipliers: map<string, real> := map[
    "CA" := 1.25, "NY" := 1.20, "MA" := 1.18, "CT" := 1.15, "NJ" := 1.15,
    "WA" := 1.12, "OR" := 1.10, "CO" := 1.08, "VT" := 1.05, "MD" := 1.05,
    "IL" := 1.02, "PA" := 1.00, "VA" := 1.00, "NC" := 0.98, "GA" := 0.95,
    "FL" := 0.95, "TX" := 0.92, "OH" := 0.90, "MI" := 0.90, "WI" := 0.88,
    "TN" := 0.85, "KY" := 0.85, "IN" := 0.85, "MO" := 0.85, "AR" := 0.82,
    "LA" := 0.82, "MS" := 0.80, "AL" := 0.80, "SC" := 0.82, "WV" := 0.80]

  const DefaultMultiplier: real := 0.95

  /** `getUnitDivisor`'s table, by unit. */
  const UnitDivisors: map<string, real> := map[
    "lb" := 1.0, "oz" := 16.0, "g" := 453.592, "kg" := 0.453592, "fl oz" := 128.0,
    "gallon" := 1.0, "half-gallon" := 0.5, "quart" := 0.25, "pint" := 0.125, "cup" := 0.0625,
    "count" := 1.0, "pack" := 1.0, "box" := 1.0, "bag" := 1.0, "jar" := 1.0, "bottle" := 1.0,
    "dozen" := 12.0]

  /** `table[key] || fallback` */
  function Lookup(table: map<string, real>, key: string, fallback: real): real
  {
    OrElse(if key in table then Some(table[key]) else None, fallback)
  }

  /** Every table value is positive, so a listed key's value is never replaced by the default
      (`|| fallback` only falls back on 0). */
  lemma BasePricesBounded()
    ensures forall k :: k in BasePrices ==> 1.49 <= BasePrices[k] <= 14.99
  {
  }

  lemma StateMultipliersBounded()
    ensures forall k :: k in StateMultipliers ==> 0.80 <= StateMultipliers[k] <= 1.25
  {
  }

  lemma UnitDivisorsBounded()
    ensures forall k :: k in UnitDivisors ==> 0.0625 <= UnitDivisors[k] <= 453.592
  {
  }

  /** `getBasePriceForItem`: the listed price of the item's id, 3.99 otherwise. */
  function BasePriceForItem(item: GroceryItem): (p: real)
    ensures item.id in BasePrices ==> p == BasePrices[item.id]
    ensures item.id !in BasePrices ==> p == 3.99
    ensures 1.49 <= p <= 14.99
  {
    BasePricesBounded();
    Lookup(BasePrices, item.id, 3.99)
  }

  /** `getLocationMultiplier`: the listed multiplier of the state, 0.95 for any other state. */
  function LocationMultiplier(state: string): (m: real)
    ensures state in StateMultipliers ==> m == StateMultipliers[state]
    ensures state !in StateMultipliers ==> m == DefaultMultiplier
    ensures 0.80 <= m <= 1.25
  {
    StateMultipliersBounded();
    Lookup(StateMultipliers, state, DefaultMultiplier)
  }

  /** `getUnitDivisor`: the listed divisor of the unit, 1 for any other unit; never zero. */
  function UnitDivisor(unit: string): (d: real)
    ensures unit in UnitDivisors ==> d == UnitDivisors[unit]
    ensures unit !in UnitDivisors ==> d == 1.0
    ensures d > 0.0
  {
    UnitDivisorsBounded();
    Lookup(UnitDivisors, unit, 1.0)
  }

  /** A few units, as listed: a dozen divides by 12, ounces by 16, and an unlisted unit by 1. */
  lemma UnitDivisorExamples()
    ensures UnitDivisor("dozen") == 12.0 && UnitDivisor("oz") == 16.0 && UnitDivisor("each") == 1.0
  {
    assert "dozen" in UnitDivisors && UnitDivisors["dozen"] == 12.0;
    assert "oz" in UnitDivisors && UnitDivisors["oz"] == 16.0;
  }

  /** California costs 25% more and an unlisted state 5% less. */
  lemma LocationMultiplierExamples()
    ensures LocationMultiplier("CA") == 1.25 && LocationMultiplier("ZZ") == 0.95
  {
    assert "CA" in StateMultipliers && StateMultipliers["CA"] == 1.25;
  }

  /** The simulated shelf price before rounding to cents: the item's base price scaled by its
      state's multiplier, so between 1.192 and 18.7375. */
  function LocationPrice(item: GroceryItem, store: Store): (p: real)
    ensures 1.49 * 0.80 <= p <= 14.99 * 1.25
  {
    var basePrice, locationMultiplier := BasePriceForItem(item), LocationMultiplier(store.state);
    ScaledWithin(basePrice, locationMultiplier);
    basePrice * locationMultiplier
  }

  /** A base price in [1.49, 14.99] scaled by a multiplier in [0.80, 1.25]. */
  lemma ScaledWithin(basePrice: real, multiplier: real)
    requires 1.49 <= basePrice <= 14.99 && 0.80 <= multiplier <= 1.25
    ensures 1.49 * 0.80 <= basePrice * multiplier <= 14.99 * 1.25
  {
    assert basePrice * multiplier <= 14.99 * multiplier <= 14.99 * 1.25;
    assert 1.49 * 0.80 <= 1.49 * multiplier <= basePrice * multiplier;
  }

  // ---------------------------------------------------------------- scraping

  /** A location-based result. `lastUpdated` is the time in milliseconds rather than its ISO
      text. */
  datatype LocationScrapingResult = LocationScrapingResult(
    success: bool,
    price: Option<real>,
    salePrice: Option<real>,
    unitPrice: Option<real>,
    inStock: bool,
    location: string,
    lastUpdated: int,
    source: string,
    error: Option<string>)

  function LocationFailure(store: Store, now: int, message: string): LocationScrapingResult
  {
    LocationScrapingResult(false, None, None, None, false, store.address, now, store.chain, Some(message))
  }

  /** What `getStoreLocationInfo` returns. */
  datatype LocationInfo = LocationInfo(storeId: string, locationUrl: string, available: bool)

  class StoreSpecificScraper {
    const webScraper: WebScraper.WebScraperService
    var storeConfigs: map<string, StoreLocationConfig>
    var chainOrder: seq<string>

    /** `chainOrder` is the map's key order. */
    ghost predicate Valid()
      reads this
    {
      InsertionOrder(chainOrder, storeConfigs.Keys)
    }

    constructor (webScraper: WebScraper.WebScraperService)
      ensures Valid()
      ensures this.webScraper == webScraper
      ensures storeConfigs == InitialLocationConfigs() && chainOrder == InitialChains
    {
      this.webScraper := webScraper;
      storeConfigs := InitialLocationConfigs();
      chainOrder := InitialChains;
      InitialLocationConfigsShape();
    }

    /** `getLocationBasedPrice`: without a configuration for the chain, a failure; otherwise the
        scrape of the store's location URL with the store's address and chain written over its
        location and source, or a failure with the message it throws. Every answer names the
        store's address and chain. */
    function GetLocationBasedPrice(store: Store, now: int, show: real -> string,
                                   scrape: string -> Result<LocationScrapingResult, string>): (r: LocationScrapingResult)
      reads this
      ensures r.location == store.address && r.source == store.chain
      ensures store.chain !in storeConfigs ==> r == LocationFailure(store, now, "Store configuration not found")
      ensures store.chain in storeConfigs ==>
                var outcome := scrape(BuildLocationUrl(storeConfigs[store.chain], store, show));
                (outcome.Ok? ==> r == outcome.value.(location := store.address, source := store.chain))
                && (outcome.Err? ==> r == LocationFailure(store, now, outcome.error))
      ensures !r.success && r.error.Some? && store.chain in storeConfigs ==>
                scrape(BuildLocationUrl(storeConfigs[store.chain], store, show)).Err?
                || !scrape(BuildLocationUrl(storeConfigs[store.chain], store, show)).value.success
    {
      if store.chain !in storeConfigs then LocationFailure(store, now, "Store configuration not found")
      else
        var locationUrl := BuildLocationUrl(storeConfigs[store.chain], store, show);
        match scrape(locationUrl)
        case Ok(result) => result.(location := store.address, source := store.chain)
        case Err(message) => LocationFailure(store, now, message)
    }

    /** `getLocationBasedPricesFromMultipleStores`, the stores taken in order: each store id is
        mapped to the result for the last store listed with that id. */
    method GetLocationBasedPricesFromMultipleStores(stores: seq<Store>, now: int, show: real -> string,
                                                    scrape: string -> Result<LocationScrapingResult, string>)
      returns (results: map<string, LocationScrapingResult>)
      ensures forall id :: id in results <==> exists i :: 0 <= i < |stores| && stores[i].id == id
      ensures forall i :: 0 <= i < |stores| && (forall j :: i < j < |stores| ==> stores[j].id != stores[i].id) ==>
                results[stores[i].id] == GetLocationBasedPrice(stores[i], now, show, scrape)
    {
      results := map[];
      var i := 0;
      while i < |stores|
        invariant 0 <= i <= |stores|
        invariant forall id :: id in results <==> exists k :: 0 <= k < i && stores[k].id == id
        invariant forall k :: 0 <= k < i && (forall j :: k < j < i ==> stores[j].id != stores[k].id) ==>
                    results[stores[k].id] == GetLocationBasedPrice(stores[k], now, show, scrape)
      {
        var result := GetLocationBasedPrice(stores[i], now, show, scrape);
        ghost var before := results;
        results := results[stores[i].id := result];
        forall k | 0 <= k < i + 1 && (forall j :: k < j < i + 1 ==> stores[j].id != stores[k].id)
          ensures results[stores[k].id] == GetLocationBasedPrice(stores[k], now, show, scrape)
        {
          if k < i {
            assert stores[i].id != stores[k].id;
            assert results[stores[k].id] == before[stores[k].id];
          }
        }
        i := i + 1;
      }
    }

    /** `getStoreLocationInfo`: the store's location URL and whether the chain requires a
        location; an unconfigured chain gets an empty URL and is not available. */
    function GetStoreLocationInfo(store: Store, show: real -> string): (info: LocationInfo)
      reads this
      ensures info.storeId == store.id
      ensures store.chain !in storeConfigs ==> info == LocationInfo(store.id, "", false)
      ensures store.chain in storeConfigs ==>
                info.locationUrl == BuildLocationUrl(storeConfigs[store.chain], store, show)
                && info.available == storeConfigs[store.chain].requiresLocation
    {
      if store.chain !in storeConfigs then LocationInfo(store.id, "", false)
      else
        var config := storeConfigs[store.chain];
        LocationInfo(store.id, BuildLocationUrl(config, store, show), config.requiresLocation)
    }

    /** `supportsLocationBasedPricing`: false for an unconfigured chain, otherwise whether the
        chain requires a location. */
    predicate SupportsLocationBasedPricing(storeChain: string)
      reads this
      ensures SupportsLocationBasedPricing(storeChain) ==> storeChain in storeConfigs
    {
      storeChain in storeConfigs && storeConfigs[storeChain].requiresLocation
    }

    /** The two answers about a store's chain agree. */
    lemma LocationInfoAgreesWithSupport(store: Store, show: real -> string)
      ensures GetStoreLocationInfo(store, show).available == SupportsLocationBasedPricing(store.chain)
    {
    }

    /** `getSupportedStoreChains`: the configured chains, each once, in the order they were
        first added. */
    function GetSupportedStoreChains(): (chains: seq<string>)
      reads this
      requires Valid()
      ensures forall chain :: chain in chains <==> chain in storeConfigs
      ensures forall i, j :: 0 <= i < j < |chains| ==> chains[i] != chains[j]
      ensures chains == chainOrder
    {
      chainOrder
    }

    /** `updateStoreConfig`: a configured chain takes the supplied members, keeping its place;
        an unknown chain changes nothing. */
    method UpdateStoreConfig(storeChain: string, patch: LocationConfigPatch)
      requires Valid()
      modifies this
      ensures Valid()
      ensures storeChain in old(storeConfigs) ==>
                storeConfigs == old(storeConfigs)[storeChain := MergeLocationConfig(old(storeConfigs)[storeChain], patch)]
      ensures storeChain !in old(storeConfigs) ==> storeConfigs == old(storeConfigs)
      ensures chainOrder == old(chainOrder)
    {
      if storeChain in storeConfigs {
        storeConfigs := storeConfigs[storeChain := MergeLocationConfig(storeConfigs[storeChain], patch)];
      }
    }

    /** `addStoreConfig`: the configuration is stored under its chain, new or replaced; a new
        chain is listed last. */
    method AddStoreConfig(config: StoreLocationConfig)
      requires Valid()
      modifies this
      ensures Valid()
      ensures storeConfigs == old(storeConfigs)[config.storeChain := config]
      ensures chainOrder == Upsert(old(chainOrder), config.storeChain)
      ensures config.storeChain in GetSupportedStoreChains()
    {
      storeConfigs := storeConfigs[config.storeChain := config];
      chainOrder := Upsert(chainOrder, config.storeChain);
    }

    /** `getScrapingStats`, answered by the website scraper. */
    function GetScrapingStats(): (stats: map<string, WebScraper.ChainStats>)
      reads webScraper
      ensures stats.Keys == webScraper.requestCounts.Keys
      ensures stats == webScraper.GetScrapingStats()
    {
      webScraper.GetScrapingStats()
    }
  }
}
