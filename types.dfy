/** The records the grocery-finder services exchange (`types/index.ts`). Prices are exact reals,
    timestamps milliseconds since the epoch, and optional members `Option`s. */
module Types {
  import opened Js

  datatype Store = Store(
    id: string,
    name: string,
    chain: string,
    address: string,
    city: string,
    state: string,
    zipCode: string,
    latitude: real,
    longitude: real,
    distance: Option<real>)

  datatype GroceryItem = GroceryItem(
    id: string,
    name: string,
    brand: Option<string>,
    category: string,
    size: Option<string>,
    unit: Option<string>)

  /** `lastUpdated` is an ISO date in the source; here it is the instant it denotes. */
  datatype PriceInfo = PriceInfo(
    id: string,
    storeId: string,
    itemId: string,
    price: real,
    unitPrice: Option<real>,
    unit: Option<string>,
    salePrice: Option<real>,
    inStock: bool,
    lastUpdated: int)

  datatype StoreItem = StoreItem(store: Store, item: GroceryItem, priceInfo: PriceInfo)

  datatype SearchFilters = SearchFilters(
    zipCode: string,
    radius: real,
    category: Option<string>,
    maxPrice: Option<real>,
    inStockOnly: Option<bool>)

  datatype PriceRange = PriceRange(min: real, max: real)

  datatype SearchResult = SearchResult(
    item: GroceryItem,
    stores: seq<StoreItem>,
    bestPrice: PriceInfo,
    averagePrice: real,
    priceRange: PriceRange)

  /** `salePrice || price`: the sale price when there is a non-zero one. */
  function EffectivePrice(p: PriceInfo): real
  {
    OrElse(p.salePrice, p.price)
  }
}
