/** The in-memory price engine of `realTimePriceService.ts`: a price cache with a time to live,
    a per store and item price history with a 30-day retention window, price alerts kept per
    item, per-key subscriber lists, and price statistics over the history. Store APIs are a
    `fetch` parameter and `Date.now()` a `now` parameter. */
module RealTimePrice {
  import opened Js
  import opened Types
  import Stats

  /** A cached price lives for 30 minutes. */
  const CacheTtl: int := 30 * 60 * 1000

  /** History is kept for 30 days. */
  const HistoryRetention: int := 30 * 24 * 60 * 60 * 1000

  datatype CachedPrice = CachedPrice(priceInfo: PriceInfo, timestamp: int, ttl: int)

  datatype HistoryEntry = HistoryEntry(
    price: real,
    salePrice: Option<real>,
    timestamp: int,
    storeId: string,
    itemId: string)

  datatype PriceAlert = PriceAlert(
    id: string,
    userId: string,
    itemId: string,
    storeId: string,
    targetPrice: real,
    isActive: bool,
    createdAt: int)

  datatype EventType = PriceUpdate | StockUpdate | SaleStart | SaleEnd

  datatype PriceUpdateEvent = PriceUpdateEvent(
    kind: EventType,
    storeId: string,
    itemId: string,
    priceInfo: PriceInfo,
    timestamp: int)

  /** A subscriber callback, known by its identity (what `indexOf` compares). */
  datatype Callback = Callback(identity: nat)

  /** The statistics `getPriceStats` reports; `variance` is the square of its `priceVolatility`. */
  datatype PriceStats = PriceStats(averagePrice: real, lowestPrice: real, highestPrice: real, variance: real)

  /** The key of the cache, the history and the subscriber lists: `${storeId}-${itemId}`. */
  function Key(storeId: string, itemId: string): string
  {
    storeId + "-" + itemId
  }

  /** The store and item ids `const [storeId, itemId] = cacheKey.split('-')` reads back from a
      key; a missing second field is `undefined`, which a template literal spells out. */
  function KeyIds(key: string): (string, string)
  {
    var (storeId, itemId) := SplitFirstTwo(key, '-');
    (storeId, if itemId.Some? then itemId.value else "undefined")
  }

  /** Splitting a key gives back its ids when neither contains a dash. */
  lemma KeyIdsRoundTrip(storeId: string, itemId: string)
    requires '-' !in storeId && '-' !in itemId
    ensures KeyIds(Key(storeId, itemId)) == (storeId, itemId)
  {
    var key := Key(storeId, itemId);
    var n := |storeId|;
    OccursAtChar(key, '-', n);
    forall j | 0 <= j < n ensures !OccursAt(key, "-", j) {
      OccursAtChar(key, '-', j);
      assert key[j] == storeId[j];
    }
    assert IndexOf(key, "-") == Some(n);
    var rest := key[n + 1..];
    assert rest == itemId;
    forall j ensures !OccursAt(rest, "-", j) {
      OccursAtChar(rest, '-', j);
    }
    assert IndexOf(rest, "-") == None;
    assert key[..n] == storeId;
    assert SplitFirstTwo(key, '-') == (storeId, Some(itemId));
  }

  /** An item id with a dash is cut at the dash: the key of store "1" and item "milk-whole"
      reads back as item "milk". */
  lemma KeyIdsCutsDashedItem()
    ensures KeyIds(Key("1", "milk-whole")) == ("1", "milk")
  {
    var key := Key("1", "milk-whole");
    assert key == "1-milk-whole";
    OccursAtChar(key, '-', 0);
    OccursAtChar(key, '-', 1);
    assert IndexOf(key, "-") == Some(1);
    var rest := key[2..];
    assert rest == "milk-whole";
    forall j | 0 <= j < 4 ensures !OccursAt(rest, "-", j) {
      OccursAtChar(rest, '-', j);
    }
    OccursAtChar(rest, '-', 4);
    assert IndexOf(rest, "-") == Some(4);
    assert key[..1] == "1" && rest[..4] == "milk";
    assert SplitFirstTwo(key, '-') == ("1", Some("milk"));
  }

  /** A cached price is served without a fetch while younger than its time to live. */
  predicate IsFresh(c: CachedPrice, now: int)
  {
    now - c.timestamp < c.ttl
  }

  /** The periodic refresh only refetches a price older than its time to live. */
  predicate IsStale(c: CachedPrice, now: int)
  {
    now - c.timestamp > c.ttl
  }

  /** A price aged exactly its time to live is neither served from the cache nor refreshed. */
  lemma AgedExactlyTtl(c: CachedPrice, now: int)
    requires now - c.timestamp == c.ttl
    ensures !IsFresh(c, now) && !IsStale(c, now)
  {
  }

  /** The history entry recorded for a price. */
  function NewEntry(itemId: string, storeId: string, p: PriceInfo): HistoryEntry
  {
    HistoryEntry(p.price, p.salePrice, p.lastUpdated, storeId, itemId)
  }

  /** The entries kept by the retention filter: those strictly newer than the cutoff. */
  function Retain(h: seq<HistoryEntry>, cutoff: int): seq<HistoryEntry>
  {
    Filter(h, (e: HistoryEntry) => e.timestamp > cutoff)
  }

  /** `history.push(entry)` followed by the 30-day filter: the old entries that are still recent
      enough, in their order, then the new entry if it is itself recent enough. */
  function AppendAndPurge(h: seq<HistoryEntry>, e: HistoryEntry, now: int): (r: seq<HistoryEntry>)
    ensures r == Retain(h, now - HistoryRetention) + (if e.timestamp > now - HistoryRetention then [e] else [])
    ensures |r| <= |h| + 1
    ensures forall i :: 0 <= i < |r| ==> r[i].timestamp > now - HistoryRetention
  {
    var cutoff := now - HistoryRetention;
    FilterConcat(h, [e], (x: HistoryEntry) => x.timestamp > cutoff);
    assert [e][..0] == [];
    Retain(h + [e], cutoff)
  }

  /** Purging a purged history again at the same instant removes nothing more. */
  lemma PurgeIdempotent(h: seq<HistoryEntry>, now: int)
    ensures Retain(Retain(h, now - HistoryRetention), now - HistoryRetention) == Retain(h, now - HistoryRetention)
  {
    FilterIdempotent(h, (e: HistoryEntry) => e.timestamp > now - HistoryRetention);
  }

  /** The alert test of `checkPriceAlerts`: active, for the event's store, and the effective
      price at or under the target. */
  predicate Fires(a: PriceAlert, storeId: string, p: PriceInfo)
  {
    a.isActive && a.storeId == storeId && EffectivePrice(p) <= a.targetPrice
  }

  /** The alert test as the function `filter` is given. */
  function FiresFor(storeId: string, p: PriceInfo): PriceAlert -> bool
  {
    (a: PriceAlert) => Fires(a, storeId, p)
  }

  /** The alerts of an item that a price at a store triggers: each stored alert that fires, as
      often as it is stored, in the stored order. */
  function Triggered(alerts: seq<PriceAlert>, storeId: string, p: PriceInfo): (r: seq<PriceAlert>)
    ensures forall i :: 0 <= i < |r| ==> r[i] in alerts && Fires(r[i], storeId, p)
    ensures forall i :: 0 <= i < |alerts| && Fires(alerts[i], storeId, p) ==> alerts[i] in r
    ensures Keeps(alerts, FiresFor(storeId, p), r)
  {
    FilterKeeps(alerts, FiresFor(storeId, p));
    Filter(alerts, FiresFor(storeId, p))
  }

  /** `callbacks.indexOf(callback)` followed by `splice(index, 1)` when found. */
  function RemoveFirst(xs: seq<Callback>, x: Callback): (r: seq<Callback>)
    ensures x !in xs ==> r == xs
    ensures x in xs ==> |r| == |xs| - 1 && multiset(r) == multiset(xs) - multiset{x}
    ensures x in xs ==> var i := FirstIndex(xs, x); r == xs[..i] + xs[i + 1..]
  {
    if x in xs then RemoveAt(xs, FirstIndex(xs, x)) else xs
  }

  /** Unsubscribing a callback that was subscribed once gives back the list before it. */
  lemma UnsubscribeUndoesSubscribe(xs: seq<Callback>, x: Callback)
    requires x !in xs
    ensures RemoveFirst(xs + [x], x) == xs
  {
    FirstIndexOfPrefixMiss(xs, x);
    assert (xs + [x])[..|xs|] == xs;
  }

  /** Once the only subscription of a callback is removed, removing it again changes nothing. */
  lemma SecondUnsubscribeIsNoOp(xs: seq<Callback>, x: Callback)
    requires multiset(xs)[x] == 1
    ensures x !in RemoveFirst(xs, x)
    ensures RemoveFirst(RemoveFirst(xs, x), x) == RemoveFirst(xs, x)
  {
    var r := RemoveFirst(xs, x);
    assert multiset(r)[x] == 0;
  }

  /** `alerts.findIndex(alert => alert.id === alertId)` */
  function FindById(alerts: seq<PriceAlert>, id: string): (r: Option<nat>)
    ensures r.Some? ==> r.value < |alerts| && alerts[r.value].id == id
    ensures forall j :: 0 <= j < |alerts| && (r.None? || j < r.value) ==> alerts[j].id != id
  {
    if |alerts| == 0 then None
    else if alerts[0].id == id then Some(0)
    else match FindById(alerts[1..], id)
      case None => None
      case Some(k) => Some(k + 1)
  }

  /** The list under key `k` holds an alert with the given id. */
  predicate HoldsAlert(alerts: map<string, seq<PriceAlert>>, k: string, id: string)
  {
    k in alerts && FindById(alerts[k], id).Some?
  }

  /** The position, in the map's iteration order from `from` on, of the first item whose alerts
      hold the given id. */
  function FirstHolder(order: seq<string>, alerts: map<string, seq<PriceAlert>>, id: string, from: nat): (r: Option<nat>)
    requires from <= |order|
    ensures r.Some? ==> from <= r.value < |order| && HoldsAlert(alerts, order[r.value], id)
    ensures forall j :: from <= j < |order| && (r.None? || j < r.value) ==> !HoldsAlert(alerts, order[j], id)
    decreases |order| - from
  {
    if from == |order| then None
    else if HoldsAlert(alerts, order[from], id) then Some(from)
    else FirstHolder(order, alerts, id, from + 1)
  }

  /** The alert lists after `removePriceAlert`: the first matching alert of the first item
      holding one is spliced out. */
  function RemoveAlert(order: seq<string>, alerts: map<string, seq<PriceAlert>>, id: string): map<string, seq<PriceAlert>>
  {
    match FirstHolder(order, alerts, id, 0)
    case None => alerts
    case Some(p) =>
      var k := order[p];
      alerts[k := RemoveAt(alerts[k], FindById(alerts[k], id).value)]
  }

  /** Position `p` of the iteration order is the first item holding an alert with the id. */
  predicate IsFirstHolder(order: seq<string>, alerts: map<string, seq<PriceAlert>>, id: string, p: int)
  {
    0 <= p < |order| && HoldsAlert(alerts, order[p], id)
    && forall j :: 0 <= j < p ==> !HoldsAlert(alerts, order[j], id)
  }

  /** Removing an alert splices out the first alert with that id from the first item holding
      one, keeping the order of the rest, and leaves every other item alone; without such an
      alert nothing changes. */
  lemma RemoveAlertEffect(order: seq<string>, alerts: map<string, seq<PriceAlert>>, id: string)
    ensures (forall j :: 0 <= j < |order| ==> !HoldsAlert(alerts, order[j], id)) ==> RemoveAlert(order, alerts, id) == alerts
    ensures forall p :: IsFirstHolder(order, alerts, id, p) ==>
              var r, k := RemoveAlert(order, alerts, id), order[p];
              var i := FindById(alerts[k], id).value;
              && r.Keys == alerts.Keys
              && alerts[k][i].id == id && (forall j :: 0 <= j < i ==> alerts[k][j].id != id)
              && r[k] == alerts[k][..i] + alerts[k][i + 1..]
              && multiset(r[k]) == multiset(alerts[k]) - multiset{alerts[k][i]}
              && (forall k' :: k' in alerts && k' != k ==> r[k'] == alerts[k'])
  {
    forall p | IsFirstHolder(order, alerts, id, p)
      ensures FirstHolder(order, alerts, id, 0) == Some(p)
    {
      var r := FirstHolder(order, alerts, id, 0);
      assert r.Some?;
      assert !(r.value < p) && !(p < r.value);
    }
  }

  /** The effective prices of history entries, `history.map(entry => entry.salePrice || entry.price)`. */
  function EntryPrices(h: seq<HistoryEntry>): (r: seq<real>)
    ensures |r| == |h|
  {
    seq(|h|, i requires 0 <= i < |h| => OrElse(h[i].salePrice, h[i].price))
  }

  /** The statistics `getPriceStats` computes over a history: zeros for an empty history;
      otherwise the mean, the minimum, the maximum and the population variance of the effective
      prices, with the mean between the extremes, the extremes attained and the variance
      non-negative. */
  function PriceStatsOf(h: seq<HistoryEntry>): (s: PriceStats)
    ensures var prices := EntryPrices(h);
            (|prices| == 0 ==> s == PriceStats(0.0, 0.0, 0.0, 0.0))
            && (|prices| > 0 ==>
                  s.lowestPrice <= s.averagePrice <= s.highestPrice
                  && s.variance >= 0.0
                  && (forall i :: 0 <= i < |prices| ==> s.lowestPrice <= prices[i] <= s.highestPrice)
                  && (exists i :: 0 <= i < |prices| && prices[i] == s.lowestPrice)
                  && (exists i :: 0 <= i < |prices| && prices[i] == s.highestPrice)
                  && s.averagePrice == Stats.Mean(prices)
                  && s.variance == Stats.Variance(prices))
  {
    var prices := EntryPrices(h);
    if |prices| == 0 then PriceStats(0.0, 0.0, 0.0, 0.0)
    else
      Stats.MeanBetweenMinAndMax(prices);
      Stats.VarianceNonNegative(prices);
      PriceStats(Stats.Mean(prices), Stats.Min(prices), Stats.Max(prices), Stats.Variance(prices))
  }

  /** A step of the periodic refresh: the cache, the history and the alerts triggered so far. */
  datatype Snapshot = Snapshot(
    cache: map<string, CachedPrice>,
    history: map<string, seq<HistoryEntry>>,
    fired: seq<PriceAlert>)

  /** The entry the refresh leaves under `key`: a stale entry whose store answers is replaced. */
  function Refreshed(c: CachedPrice, key: string, now: int, fetch: (string, string) -> Option<PriceInfo>): CachedPrice
  {
    var (storeId, itemId) := KeyIds(key);
    if IsStale(c, now) && fetch(itemId, storeId).Some? then CachedPrice(fetch(itemId, storeId).value, now, CacheTtl)
    else c
  }

  /** One iteration of the refresh loop, for one cache key. */
  function RefreshKey(s: Snapshot, key: string, alerts: map<string, seq<PriceAlert>>, now: int,
                      fetch: (string, string) -> Option<PriceInfo>): Snapshot
  {
    if key in s.cache && IsStale(s.cache[key], now) then
      var (storeId, itemId) := KeyIds(key);
      match fetch(itemId, storeId)
      case None => s
      case Some(p) =>
        var hk := Key(storeId, itemId);
        Snapshot(s.cache[key := CachedPrice(p, now, CacheTtl)],
                 s.history[hk := AppendAndPurge(ListAt(s.history, hk), NewEntry(itemId, storeId, p), now)],
                 s.fired + Triggered(ListAt(alerts, itemId), storeId, p))
    else s
  }

  /** The refresh loop over the cache keys, in order. */
  function RefreshAll(s: Snapshot, keys: seq<string>, alerts: map<string, seq<PriceAlert>>, now: int,
                      fetch: (string, string) -> Option<PriceInfo>): Snapshot
  {
    if |keys| == 0 then s
    else RefreshKey(RefreshAll(s, keys[..|keys| - 1], alerts, now, fetch), keys[|keys| - 1], alerts, now, fetch)
  }

  /** Over distinct keys the refresh keeps the cached keys and changes each listed entry as
      `Refreshed` says: only stale entries whose store answers are replaced. */
  lemma {:induction false} RefreshAllCache(s: Snapshot, keys: seq<string>, alerts: map<string, seq<PriceAlert>>,
                                           now: int, fetch: (string, string) -> Option<PriceInfo>)
    requires forall i, j :: 0 <= i < j < |keys| ==> keys[i] != keys[j]
    ensures RefreshAll(s, keys, alerts, now, fetch).cache.Keys == s.cache.Keys
    ensures forall k :: k in s.cache ==>
              RefreshAll(s, keys, alerts, now, fetch).cache[k] == if k in keys then Refreshed(s.cache[k], k, now, fetch) else s.cache[k]
  {
    if |keys| > 0 {
      var init, last := keys[..|keys| - 1], keys[|keys| - 1];
      RefreshAllCache(s, init, alerts, now, fetch);
      RefreshKeyCache(RefreshAll(s, init, alerts, now, fetch), last, alerts, now, fetch);
      assert last !in init by {
        forall i | 0 <= i < |init| ensures init[i] != last {
          assert init[i] == keys[i];
        }
      }
      assert forall k :: k in keys <==> k in init || k == last by {
        assert keys == init + [last];
      }
    }
  }

  /** One iteration keeps the cached keys and changes at most the entry of its own key. */
  lemma RefreshKeyCache(s: Snapshot, key: string, alerts: map<string, seq<PriceAlert>>, now: int,
                        fetch: (string, string) -> Option<PriceInfo>)
    ensures RefreshKey(s, key, alerts, now, fetch).cache.Keys == s.cache.Keys
    ensures forall k :: k in s.cache ==>
              RefreshKey(s, key, alerts, now, fetch).cache[k] == if k == key then Refreshed(s.cache[k], k, now, fetch) else s.cache[k]
  {
  }

  /** Whatever the fetch answers, an entry that is not stale survives the refresh. */
  lemma RefreshKeepsUnstale(c: CachedPrice, key: string, now: int, fetch: (string, string) -> Option<PriceInfo>)
    requires !IsStale(c, now)
    ensures Refreshed(c, key, now, fetch) == c
  {
  }

  /** Insertion order of a string-keyed `Map`: each key once, exactly the keys of the map. */
  ghost predicate InsertionOrder(order: seq<string>, keys: set<string>)
  {
    (forall i, j :: 0 <= i < j < |order| ==> order[i] != order[j])
    && (forall k :: k in keys <==> k in order)
  }

  /** `map.set(k, v)` on the iteration order: a new key goes last, an existing one stays. */
  function Upsert(order: seq<string>, k: string): seq<string>
  {
    if k in order then order else order + [k]
  }

  class RealTimePriceService {
    var priceCache: map<string, CachedPrice>
    var cacheOrder: seq<string>
    var priceHistory: map<string, seq<HistoryEntry>>
    var priceAlerts: map<string, seq<PriceAlert>>
    var alertOrder: seq<string>
    var updateCallbacks: map<string, seq<Callback>>

    ghost predicate Valid()
      reads this
    {
      InsertionOrder(cacheOrder, priceCache.Keys) && InsertionOrder(alertOrder, priceAlerts.Keys)
    }

    constructor ()
      ensures Valid()
      ensures priceCache == map[] && priceHistory == map[] && priceAlerts == map[] && updateCallbacks == map[]
    {
      priceCache, cacheOrder := map[], [];
      priceHistory := map[];
      priceAlerts, alertOrder := map[], [];
      updateCallbacks := map[];
    }

    /** `getPriceHistory`: the recorded entries of a store and item, none for an unknown pair. */
    function GetPriceHistory(itemId: string, storeId: string): (h: seq<HistoryEntry>)
      reads this
      ensures Key(storeId, itemId) !in priceHistory ==> h == []
      ensures Key(storeId, itemId) in priceHistory ==> h == priceHistory[Key(storeId, itemId)]
    {
      ListAt(priceHistory, Key(storeId, itemId))
    }

    /** `addToPriceHistory`: only the history of this store and item changes. */
    method AddToPriceHistory(itemId: string, storeId: string, p: PriceInfo, now: int)
      modifies this
      ensures priceHistory == old(priceHistory)[Key(storeId, itemId) :=
                AppendAndPurge(old(GetPriceHistory(itemId, storeId)), NewEntry(itemId, storeId, p), now)]
      ensures GetPriceHistory(itemId, storeId) ==
                AppendAndPurge(old(GetPriceHistory(itemId, storeId)), NewEntry(itemId, storeId, p), now)
      ensures priceCache == old(priceCache) && cacheOrder == old(cacheOrder)
      ensures priceAlerts == old(priceAlerts) && alertOrder == old(alertOrder)
      ensures updateCallbacks == old(updateCallbacks)
    {
      var key := Key(storeId, itemId);
      var history := ListAt(priceHistory, key);
      priceHistory := priceHistory[key := AppendAndPurge(history, NewEntry(itemId, storeId, p), now)];
    }

    /** `checkPriceAlerts`: the alerts the event triggers, in their stored order; no alert is
        changed or removed. */
    method CheckPriceAlerts(event: PriceUpdateEvent) returns (fired: seq<PriceAlert>)
      ensures fired == Triggered(ListAt(priceAlerts, event.itemId), event.storeId, event.priceInfo)
      ensures forall i :: 0 <= i < |fired| ==>
                && fired[i] in ListAt(priceAlerts, event.itemId)
                && fired[i].isActive && fired[i].storeId == event.storeId
                && EffectivePrice(event.priceInfo) <= fired[i].targetPrice
    {
      var alerts := ListAt(priceAlerts, event.itemId);
      fired := [];
      var i := 0;
      while i < |alerts|
        invariant 0 <= i <= |alerts|
        invariant fired == Triggered(alerts[..i], event.storeId, event.priceInfo)
      {
        var alert := alerts[i];
        assert alerts[..i + 1][..i] == alerts[..i];
        if alert.isActive && alert.storeId == event.storeId {
          var currentPrice := OrElse(event.priceInfo.salePrice, event.priceInfo.price);
          if currentPrice <= alert.targetPrice {
            fired := fired + [alert];
          }
        }
        i := i + 1;
      }
      assert alerts[..i] == alerts;
    }

    /** `notifySubscribers`: every callback of the event's key, in registration order. */
    method NotifySubscribers(event: PriceUpdateEvent) returns (invoked: seq<Callback>)
      ensures invoked == ListAt(updateCallbacks, Key(event.storeId, event.itemId))
    {
      var callbacks := ListAt(updateCallbacks, Key(event.storeId, event.itemId));
      invoked := [];
      var i := 0;
      while i < |callbacks|
        invariant 0 <= i <= |callbacks|
        invariant invoked == callbacks[..i]
      {
        invoked := invoked + [callbacks[i]];
        i := i + 1;
      }
    }

    /** `handlePriceUpdate`: the cache entry of the event's key is replaced with a fresh one, the
        price is recorded in that key's history, and the triggered alerts and the notified
        callbacks are returned; no other cache entry or history changes. */
    method HandlePriceUpdate(event: PriceUpdateEvent, now: int) returns (fired: seq<PriceAlert>, notified: seq<Callback>)
      requires Valid()
      modifies this
      ensures Valid()
      ensures priceCache == old(priceCache)[Key(event.storeId, event.itemId) := CachedPrice(event.priceInfo, now, CacheTtl)]
      ensures cacheOrder == Upsert(old(cacheOrder), Key(event.storeId, event.itemId))
      ensures priceHistory == old(priceHistory)[Key(event.storeId, event.itemId) :=
                AppendAndPurge(old(GetPriceHistory(event.itemId, event.storeId)),
                               NewEntry(event.itemId, event.storeId, event.priceInfo), now)]
      ensures fired == Triggered(ListAt(priceAlerts, event.itemId), event.storeId, event.priceInfo)
      ensures notified == ListAt(updateCallbacks, Key(event.storeId, event.itemId))
      ensures priceAlerts == old(priceAlerts) && alertOrder == old(alertOrder)
      ensures updateCallbacks == old(updateCallbacks)
    {
      var key := Key(event.storeId, event.itemId);
      priceCache := priceCache[key := CachedPrice(event.priceInfo, now, CacheTtl)];
      cacheOrder := Upsert(cacheOrder, key);
      AddToPriceHistory(event.itemId, event.storeId, event.priceInfo, now);
      fired := CheckPriceAlerts(event);
      notified := NotifySubscribers(event);
    }

    /** `getRealTimePrice`, with `fetched` the answer of the store API. A fresh cached price is
        returned without asking the store (`consulted` is false) and nothing changes. Otherwise a
        fetched price is cached and recorded and returned; without one, the stale cached price
        or nothing is returned and nothing changes. */
    method GetRealTimePrice(itemId: string, store: Store, now: int, fetched: Option<PriceInfo>)
      returns (r: Option<PriceInfo>, consulted: bool)
      requires Valid()
      modifies this
      ensures Valid()
      ensures var key := Key(store.id, itemId);
              var hit := key in old(priceCache) && IsFresh(old(priceCache)[key], now);
              (consulted <==> !hit)
              && (hit ==> r == Some(old(priceCache)[key].priceInfo))
              && (!hit && fetched.Some? ==>
                    r == fetched
                    && priceCache == old(priceCache)[key := CachedPrice(fetched.value, now, CacheTtl)]
                    && cacheOrder == Upsert(old(cacheOrder), key)
                    && priceHistory == old(priceHistory)[key :=
                         AppendAndPurge(old(GetPriceHistory(itemId, store.id)), NewEntry(itemId, store.id, fetched.value), now)])
              && (!hit && fetched.None? ==>
                    r == (if key in old(priceCache) then Some(old(priceCache)[key].priceInfo) else None))
              && (hit || fetched.None? ==>
                    priceCache == old(priceCache) && cacheOrder == old(cacheOrder) && priceHistory == old(priceHistory))
      ensures priceAlerts == old(priceAlerts) && alertOrder == old(alertOrder)
      ensures updateCallbacks == old(updateCallbacks)
    {
      var key := Key(store.id, itemId);
      if key in priceCache && IsFresh(priceCache[key], now) {
        return Some(priceCache[key].priceInfo), false;
      }
      consulted := true;
      if fetched.Some? {
        priceCache := priceCache[key := CachedPrice(fetched.value, now, CacheTtl)];
        cacheOrder := Upsert(cacheOrder, key);
        AddToPriceHistory(itemId, store.id, fetched.value, now);
        return fetched, consulted;
      }
      r := if key in priceCache then Some(priceCache[key].priceInfo) else None;
    }

    /** `updateAllPrices` as written: the refresh passes `{ id: storeId } as Store`, whose chain
        is undefined, and `store.chain.toLowerCase()` runs before the `try` of the fetch. So the
        run rejects at the first stale entry and changes nothing, and otherwise has nothing to
        do. */
    method UpdateAllPricesAsWritten(now: int) returns (outcome: Result<(), string>)
      requires Valid()
      ensures outcome.Err? <==> exists k :: k in priceCache && IsStale(priceCache[k], now)
    {
      var keys := cacheOrder;
      var i := 0;
      while i < |keys|
        invariant 0 <= i <= |keys|
        invariant forall j :: 0 <= j < i ==> !IsStale(priceCache[keys[j]], now)
      {
        var key := keys[i];
        var cached := priceCache[key];
        if IsStale(cached, now) {
          return Err("TypeError: Cannot read properties of undefined (reading 'toLowerCase')");
        }
        i := i + 1;
      }
      outcome := Ok(());
      forall k | k in priceCache ensures !IsStale(priceCache[k], now) {
        var j := FirstIndex(keys, k);
        assert keys[j] == k;
      }
    }

    /** `updateAllPrices` with the cached entry's store passed to the fetch: every stale entry
        whose store answers is replaced, recorded in the history under the key its split ids
        give and checked against the alerts; fresh entries and entries aged exactly their time
        to live stay. */
    method UpdateAllPrices(now: int, fetch: (string, string) -> Option<PriceInfo>) returns (fired: seq<PriceAlert>)
      requires Valid()
      modifies this
      ensures Valid()
      ensures var r := RefreshAll(Snapshot(old(priceCache), old(priceHistory), []), old(cacheOrder), old(priceAlerts), now, fetch);
              priceCache == r.cache && priceHistory == r.history && fired == r.fired
      ensures priceCache.Keys == old(priceCache).Keys
      ensures forall k :: k in priceCache ==> priceCache[k] == Refreshed(old(priceCache)[k], k, now, fetch)
      ensures cacheOrder == old(cacheOrder) && priceAlerts == old(priceAlerts) && alertOrder == old(alertOrder)
      ensures updateCallbacks == old(updateCallbacks)
    {
      var keys := cacheOrder;
      ghost var start := Snapshot(priceCache, priceHistory, []);
      fired := [];
      var i := 0;
      while i < |keys|
        invariant 0 <= i <= |keys|
        invariant keys == cacheOrder == old(cacheOrder)
        invariant priceAlerts == old(priceAlerts) && alertOrder == old(alertOrder)
        invariant updateCallbacks == old(updateCallbacks)
        invariant RefreshAll(start, keys[..i], priceAlerts, now, fetch) == Snapshot(priceCache, priceHistory, fired)
        invariant priceCache.Keys == old(priceCache).Keys
      {
        assert keys[..i + 1][..i] == keys[..i];
        fired := RefreshEntry(keys[i], now, fetch, fired);
        i := i + 1;
      }
      assert keys[..i] == keys;
      RefreshAllCache(start, keys, priceAlerts, now, fetch);
    }

    /** One iteration of the refresh loop: a stale entry whose store answers is replaced, its
        price recorded and checked against the alerts, which are added to `firedBefore`. */
    method RefreshEntry(key: string, now: int, fetch: (string, string) -> Option<PriceInfo>,
                        firedBefore: seq<PriceAlert>) returns (firedAfter: seq<PriceAlert>)
      modifies this
      ensures Snapshot(priceCache, priceHistory, firedAfter)
           == RefreshKey(Snapshot(old(priceCache), old(priceHistory), firedBefore), key, priceAlerts, now, fetch)
      ensures cacheOrder == old(cacheOrder) && priceAlerts == old(priceAlerts) && alertOrder == old(alertOrder)
      ensures updateCallbacks == old(updateCallbacks)
    {
      firedAfter := firedBefore;
      if key in priceCache && IsStale(priceCache[key], now) {
        var ids := KeyIds(key);
        var storeId, itemId := ids.0, ids.1;
        var answer := fetch(itemId, storeId);
        if answer.Some? {
          priceCache := priceCache[key := CachedPrice(answer.value, now, CacheTtl)];
          AddToPriceHistory(itemId, storeId, answer.value, now);
          var f := CheckPriceAlerts(PriceUpdateEvent(PriceUpdate, storeId, itemId, answer.value, now));
          firedAfter := firedBefore + f;
        }
      }
    }

    /** `subscribeToPriceUpdates`: the callback goes last in its key's list. */
    method Subscribe(itemId: string, storeId: string, callback: Callback)
      modifies this
      ensures updateCallbacks == old(updateCallbacks)[Key(storeId, itemId) := old(ListAt(updateCallbacks, Key(storeId, itemId))) + [callback]]
      ensures priceCache == old(priceCache) && cacheOrder == old(cacheOrder) && priceHistory == old(priceHistory)
      ensures priceAlerts == old(priceAlerts) && alertOrder == old(alertOrder)
    {
      var key := Key(storeId, itemId);
      updateCallbacks := updateCallbacks[key := ListAt(updateCallbacks, key) + [callback]];
    }

    /** The unsubscribe function `subscribeToPriceUpdates` returns: the first occurrence of the
        callback in its key's list is removed; a callback not in the list changes nothing. */
    method Unsubscribe(itemId: string, storeId: string, callback: Callback)
      modifies this
      ensures var key := Key(storeId, itemId);
              if callback in old(ListAt(updateCallbacks, key))
              then updateCallbacks == old(updateCallbacks)[key := RemoveFirst(old(updateCallbacks)[key], callback)]
              else updateCallbacks == old(updateCallbacks)
      ensures priceCache == old(priceCache) && cacheOrder == old(cacheOrder) && priceHistory == old(priceHistory)
      ensures priceAlerts == old(priceAlerts) && alertOrder == old(alertOrder)
    {
      var key := Key(storeId, itemId);
      var callbacks := ListAt(updateCallbacks, key);
      if callback in callbacks {
        var index := FirstIndex(callbacks, callback);
        updateCallbacks := updateCallbacks[key := RemoveAt(callbacks, index)];
      }
    }

    /** `addPriceAlert`: appended to its item's alerts, duplicates included. */
    method AddPriceAlert(alert: PriceAlert)
      requires Valid()
      modifies this
      ensures Valid()
      ensures priceAlerts == old(priceAlerts)[alert.itemId := old(ListAt(priceAlerts, alert.itemId)) + [alert]]
      ensures alertOrder == Upsert(old(alertOrder), alert.itemId)
      ensures priceCache == old(priceCache) && cacheOrder == old(cacheOrder) && priceHistory == old(priceHistory)
      ensures updateCallbacks == old(updateCallbacks)
    {
      priceAlerts := priceAlerts[alert.itemId := ListAt(priceAlerts, alert.itemId) + [alert]];
      alertOrder := Upsert(alertOrder, alert.itemId);
    }

    /** `removePriceAlert`: walks the items in the map's order and splices the first alert with
        the id out of the first item holding one. */
    method RemovePriceAlert(alertId: string)
      requires Valid()
      modifies this
      ensures Valid()
      ensures priceAlerts == RemoveAlert(old(alertOrder), old(priceAlerts), alertId)
      ensures alertOrder == old(alertOrder)
      ensures priceCache == old(priceCache) && cacheOrder == old(cacheOrder) && priceHistory == old(priceHistory)
      ensures updateCallbacks == old(updateCallbacks)
    {
      var i := 0;
      while i < |alertOrder|
        invariant 0 <= i <= |alertOrder|
        invariant forall j :: 0 <= j < i ==> !HoldsAlert(priceAlerts, alertOrder[j], alertId)
      {
        var itemId := alertOrder[i];
        var alerts := priceAlerts[itemId];
        var index := FindById(alerts, alertId);
        if index.Some? {
          assert FirstHolder(alertOrder, priceAlerts, alertId, 0) == Some(i);
          priceAlerts := priceAlerts[itemId := RemoveAt(alerts, index.value)];
          return;
        }
        i := i + 1;
      }
      assert FirstHolder(alertOrder, priceAlerts, alertId, 0) == None;
    }

    /** `getPriceStats`: the statistics of this store and item's history. */
    function GetPriceStats(itemId: string, storeId: string): (s: PriceStats)
      reads this
      ensures GetPriceHistory(itemId, storeId) == [] ==> s == PriceStats(0.0, 0.0, 0.0, 0.0)
      ensures GetPriceHistory(itemId, storeId) != [] ==> s.lowestPrice <= s.averagePrice <= s.highestPrice
      ensures s == PriceStatsOf(GetPriceHistory(itemId, storeId))
    {
      PriceStatsOf(GetPriceHistory(itemId, storeId))
    }

    /** `destroy`: every map is emptied. */
    method Destroy()
      modifies this
      ensures Valid()
      ensures priceCache == map[] && priceHistory == map[] && priceAlerts == map[] && updateCallbacks == map[]
    {
      priceCache, cacheOrder := map[], [];
      priceHistory := map[];
      priceAlerts, alertOrder := map[], [];
      updateCallbacks := map[];
    }
  }

  /** A history of one repeated effective price has that price as its mean and no variance. */
  lemma ConstantHistoryHasNoVariance(h: seq<HistoryEntry>, c: real)
    requires |h| > 0
    requires forall i :: 0 <= i < |h| ==> OrElse(h[i].salePrice, h[i].price) == c
    ensures Stats.Mean(EntryPrices(h)) == c && Stats.Variance(EntryPrices(h)) == 0.0
  {
    var prices := EntryPrices(h);
    Stats.MeanOfConstant(prices, c);
    Stats.SquaredDeviationsOfConstant(prices, c);
  }
}
