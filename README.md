# Grocery price services, modelled in Dafny

This project models the five services behind the grocery-finder web app:

- **Real-time price engine** (`realTimePriceService.ts`). It keeps:
  - a price cache with a 30-minute time to live;
  - per store-and-item price histories kept for 30 days;
  - price alerts per item;
  - subscriber callbacks per store-and-item key.

  It also runs the periodic refresh of stale cache entries.
- **Price-monitoring analytics** (`priceMonitoringService.ts`):
  - trend classification, buy-or-wait advice, and volatility and stability scores;
  - a least-squares price prediction with its confidence, and the price-factor tags;
  - price-change alerts;
  - the map of running monitors.
- **Website scraper** (`webScraperService.ts`):
  - the per-chain website table;
  - the sliding one-minute rate limiter and its statistics;
  - the search query and search URL builders;
  - the in-stock detection over the page text.
- **Location-aware scraper** (`storeSpecificScraper.ts`):
  - the per-chain location table, with its update and upsert;
  - location URL placeholders;
  - the base-price, state-multiplier and unit-divisor tables.
- **Demonstration catalogue** (`groceryService.ts`): search, nearby stores, the price comparison with its filters and its best, average and range, popular items and categories.

The files are:

- `js.dfy` (module `Js`): the JavaScript behaviour the services rely on. This covers:
  - `||` on optional values;
  - numbers with infinities and NaN, for divisions by zero;
  - `toLowerCase`, `includes`, `replace` of a first occurrence and `trim`;
  - `[...new Set(xs)]`, `filter` and `find`.
- `stats.dfy` (module `Stats`): sums, the mean, the minimum, the maximum and the population variance.
- `types.dfy` (module `Types`): the shared records.
- One file per service: `real_time_price.dfy`, `price_monitoring.dfy`, `web_scraper.dfy`, `store_specific_scraper.dfy` and `grocery_service.dfy`.

Conventions:

- The services that update maps in place are classes with those maps as fields.
- Where a JavaScript `Map`'s iteration order matters, the class keeps the key order as a sequence beside the map. This applies to the price cache, the alert lists and the location table.
- Prices are reals and timestamps are integer milliseconds.
- The current time is the parameter `now`.
- Whatever comes from the network or from `Math.random` is a parameter:
  - a fetch answer or fetch function;
  - a scrape function;
  - the price list;
  - a draw function for random distances.
- An ISO timestamp string is modelled as its millisecond value.
- The model follows what the code computes, including where its comments promise more:
  - No price is rejected, so a negative price goes through. Only the predicted price is clamped at 0 (`Math.max(0, prediction)`, priceMonitoringService.ts:184).
  - `getPriceHistory` hands out the stored array itself, not a copy.
  - In exact real arithmetic, a history whose timestamps are all equal gives a NaN prediction (a division of zero by zero), not a non-negative number. The IEEE caveat is under "## Left out".

## Model

| member | source | states |
|---|---|---|
| RealTimePrice.KeyIdsRoundTrip | grocery-finder/src/services/realTimePriceService.ts:376 | splitting the key `${storeId}-${itemId}` on `-` gives back both ids when neither contains a dash |
| RealTimePrice.KeyIdsCutsDashedItem | grocery-finder/src/services/realTimePriceService.ts:376 | an item id with a dash is cut at the dash: store "1" with item "milk-whole" reads back as item "milk" |
| RealTimePrice.AgedExactlyTtl | grocery-finder/src/services/realTimePriceService.ts:153 | an entry aged exactly its time to live is neither served from the cache (strict `<` at line 153) nor refreshed (strict `>` at line 379) |
| RealTimePrice.AppendAndPurge | grocery-finder/src/services/realTimePriceService.ts:419-428 | after the push and the 30-day filter, the history is the old entries newer than the cutoff, in order, followed by the new entry when it is recent; it grows by at most one and holds only recent entries |
| RealTimePrice.PurgeIdempotent | grocery-finder/src/services/realTimePriceService.ts:421-426 | filtering an already filtered history at the same instant removes nothing more |
| RealTimePrice.Triggered | grocery-finder/src/services/realTimePriceService.ts:487-499 | the triggered alerts are exactly the item's active alerts for the event's store whose target is at least the effective price, each occurrence once, in stored order |
| RealTimePrice.RemoveFirst | grocery-finder/src/services/realTimePriceService.ts:444-450 | the unsubscribe leaves the list unchanged when the callback is absent; otherwise it splices out the first occurrence (`indexOf`), keeping the order of the rest, so exactly one occurrence is gone |
| RealTimePrice.UnsubscribeUndoesSubscribe | grocery-finder/src/services/realTimePriceService.ts:437-452 | unsubscribing a callback subscribed once gives back the list as it was before the subscription |
| RealTimePrice.SecondUnsubscribeIsNoOp | grocery-finder/src/services/realTimePriceService.ts:444-450 | once the only subscription of a callback is removed, calling the unsubscribe again changes nothing |
| RealTimePrice.FindById | grocery-finder/src/services/realTimePriceService.ts:477 | `findIndex` gives the first position whose alert has the id, or none when no alert has it |
| RealTimePrice.FirstHolder | grocery-finder/src/services/realTimePriceService.ts:476-484 | the walk over the alert map stops at the first item, in the map's order, that holds an alert with the id |
| RealTimePrice.RemoveAlertEffect | grocery-finder/src/services/realTimePriceService.ts:475-484 | with no alert carrying the id nothing changes; otherwise exactly the first matching alert of the first holding item is spliced out, and every other list is unchanged |
| RealTimePrice.PriceStatsOf | grocery-finder/src/services/realTimePriceService.ts:522-547 | all zeros for an empty history; otherwise the mean, minimum and maximum of the effective prices, with lowest ≤ average ≤ highest and a non-negative population variance |
| RealTimePrice.ConstantHistoryHasNoVariance | grocery-finder/src/services/realTimePriceService.ts:533-540 | a history of one repeated effective price has that price as its average and zero variance |
| RealTimePrice.RefreshAllCache | grocery-finder/src/services/realTimePriceService.ts:372-404 | over distinct keys, the refresh keeps the set of cached keys and replaces exactly the stale entries whose fetch answers with a fresh entry |
| RealTimePrice.RefreshKeepsUnstale | grocery-finder/src/services/realTimePriceService.ts:379 | whatever the fetch answers, an entry that is not stale survives the refresh unchanged |
| RealTimePrice.RealTimePriceService.RefreshEntry | grocery-finder/src/services/realTimePriceService.ts:376-402 | one pass of the refresh loop over a key: a stale entry whose fetch answers is replaced by a fresh entry, the answer is recorded in the history, and the alerts it triggers are appended to those already fired; the alerts, the key order and the subscribers are unchanged |
| RealTimePrice.RealTimePriceService.constructor | grocery-finder/src/services/realTimePriceService.ts:42-53 | all four maps start empty |
| RealTimePrice.RealTimePriceService.GetPriceHistory | grocery-finder/src/services/realTimePriceService.ts:431-435 | the recorded history of the store and item, or none for a pair never recorded |
| RealTimePrice.RealTimePriceService.AddToPriceHistory | grocery-finder/src/services/realTimePriceService.ts:407-428 | the key's history becomes the append-and-purge of the new entry; no other history, the cache, the alerts and the subscribers are unchanged |
| RealTimePrice.RealTimePriceService.CheckPriceAlerts | grocery-finder/src/services/realTimePriceService.ts:487-499 | the alerts fired are the triggered alerts of the event's item, in stored order; no alert is changed or removed |
| RealTimePrice.RealTimePriceService.NotifySubscribers | grocery-finder/src/services/realTimePriceService.ts:455-466 | every callback of the event's key is invoked, in registration order |
| RealTimePrice.RealTimePriceService.HandlePriceUpdate | grocery-finder/src/services/realTimePriceService.ts:107-125 | the event's cache entry becomes fresh (timestamp `now`, 30-minute TTL) and no other entry changes; the history records the event; the triggered alerts fire and the key's subscribers are notified |
| RealTimePrice.RealTimePriceService.GetRealTimePrice | grocery-finder/src/services/realTimePriceService.ts:148-176 | a fresh cached price is returned with no change; otherwise a fetched price is cached and recorded and returned; with no fetched price the stale cached price or null is returned and nothing changes |
| RealTimePrice.RealTimePriceService.UpdateAllPricesAsWritten | grocery-finder/src/services/realTimePriceService.ts:372-404 | as written, the refresh fails exactly when some cached entry is stale, because the store passed to the fetch has no chain |
| RealTimePrice.RealTimePriceService.UpdateAllPrices | grocery-finder/src/services/realTimePriceService.ts:372-404 | with the cached store passed to the fetch, every stale entry whose fetch answers is refreshed, every other entry is kept, and the alerts fired are those of the refresh in cache-key order |
| RealTimePrice.RealTimePriceService.Subscribe | grocery-finder/src/services/realTimePriceService.ts:437-442 | the callback is appended to its key's list; nothing else changes |
| RealTimePrice.RealTimePriceService.Unsubscribe | grocery-finder/src/services/realTimePriceService.ts:444-450 | the first occurrence of the callback in its key's list is removed, if any; nothing else changes |
| RealTimePrice.RealTimePriceService.AddPriceAlert | grocery-finder/src/services/realTimePriceService.ts:469-473 | the alert is appended to its item's list, duplicates included; a new item goes last in the map's order |
| RealTimePrice.RealTimePriceService.RemovePriceAlert | grocery-finder/src/services/realTimePriceService.ts:475-484 | the alert lists become the first-match removal over the map's order; the cache, the history and the subscribers are unchanged |
| RealTimePrice.RealTimePriceService.GetPriceStats | grocery-finder/src/services/realTimePriceService.ts:516-549 | the statistics of the stored history as `PriceStatsOf` gives them (mean, min and max of the effective prices, non-negative population variance); zeros for an empty history, otherwise lowest ≤ average ≤ highest |
| RealTimePrice.RealTimePriceService.Destroy | grocery-finder/src/services/realTimePriceService.ts:551-565 | every map is emptied |
| PriceMonitoring.Merge | grocery-finder/src/services/priceMonitoringService.ts:416-418 | a member the patch does not supply keeps its current value |
| PriceMonitoring.MergeEmptyIsIdentity | grocery-finder/src/services/priceMonitoringService.ts:416-418 | an empty patch leaves the configuration unchanged |
| PriceMonitoring.MergeIdempotent | grocery-finder/src/services/priceMonitoringService.ts:416-418 | applying the same patch twice is the same as applying it once |
| PriceMonitoring.MergeTakesSupplied | grocery-finder/src/services/priceMonitoringService.ts:416-418 | every supplied member replaces the current one |
| PriceMonitoring.Classify | grocery-finder/src/services/priceMonitoringService.ts:144-153 | for a finite change: below 2% in size gives stable/weak; otherwise its sign gives increasing or decreasing, strong exactly above 10% in size and moderate otherwise |
| PriceMonitoring.ClassifyNonFinite | grocery-finder/src/services/priceMonitoringService.ts:138-153 | against a zero oldest price, +∞ gives increasing/strong, −∞ gives decreasing/strong, and NaN falls through to decreasing/moderate |
| PriceMonitoring.InWindow | grocery-finder/src/services/priceMonitoringService.ts:124-128 | an entry is in the window exactly when it is strictly newer than one week before `now` |
| PriceMonitoring.InWindowKept | grocery-finder/src/services/priceMonitoringService.ts:124-128 | the window keeps every entry newer than a week, each occurrence once, in history order |
| PriceMonitoring.ConsistencyConfidenceBounds | grocery-finder/src/services/priceMonitoringService.ts:157 | against a positive square the confidence is a number in [0, 1], equal to 1 exactly when the variance is 0 |
| PriceMonitoring.ConsistencyConfidenceAtZero | grocery-finder/src/services/priceMonitoringService.ts:157 | against a zero oldest price the confidence is 0, or NaN when the variance is 0 too |
| PriceMonitoring.ConfidenceAgainstNonZero | grocery-finder/src/services/priceMonitoringService.ts:156-157 | against a non-zero oldest price the confidence is a number in [0, 1] |
| PriceMonitoring.ComputeTrend | grocery-finder/src/services/priceMonitoringService.ts:118-167 | no trend with fewer than two entries or fewer than two in the week window; otherwise the percentage change is `(current − oldest) / oldest × 100` over numbers with ±Infinity and NaN, measured from the first windowed price to the passed current price, and classified; the confidence is `max(0, 1 − variance / oldest²)` over the windowed prices, which lies in [0, 1] for a non-zero oldest price |
| PriceMonitoring.Advise | grocery-finder/src/services/priceMonitoringService.ts:208-240 | for a positive average and low: below 95% of the average, buy with savings average − current (positive) at 0.8; else below 110% of the lowest, buy with half those savings at 0.6; else wait with no savings at 0.7. For any inputs the answer is one of these three shapes |
| PriceMonitoring.AdviseBelowAverageExample | grocery-finder/src/services/priceMonitoringService.ts:225-229 | average 10, low 8, current 9: buy, saving 1, with confidence 0.8 |
| PriceMonitoring.AdviseNegativeSavingsExample | grocery-finder/src/services/priceMonitoringService.ts:230-234 | the second case can recommend a price above the average, with negative expected savings |
| PriceMonitoring.BestTimeToBuyFor | grocery-finder/src/services/priceMonitoringService.ts:195-248 | fewer than seven entries give `{false, 'Insufficient price history', 0, 0}`; a longer history gets the advice on its last effective price against the history's average and lowest price, never the insufficient reasoning |
| PriceMonitoring.BuyAtHistoricalLow | grocery-finder/src/services/priceMonitoringService.ts:208-234 | with positive prices, a latest price equal to the historical low is always a buy |
| PriceMonitoring.PriceVolatility | grocery-finder/src/services/priceMonitoringService.ts:309-317 | 0 for a zero average; in [0, 100] for a positive average; never above 100 |
| PriceMonitoring.PriceStability | grocery-finder/src/services/priceMonitoringService.ts:320-323 | never negative; for a non-negative average at most 100 and adding up to 100 with the volatility |
| PriceMonitoring.ScoresOfNonNegativeHistory | grocery-finder/src/services/priceMonitoringService.ts:309-323 | over a history of non-negative prices both scores lie in [0, 100] and add up to 100 |
| PriceMonitoring.HighVolatilityIffAbove20 | grocery-finder/src/services/priceMonitoringService.ts:378-381 | the volatility exceeds 20 exactly when the square-root-free test on the variance and the average holds |
| PriceMonitoring.FitLineIsLeastSquares | grocery-finder/src/services/priceMonitoringService.ts:332-345 | for timestamps that are not all equal the slope and intercept are finite and satisfy both normal equations of least squares, so the line passes through the means |
| PriceMonitoring.FitLineDegenerate | grocery-finder/src/services/priceMonitoringService.ts:339-344 | in exact real arithmetic, when all the timestamps are equal the slope is 0/0, and every prediction is NaN |
| PriceMonitoring.ConstantPricesPredictConstant | grocery-finder/src/services/priceMonitoringService.ts:332-345 | one repeated price, at timestamps not all equal, predicts that price at every time |
| PriceMonitoring.LinearRegressionPrediction | grocery-finder/src/services/priceMonitoringService.ts:332-345 | in exact real arithmetic: NaN when all timestamps are equal; a finite number otherwise; one repeated price (over timestamps that are not all equal) predicts that price |
| PriceMonitoring.LinearRegressionIsLeastSquares | grocery-finder/src/services/priceMonitoringService.ts:332-345 | over timestamps that are not all equal the fitted line is finite, satisfies both normal equations of least squares, and the prediction is its value one week after `now` |
| PriceMonitoring.PredictionConfidence | grocery-finder/src/services/priceMonitoringService.ts:347-357 | in [0, 1]; 0 for a zero average; otherwise 1 exactly when the variance is 0 |
| PriceMonitoring.MonthPrices | grocery-finder/src/services/priceMonitoringService.ts:391-400 | a month present in the history has prices, and each is some entry's effective price |
| PriceMonitoring.MonthEntriesKept | grocery-finder/src/services/priceMonitoringService.ts:391-400 | the prices of a month are the effective prices of all of that month's entries, each occurrence once, in history order |
| PriceMonitoring.MonthPricesOfEntries | grocery-finder/src/services/priceMonitoringService.ts:391-400 | the pushed prices of a month equal the effective prices of the month's entries that `filter` keeps |
| PriceMonitoring.Months | grocery-finder/src/services/priceMonitoringService.ts:391-403 | every month listed occurs in the history |
| PriceMonitoring.MonthsComplete | grocery-finder/src/services/priceMonitoringService.ts:391-403 | every month of the history is listed, and none twice |
| PriceMonitoring.MonthsInFirstOccurrenceOrder | grocery-finder/src/services/priceMonitoringService.ts:391-403 | the months come in the order of their first occurrence in the history, the key order of the `Map` |
| PriceMonitoring.MonthlyAverages | grocery-finder/src/services/priceMonitoringService.ts:403-406 | one average per listed month |
| PriceMonitoring.MonthlyAverageAt | grocery-finder/src/services/priceMonitoringService.ts:403-406 | the k-th average is the mean of the k-th month's prices, which are never empty |
| PriceMonitoring.SeasonalPattern | grocery-finder/src/services/priceMonitoringService.ts:386-413 | fewer than three months present never show a seasonal pattern |
| PriceMonitoring.DeviatesMeans | grocery-finder/src/services/priceMonitoringService.ts:409-412 | the deviation test: for a positive overall average, some monthly average more than 10% of it away from it; for a zero overall average, some monthly average not zero; never for a negative one |
| PriceMonitoring.SeasonalPatternMeans | grocery-finder/src/services/priceMonitoringService.ts:386-413 | with three or more months, a seasonal pattern exactly when the deviation test holds of the monthly averages, case by case on the sign of their overall average |
| PriceMonitoring.MonthlyAveragesOfConstant | grocery-finder/src/services/priceMonitoringService.ts:403-406 | when every price is `c`, every monthly average is `c` |
| PriceMonitoring.ConstantPricesAreNotSeasonal | grocery-finder/src/services/priceMonitoringService.ts:386-413 | a history of one repeated price shows no seasonal pattern |
| PriceMonitoring.PriceFactors | grocery-finder/src/services/priceMonitoringService.ts:359-384 | none for an empty history; each tag is present exactly when its test holds (seasonal pattern, sales on more than 30% of entries, volatility above 20); no tag twice |
| PriceMonitoring.ComputePrediction | grocery-finder/src/services/priceMonitoringService.ts:170-192 | nothing for fewer than seven entries; otherwise the regression one week ahead raised to 0 if negative, the prediction confidence and the price factors of the history, with timeframe "1week"; the price is finite and non-negative unless all timestamps are equal, when it is NaN |
| PriceMonitoring.FindPrice | grocery-finder/src/services/priceMonitoringService.ts:253 | the first current price of the store, or none when no price is for the store |
| PriceMonitoring.ChangeAlertFor | grocery-finder/src/services/priceMonitoringService.ts:251-269 | an alert exactly when the store has a current price, at least two history entries and truthy previous and current prices whose relative change is at least the threshold; its direction is the corrected one, comparing the two effective prices |
| PriceMonitoring.ChangeAlerts | grocery-finder/src/services/priceMonitoringService.ts:251-269 | one alert per store whose change reaches the threshold, in list order, each that store's own alert; every alert is for a listed store and at or above the threshold |
| PriceMonitoring.ChangeAlertsComplete | grocery-finder/src/services/priceMonitoringService.ts:251-269 | the stores behind the alerts are every alerting store of the list, each occurrence once, in list order |
| PriceMonitoring.SaleDropReportedAsIncrease | grocery-finder/src/services/priceMonitoringService.ts:280 | a sale that cuts the effective price from 10 to 9 while the regular price is 12 is reported as an increase |
| PriceMonitoring.KeyInjective | grocery-finder/src/services/priceMonitoringService.ts:166 | for one item, different store ids give different trend and prediction keys |
| PriceMonitoring.StoreFoldEffect | grocery-finder/src/services/priceMonitoringService.ts:100-107 | after the per-store loop, each listed store with a computed value holds it, and every other key keeps its value |
| PriceMonitoring.PriceMonitoringService.constructor | grocery-finder/src/services/priceMonitoringService.ts:44-52 | the default configuration (5-minute interval, 5% threshold, 30 days, notifications on) and no monitors, trends or predictions |
| PriceMonitoring.PriceMonitoringService.AnalyzePriceTrend | grocery-finder/src/services/priceMonitoringService.ts:118-167 | the computed trend, if any, is stored under the store and item; nothing else changes |
| PriceMonitoring.PriceMonitoringService.GeneratePricePrediction | grocery-finder/src/services/priceMonitoringService.ts:170-192 | the computed prediction, if any, is stored under the store and item; nothing else changes |
| PriceMonitoring.PriceMonitoringService.AnalyzeBestTimeToBuy | grocery-finder/src/services/priceMonitoringService.ts:195-248 | the advice for the store and item's history, with the insufficient answer below seven entries |
| PriceMonitoring.PriceMonitoringService.CheckPriceAlerts | grocery-finder/src/services/priceMonitoringService.ts:251-270 | the change alerts of the stores in store order, each at or above the configured threshold |
| PriceMonitoring.PriceMonitoringService.UpdatePriceAnalysis | grocery-finder/src/services/priceMonitoringService.ts:91-115 | nothing happens for an empty price list; otherwise each store with a price gets its trend and prediction stored, and the alerts are those of the price check |
| PriceMonitoring.PriceMonitoringService.StartMonitoring | grocery-finder/src/services/priceMonitoringService.ts:62-77 | a running monitor is left as it is and nothing changes; otherwise the monitor is registered under its key and the first analysis runs: with prices, each store with a price gets its trend and prediction stored and the alerts are those of the price check; without prices nothing else changes |
| PriceMonitoring.PriceMonitoringService.StopMonitoring | grocery-finder/src/services/priceMonitoringService.ts:80-88 | the key's monitor is removed, and an unknown key changes nothing |
| PriceMonitoring.PriceMonitoringService.GetPriceTrend | grocery-finder/src/services/priceMonitoringService.ts:294-296 | the trend stored for the store and item, or null when none is stored |
| PriceMonitoring.PriceMonitoringService.GetPricePrediction | grocery-finder/src/services/priceMonitoringService.ts:299-301 | the prediction stored for the store and item, or null when none is stored |
| PriceMonitoring.PriceMonitoringService.GetPriceVolatility | grocery-finder/src/services/priceMonitoringService.ts:309-317 | the volatility score, never above 100 |
| PriceMonitoring.PriceMonitoringService.GetPriceStability | grocery-finder/src/services/priceMonitoringService.ts:320-323 | the stability score, never negative |
| PriceMonitoring.PriceMonitoringService.UpdateConfig | grocery-finder/src/services/priceMonitoringService.ts:416-418 | the configuration becomes the merge with the patch; monitors, trends and predictions are unchanged |
| PriceMonitoring.PriceMonitoringService.GetConfig | grocery-finder/src/services/priceMonitoringService.ts:421-423 | the current configuration |
| PriceMonitoring.PriceMonitoringService.Destroy | grocery-finder/src/services/priceMonitoringService.ts:426-437 | every monitor is stopped, and the trends and predictions are cleared |
| WebScraper.Pick | grocery-finder/src/services/webScraperService.ts:534 | a supplied member wins over the current one |
| WebScraper.MergeConfigLaws | grocery-finder/src/services/webScraperService.ts:533-535 | an empty patch is the identity, the merge is idempotent, and a supplied proxy list replaces the current one |
| WebScraper.InitialStoreConfigsShape | grocery-finder/src/services/webScraperService.ts:77-249 | each configured chain is stored under its own name and searched by GET with JavaScript; Walmart allows 30 requests a minute and Trader Joe's 15 |
| WebScraper.BuildSearchQuery | grocery-finder/src/services/webScraperService.ts:297-301 | `trim(brand + " " + name)` for a non-empty brand, else `trim(name)`; the result has no white space at either end |
| WebScraper.BuildSearchQueryOfTrimmed | grocery-finder/src/services/webScraperService.ts:297-301 | a brand and a name without surrounding white space give brand, space, name |
| WebScraper.SearchParams | grocery-finder/src/services/webScraperService.ts:309-311 | each parameter keeps its key and has the first `{query}` of its value replaced by the encoded query |
| WebScraper.BuildSearchUrl | grocery-finder/src/services/webScraperService.ts:304-316 | POST gives the search URL unchanged; GET gives the search URL, `?` and the serialisation of the parameters with the encoded query substituted |
| WebScraper.PlaceholderValue | grocery-finder/src/services/webScraperService.ts:310 | a parameter value that is just the placeholder becomes the encoded query |
| WebScraper.WalmartSearchUrl | grocery-finder/src/services/webScraperService.ts:304-316 | Walmart's URL is its search URL with the single parameter `q` set to the encoded query |
| WebScraper.SkipSpaces | grocery-finder/src/services/webScraperService.ts:433-436 | `\s*` taken greedily: the run from `j` is all white space and stops at the end or at a non-space |
| WebScraper.GreedyIsRegex | grocery-finder/src/services/webScraperService.ts:426-436 | for patterns of non-empty words that do not start with white space, greedy `\s*` matching agrees with backtracking regex matching |
| WebScraper.MatchFromIff | grocery-finder/src/services/webScraperService.ts:443 | the search succeeds exactly when the pattern matches at some position |
| WebScraper.PatternsWellFormed | grocery-finder/src/services/webScraperService.ts:425-437 | all eight stock patterns meet the conditions under which greedy matching is regex matching |
| WebScraper.LastWordAlone | grocery-finder/src/services/webScraperService.ts:432-437 | a page matching `a\s*b` also matches `b` |
| WebScraper.SecondWordFound | grocery-finder/src/services/webScraperService.ts:432-437 | a match of `a\s*b` at one position yields a match of `b` |
| WebScraper.SecondWord | grocery-finder/src/services/webScraperService.ts:432-437 | a match of `a\s*b` at `k` has `b` matching right after the white space that follows `a` |
| WebScraper.TemporarilyUnavailableIsRedundant | grocery-finder/src/services/webScraperService.ts:434-436 | a page matching `temporarily\s*unavailable` already matches `unavailable`, so the fourth pattern never decides anything |
| WebScraper.ExtractInStock | grocery-finder/src/services/webScraperService.ts:424-457 | out of stock exactly when some out-of-stock pattern occurs in the lower-cased page; the in-stock patterns never change the answer |
| WebScraper.RecentAfterRecord | grocery-finder/src/services/webScraperService.ts:491-497 | recording a request at `now` adds exactly one to the window count at `now` |
| WebScraper.RecentShrinks | grocery-finder/src/services/webScraperService.ts:481-488 | as time passes the window count never grows |
| WebScraper.RecordKeepsWithinLimit | grocery-finder/src/services/webScraperService.ts:478-497 | a request recorded after the limit admitted it keeps every recorded moment within the limit |
| WebScraper.ValidAfterRecord | grocery-finder/src/services/webScraperService.ts:491-497 | recording an admitted request keeps requests for configured chains only, with each chain's last time its latest request |
| WebScraper.WebScraperService.constructor | grocery-finder/src/services/webScraperService.ts:51-67 | the default configuration, the initial website table and no recorded requests |
| WebScraper.WebScraperService.CheckRateLimit | grocery-finder/src/services/webScraperService.ts:478-489 | false for an unconfigured chain; otherwise true exactly when fewer requests than the chain's limit fall in the minute before `now` |
| WebScraper.WebScraperService.RateLimitRelaxes | grocery-finder/src/services/webScraperService.ts:478-489 | a chain admitted at one moment is admitted at every later moment |
| WebScraper.WebScraperService.UpdateRateLimit | grocery-finder/src/services/webScraperService.ts:491-497 | exactly one request at `now` is appended to the chain, and it becomes the chain's last request; the configuration and table are unchanged |
| WebScraper.WebScraperService.GetPriceFromStoreWebsite | grocery-finder/src/services/webScraperService.ts:252-294 | an unconfigured chain or one over its rate limit fails with the matching message and records nothing; otherwise the scrape's answer is returned and one request is recorded only when the scrape does not throw; result and state are those of `FetchOne` |
| WebScraper.WebScraperService.GetPricesFromMultipleStores | grocery-finder/src/services/webScraperService.ts:500-530 | the results hold exactly the store ids of the list; results and request state are those of fetching the stores one after another, and the request state stays valid |
| WebScraper.FetchOneRequests | grocery-finder/src/services/webScraperService.ts:491-497 | one fetch records at most one request, at `now`, for the store's chain and none for another chain |
| WebScraper.FetchAllLastWins | grocery-finder/src/services/webScraperService.ts:504-517 | each store id holds the result of the last store with that id, fetched against the request state the stores before it left |
| WebScraper.FetchAllKeys | grocery-finder/src/services/webScraperService.ts:500-530 | the results are keyed by exactly the stores' ids |
| WebScraper.FetchAllRequests | grocery-finder/src/services/webScraperService.ts:500-530 | each chain's request list only grows, by requests at `now`, at most one per store of that chain, and a chain no store belongs to keeps its list |
| WebScraper.WebScraperService.GetScrapingStats | grocery-finder/src/services/webScraperService.ts:553-564 | one entry per chain with recorded requests: the total number of requests, not the windowed count, and the last request time or 0 |
| WebScraper.WebScraperService.StatsOfValid | grocery-finder/src/services/webScraperService.ts:553-564 | every reported chain has made a request, and its last request is its latest recorded one |
| WebScraper.WebScraperService.ClearStats | grocery-finder/src/services/webScraperService.ts:567-570 | both request maps are emptied; the configuration and table are unchanged |
| WebScraper.WebScraperService.UpdateConfig | grocery-finder/src/services/webScraperService.ts:533-535 | the configuration becomes the merge with the patch; the request state is unchanged |
| WebScraper.WebScraperService.GetConfig | grocery-finder/src/services/webScraperService.ts:538-540 | the current configuration |
| WebScraper.WebScraperService.AddProxy | grocery-finder/src/services/webScraperService.ts:543-545 | the proxy is appended to the list; nothing else changes |
| WebScraper.WebScraperService.SetProxyUsage | grocery-finder/src/services/webScraperService.ts:548-550 | only the proxy flag changes |
| StoreSpecificScraper.MergeLocationConfigLaws | grocery-finder/src/services/storeSpecificScraper.ts:444 | an empty patch is the identity, the merge is idempotent, a supplied location URL is taken, and an unsupplied `requiresLocation` is kept |
| StoreSpecificScraper.InitialLocationConfigsShape | grocery-finder/src/services/storeSpecificScraper.ts:55-188 | the seven chains are listed once each in insertion order, each stored under its own name; all require a location, and only Target is located by zip code |
| StoreSpecificScraper.BuildLocationUrlSubstitutes | grocery-finder/src/services/storeSpecificScraper.ts:230-247 | for the store-id and zip-code methods, a template without the placeholder comes back unchanged, and otherwise its first occurrence is replaced by the store's id or zip code |
| StoreSpecificScraper.BuildLocationUrlWithoutCoordinates | grocery-finder/src/services/storeSpecificScraper.ts:240-243 | for the coordinate method, a template with neither placeholder comes back unchanged |
| StoreSpecificScraper.BasePricesBounded | grocery-finder/src/services/storeSpecificScraper.ts:291-322 | every listed base price lies in [1.49, 14.99], so none is falsy |
| StoreSpecificScraper.StateMultipliersBounded | grocery-finder/src/services/storeSpecificScraper.ts:329-344 | every listed multiplier lies in [0.80, 1.25] |
| StoreSpecificScraper.UnitDivisorsBounded | grocery-finder/src/services/storeSpecificScraper.ts:351-369 | every listed divisor lies in [0.0625, 453.592] |
| StoreSpecificScraper.BasePriceForItem | grocery-finder/src/services/storeSpecificScraper.ts:290-325 | the listed price of the item's id, 3.99 otherwise; always in [1.49, 14.99] |
| StoreSpecificScraper.LocationMultiplier | grocery-finder/src/services/storeSpecificScraper.ts:328-347 | the listed multiplier of the state, 0.95 for any other state; always in [0.80, 1.25] |
| StoreSpecificScraper.UnitDivisor | grocery-finder/src/services/storeSpecificScraper.ts:350-372 | the listed divisor of the unit, 1 for any other unit; never zero |
| StoreSpecificScraper.UnitDivisorExamples | grocery-finder/src/services/storeSpecificScraper.ts:350-372 | a dozen divides by 12, ounces by 16, and an unlisted unit such as "each" by 1 |
| StoreSpecificScraper.LocationMultiplierExamples | grocery-finder/src/services/storeSpecificScraper.ts:328-347 | California's multiplier is 1.25 and an unlisted state's is the default 0.95 |
| StoreSpecificScraper.LocationPrice | grocery-finder/src/services/storeSpecificScraper.ts:267-269 | the simulated price before rounding lies between 1.49 × 0.80 and 14.99 × 1.25 |
| StoreSpecificScraper.StoreSpecificScraper.constructor | grocery-finder/src/services/storeSpecificScraper.ts:41-45 | the initial location table, in its insertion order |
| StoreSpecificScraper.StoreSpecificScraper.GetLocationBasedPrice | grocery-finder/src/services/storeSpecificScraper.ts:191-227 | always the store's address and chain; for an unconfigured chain, a failure "Store configuration not found" that is out of stock; otherwise the scrape's result, or a failure carrying the thrown message |
| StoreSpecificScraper.StoreSpecificScraper.GetLocationBasedPricesFromMultipleStores | grocery-finder/src/services/storeSpecificScraper.ts:375-403 | the results hold exactly the stores' ids, each with the result of the last store in the list with that id |
| StoreSpecificScraper.StoreSpecificScraper.GetStoreLocationInfo | grocery-finder/src/services/storeSpecificScraper.ts:406-427 | an unconfigured chain gives an empty URL and not available; otherwise the built URL and the chain's `requiresLocation` |
| StoreSpecificScraper.StoreSpecificScraper.SupportsLocationBasedPricing | grocery-finder/src/services/storeSpecificScraper.ts:430-433 | false for an unconfigured chain, otherwise the chain's `requiresLocation` |
| StoreSpecificScraper.StoreSpecificScraper.LocationInfoAgreesWithSupport | grocery-finder/src/services/storeSpecificScraper.ts:406-433 | a store's location info is available exactly when its chain supports location-based pricing |
| StoreSpecificScraper.StoreSpecificScraper.GetSupportedStoreChains | grocery-finder/src/services/storeSpecificScraper.ts:436-438 | exactly the configured chains, each once, in insertion order |
| StoreSpecificScraper.StoreSpecificScraper.UpdateStoreConfig | grocery-finder/src/services/storeSpecificScraper.ts:441-446 | a configured chain takes the supplied members and keeps its place; an unknown chain changes nothing |
| StoreSpecificScraper.StoreSpecificScraper.AddStoreConfig | grocery-finder/src/services/storeSpecificScraper.ts:449-451 | the configuration is stored under its chain, new or replaced, and the chain is then among the supported chains |
| StoreSpecificScraper.StoreSpecificScraper.GetScrapingStats | grocery-finder/src/services/storeSpecificScraper.ts:454-456 | the website scraper's statistics, one entry per chain with recorded requests |
| GroceryService.SearchItems | grocery-finder/src/services/groceryService.ts:151-161 | exactly the catalogue items whose lower-cased name, brand or category contains the lower-cased query, each once, in catalogue order |
| GroceryService.SearchKeepsCatalogOrder | grocery-finder/src/services/groceryService.ts:155-160 | the items found come in catalogue order |
| GroceryService.EmptyQueryFindsEverything | grocery-finder/src/services/groceryService.ts:155-160 | the empty query finds the whole catalogue |
| GroceryService.GetStoresNearZipcode | grocery-finder/src/services/groceryService.ts:164-177 | for a zip code starting with `787`, every catalogue store in order, each with its drawn distance; otherwise none |
| GroceryService.StoresWithinRadius | grocery-finder/src/services/groceryService.ts:171-173 | with draws in [0, 1) and a non-negative radius, every store found lies within the radius |
| GroceryService.NearbyPrices | grocery-finder/src/services/groceryService.ts:186 | a price is kept exactly when it is for the item and at one of the stores |
| GroceryService.NearbyPricesKept | grocery-finder/src/services/groceryService.ts:186 | every matching price is kept, each occurrence once, in price-list order |
| GroceryService.StoreWithId | grocery-finder/src/services/groceryService.ts:191 | the first store of the list with the id |
| GroceryService.PairWithStores | grocery-finder/src/services/groceryService.ts:190-193 | each price paired with the item and its first matching store, in order |
| GroceryService.ApplyFilters | grocery-finder/src/services/groceryService.ts:196-203 | a store item remains exactly when it is at or below a truthy maximum price (0 sets no limit) and in stock when in-stock-only is set |
| GroceryService.ApplyFiltersKept | grocery-finder/src/services/groceryService.ts:196-203 | the two filters in turn equal one filter by the combined test: every passing store item remains, each occurrence once, in order |
| GroceryService.BestIndex | grocery-finder/src/services/groceryService.ts:206-208 | the first store item of minimal price, because the comparison is strict |
| GroceryService.Summarize | grocery-finder/src/services/groceryService.ts:205-218 | the best price is the first cheapest, the range's bounds are prices of the list with min equal to the best price, the average is the mean of the listed prices, and min ≤ average ≤ max |
| GroceryService.SelectedContents | grocery-finder/src/services/groceryService.ts:186-203 | the listed store items are exactly the item's prices at the stores that pass the filters |
| GroceryService.ComparePrices | grocery-finder/src/services/groceryService.ts:186-219 | when the comparison exists it summarises exactly the selected store items for the item; the error is the empty-reduce error |
| GroceryService.ComparePricesNull | grocery-finder/src/services/groceryService.ts:186-188 | null exactly when no store of the list prices the item |
| GroceryService.ComparePricesError | grocery-finder/src/services/groceryService.ts:196-208 | the empty-reduce error exactly when some store prices the item but the filters reject every price |
| GroceryService.GetItemPrices | grocery-finder/src/services/groceryService.ts:179-220 | the comparison for the catalogue item among the stores near the filters' zip code |
| GroceryService.CatalogueLookup | grocery-finder/src/services/groceryService.ts:182-183 | the item compared is the catalogue entry with the id |
| GroceryService.GetItemPricesOutcomes | grocery-finder/src/services/groceryService.ts:179-220 | null exactly for an unknown item or one without a nearby price; an error exactly when nearby prices exist but the filters reject them all |
| GroceryService.GetItemPricesContents | grocery-finder/src/services/groceryService.ts:186-218 | a comparison lists only nearby store items of the item that pass the filters, and lists every such one |
| GroceryService.GetPopularItems | grocery-finder/src/services/groceryService.ts:223-226 | the first five catalogue items, which is the whole catalogue |
| GroceryService.GetCategories | grocery-finder/src/services/groceryService.ts:229-232 | exactly the catalogue's categories, each once |
| GroceryService.CategoriesListed | grocery-finder/src/services/groceryService.ts:229-232 | the categories are Produce, Dairy, Bakery and Meat, in that order |
| GroceryService.CategoriesInFirstAppearanceOrder | grocery-finder/src/services/groceryService.ts:231 | the categories come in the order of their first appearance in the catalogue |
| Js.Find | grocery-finder/src/services/groceryService.ts:182 | `find` gives nothing exactly when no element passes, and otherwise the first element that passes |
| Js.FilterKeepsOrder | grocery-finder/src/services/groceryService.ts:156-160 | over distinct elements, `filter` keeps their relative order |
| Js.FilterKeeps | grocery-finder/src/services/groceryService.ts:156-160 | `filter` keeps exactly the passing elements, each occurrence once, in order: an increasing map from result positions onto every passing position |
| Js.KeepsIsFilter | grocery-finder/src/services/groceryService.ts:156-160 | that specification determines the result: any list keeping the passing elements so is the `filter` result |
| Js.KeepsSnoc | grocery-finder/src/services/groceryService.ts:156-160 | one more element is kept at the end exactly when it passes |
| Js.FilterSame | grocery-finder/src/services/groceryService.ts:196-203 | filters by tests that agree everywhere give the same list |
| Js.FilterOfFilter | grocery-finder/src/services/groceryService.ts:196-203 | filtering twice is filtering once by both tests |
| Js.DistinctKeepsFirstOccurrenceOrder | grocery-finder/src/services/groceryService.ts:231 | `[...new Set(xs)]` keeps each element at its first occurrence, in order |
| Js.DistinctOfNoRepeats | grocery-finder/src/services/groceryService.ts:231 | `[...new Set(xs)]` of a sequence without repeats is that sequence |
| Stats.SpreadZeroIffAllEqual | grocery-finder/src/services/priceMonitoringService.ts:339 | in exact real arithmetic, the slope's denominator n·Σx² − (Σx)² is zero when all the timestamps are equal and positive otherwise |

## Left out

- Network access, fetch and the WebSocket connection are not modelled. The store answers are parameters: a fetch answer, a fetch function, a scrape function, or the price list. The per-chain `fetch*Price` methods are not part of this model.
- `getRealTimePrices` is not modelled. `updatePriceAnalysis` takes the fetched prices as a parameter instead.
- Timers are not modelled: `setInterval`, `setTimeout`, and the delays between scraper requests. Async code is treated as sequential, and a started monitor is the pair of its item and stores.
- WebScraper.WebScraperService.GetPricesFromMultipleStores: every store of one `getPricesFromMultipleStores` call is fetched at the same `now`, because the 2-second delays between requests are not modelled. So with more stores of one chain than its rate limit, the model refuses the later ones, whereas the delayed requests of the source would see the oldest ones leave the 60-second window and be admitted.
- `Math.random` is not modelled. Random values are parameters: drawn distances and the price list. The simulated price of `scrapeLocationBasedPrice` (its random sale and stock flags), `generateSimulatedPrice` and `generateMockPrices` are not part of this model.
- IEEE double rounding is not modelled. Prices, sums and timestamps are exact reals, and only the special values ±Infinity and NaN of JavaScript numbers are kept. With doubles, the square of a 13-digit millisecond timestamp is rounded. So for three or more equal timestamps, `n * sumXX - sumX * sumX` (priceMonitoringService.ts:339) can be a small non-zero residue, and the source can then predict a finite or infinite price where this model predicts NaN.
- StoreSpecificScraper.BasePriceForItem: the model treats every unlisted id as absent and gives 3.99. In the source the table is a plain object literal. An id that names an `Object.prototype` property (`constructor`, `toString`, `valueOf`, `__proto__`, …) finds the inherited property, so `|| 3.99` does not apply and the simulated price becomes NaN.
- StoreSpecificScraper.LocationMultiplier: the model gives 0.95 for every unlisted state. In the source a state named after an `Object.prototype` property finds the inherited property instead, so the multiplier is not a number.
- StoreSpecificScraper.UnitDivisor: the model gives 1 for every unlisted unit. In the source a unit named after an `Object.prototype` property finds the inherited property instead, so the divisor is not a number.
- StoreSpecificScraper.LocationPrice: its bounds rest on the three lookups above, so they do not cover the inherited-property keys either.
- The display-only fields are omitted from the records: `phone` and `hours` of a store, and `imageUrl` and `barcode` of a grocery item (types/index.ts:12-13, 23-24). `getStoresNearZipcode` passes them on unchanged in the source; the model's stores do not carry them.
- StoreSpecificScraper.LocationPrice: stops before `Math.round(… * 100) / 100`, because real numbers do not model float rounding to cents.
- `Math.sqrt` is not modelled. The standard deviation is the parameter `sd`, with `sd ≥ 0` and `sd·sd` equal to the variance.
- Date parsing and ISO strings are not modelled. Timestamps are integer milliseconds, and `getMonth` is the parameter `monthOf`.
- The following are not modelled: `toFixed` message text, the `Notification` API, `console` logging, `encodeURIComponent` and `URLSearchParams` (the parameters `encode` and `serialize`), `extractPriceWithRegex` and `parseHTML`.
- The singleton `getInstance` functions are not modelled. Instances are constructed explicitly.
- Js.ToLower: lowers ASCII letters only, because the catalogue and the patterns are ASCII.
- RealTimePrice.RealTimePriceService.GetPriceHistory: returns the history as a value. The live-array aliasing of the source is not captured, and neither is that of the scraper's proxy list.
- PriceMonitoring.PriceMonitoringService.GetPriceVolatility: states only the upper bound of 100. The full bounds are stated by `PriceMonitoring.PriceVolatility` and `ScoresOfNonNegativeHistory` over the same statistics.
- PriceMonitoring.PriceMonitoringService.GetPriceStability: states only non-negativity. The full bounds are stated by `PriceMonitoring.PriceStability` and `ScoresOfNonNegativeHistory`.
- PriceMonitoring.Advise: states the three cases only for a positive average and lowest price; with a zero or negative one the JavaScript comparisons against infinities or NaN decide, and only the shape of the answer is stated.
- Js.ReplaceFirst: the replacement text is inserted literally; the `$&`, `$$` and other replacement patterns of `String.prototype.replace` are not interpreted. This matters for `buildLocationUrl` (storeSpecificScraper.ts:236-243) only if a store id or zip code contains `$`.
- GroceryService.ApplyFilters: truthiness of `maxPrice` is modelled as non-zero, ignoring a NaN maximum. The filters' `category` is not used, as in the source.
- React components and `apiConfig.ts` are not part of this model.

## Findings

| source | as written | input that shows it | evidently intended | confidence | as-written member | corrected member |
|---|---|---|---|---|---|---|
| grocery-finder/src/services/realTimePriceService.ts:381 | the periodic refresh passes `{ id: storeId } as Store`, whose `chain` is undefined, so `store.chain.toLowerCase()` throws and the refresh stops at the first stale entry | a cache holding one entry older than 30 minutes | each stale entry is refetched from its store and refreshed | not executed | RealTimePrice.RealTimePriceService.UpdateAllPricesAsWritten | RealTimePrice.RealTimePriceService.UpdateAllPrices |
| grocery-finder/src/services/priceMonitoringService.ts:280 | the alert direction compares the regular price with the previous effective price | previous effective price 10; current price 12 on sale at 9 (a 10% drop) is reported as "increased" | the direction compares the two effective prices that the percentage was computed from; the service path (`ChangeAlertFor`, `ChangeAlerts`, `CheckPriceAlerts`) reports this corrected direction, and `IncreasedAsWritten` keeps the direction as written | not executed | PriceMonitoring.SaleDropReportedAsIncrease | PriceMonitoring.ChangeAlertFor |
