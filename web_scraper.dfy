/** The store-website scraper of `webScraperService.ts`: the per-chain website table, the
    per-chain sliding one-minute rate limiter with its request statistics, the search query and
    search URL builders, the in-stock detection over a page's text, and the guard logic around a
    scrape. The scrape itself (network I/O or simulation) is a parameter returning a result or
    the message it throws; `Date.now()` is a `now` parameter; URL encoding and query-string
    serialisation are parameters. */
module WebScraper {
  import opened Js
  import opened Types

  // ---------------------------------------------------------------- configuration

  datatype ScrapingConfig = ScrapingConfig(
    userAgent: string,
    timeout: int,
    retryAttempts: int,
    delayBetweenRequests: int,
    useProxy: bool,
    proxyList: seq<string>,
    respectRobotsTxt: bool)

  const DefaultScrapingConfig: ScrapingConfig := ScrapingConfig(
    "Mozilla/5.0 (Windows NT 10.0; Win64; x64) AppleWebKit/537.36 (KHTML, like Gecko) Chrome/91.0.4472.124 Safari/537.36",
    10000, 3, 2000, false, [], true)

  /** A `Partial<ScrapingConfig>`. */
  datatype ScrapingConfigPatch = ScrapingConfigPatch(
    userAgent: Option<string>,
    timeout: Option<int>,
    retryAttempts: Option<int>,
    delayBetweenRequests: Option<int>,
    useProxy: Option<bool>,
    proxyList: Option<seq<string>>,
    respectRobotsTxt: Option<bool>)

  function Pick<T>(supplied: Option<T>, current: T): (r: T)
    ensures supplied.None? ==> r == current
    ensures supplied.Some? ==> r == supplied.value
  {
    if supplied.Some? then supplied.value else current
  }

  /** `{ ...config, ...patch }` */
  function MergeConfig(c: ScrapingConfig, p: ScrapingConfigPatch): ScrapingConfig
  {
    ScrapingConfig(
      Pick(p.userAgent, c.userAgent),
      Pick(p.timeout, c.timeout),
      Pick(p.retryAttempts, c.retryAttempts),
      Pick(p.delayBetweenRequests, c.delayBetweenRequests),
      Pick(p.useProxy, c.useProxy),
      Pick(p.proxyList, c.proxyList),
      Pick(p.respectRobotsTxt, c.respectRobotsTxt))
  }

  /** A patch supplying nothing leaves the configuration as it is; merging the same patch again
      changes nothing more. */
  lemma MergeConfigLaws(c: ScrapingConfig, p: ScrapingConfigPatch)
    ensures MergeConfig(c, ScrapingConfigPatch(None, None, None, None, None, None, None)) == c
    ensures MergeConfig(MergeConfig(c, p), p) == MergeConfig(c, p)
    ensures p.proxyList.Some? ==> MergeConfig(c, p).proxyList == p.proxyList.value
    ensures p.proxyList.None? ==> MergeConfig(c, p).proxyList == c.proxyList
  {
  }

  datatype SearchMethod = Get | Post

  datatype Selectors = Selectors(
    price: string,
    salePrice: Option<string>,
    inStock: string,
    productName: string,
    productImage: Option<string>)

  /** A store website. `searchParams` keeps the object's key order. */
  datatype StoreWebsiteConfig = StoreWebsiteConfig(
    name: string,
    baseUrl: string,
    searchUrl: string,
    selectors: Selectors,
    searchMethod: SearchMethod,
    searchParams: seq<(string, string)>,
    headers: Option<seq<(string, string)>>,
    requiresJavaScript: bool,
    rateLimit: int)

  /** The selectors every chain but Walmart, Target and Kroger uses. */
  const ProductSelectors: Selectors :=
    Selectors(".product-price", Some(".product-price-sale"), ".product-availability", ".product-name", None)

  function Website(name: string, baseUrl: string, searchUrl: string, selectors: Selectors,
                   searchParams: seq<(string, string)>, rateLimit: int): StoreWebsiteConfig
  {
    StoreWebsiteConfig(name, baseUrl, searchUrl, selectors, Get, searchParams, None, true, rateLimit)
  }

  /** The nine chains configured at construction, keyed by chain name. */
  function InitialStoreConfigs(): map<string, StoreWebsiteConfig>
  {
    map[
      "Walmart" := Website("Walmart", "https://www.walmart.com", "https://www.walmart.com/search",
        Selectors("[data-price-type=\"finalPrice\"] .price-characteristic",
                  Some("[data-price-type=\"finalPrice\"] .price-characteristic"),
                  "[data-testid=\"fulfillment-shipping\"]", "[data-testid=\"product-title\"]", None),
        [("q", "{query}")], 30),
      "Target" := Website("Target", "https://www.target.com", "https://www.target.com/s",
        Selectors("[data-test=\"product-price\"]", Some("[data-test=\"product-price-sale\"]"),
                  "[data-test=\"shipItButton\"]", "[data-test=\"product-title\"]", None),
        [("searchTerm", "{query}")], 30),
      "Kroger" := Website("Kroger", "https://www.kroger.com", "https://www.kroger.com/search",
        Selectors(".price-value", Some(".price-sale"), ".product-availability", ".product-name", None),
        [("query", "{query}")], 20),
      "Safeway" := Website("Safeway", "https://www.safeway.com", "https://www.safeway.com/shop/search-results.html",
        ProductSelectors, [("searchType", "default"), ("search-bar", "{query}")], 25),
      "Whole Foods" := Website("Whole Foods", "https://www.wholefoodsmarket.com", "https://www.wholefoodsmarket.com/search",
        ProductSelectors, [("q", "{query}")], 20),
      "Trader Joe's" := Website("Trader Joe's", "https://www.traderjoes.com", "https://www.traderjoes.com/search",
        ProductSelectors, [("q", "{query}")], 15),
      "Publix" := Website("Publix", "https://www.publix.com", "https://www.publix.com/shop/search",
        ProductSelectors, [("searchTerm", "{query}")], 20),
      "HEB" := Website("HEB", "https://www.heb.com", "https://www.heb.com/search",
        ProductSelectors, [("q", "{query}")], 25),
      "Meijer" := Website("Meijer", "https://www.meijer.com", "https://www.meijer.com/shopping/search.html",
        ProductSelectors, [("search", "{query}")], 20)
    ]
  }

  /** Every configured chain is stored under its own name, searched by GET with JavaScript and
      allowed a positive number of requests a minute. */
  lemma InitialStoreConfigsShape()
    ensures forall chain :: chain in InitialStoreConfigs() ==>
              var c := InitialStoreConfigs()[chain];
              c.name == chain && c.searchMethod == Get && c.requiresJavaScript && 15 <= c.rateLimit <= 30
    ensures "Walmart" in InitialStoreConfigs() && InitialStoreConfigs()["Walmart"].rateLimit == 30
    ensures "Trader Joe's" in InitialStoreConfigs() && InitialStoreConfigs()["Trader Joe's"].rateLimit == 15
  {
  }

  // ---------------------------------------------------------------- search query and URL

  /** `buildSearchQuery`: the brand, when truthy, then the name, joined by a space and trimmed. */
  function BuildSearchQuery(item: GroceryItem): (q: string)
    ensures item.brand.Some? && item.brand.value != "" ==> q == Trim(item.brand.value + " " + item.name)
    ensures !(item.brand.Some? && item.brand.value != "") ==> q == Trim(item.name)
    ensures q == [] || (!IsSpace(q[0]) && !IsSpace(q[|q| - 1]))
  {
    var parts := if item.brand.Some? && item.brand.value != "" then [item.brand.value, item.name] else [item.name];
    assert |parts| == 2 ==> Join(parts, " ") == parts[0] + " " + parts[1] by {
      if |parts| == 2 { assert parts[1..] == [parts[1]]; }
    }
    Trim(Join(parts, " "))
  }

  /** A brand and a name without surrounding white space give the brand, a space, the name. */
  lemma BuildSearchQueryOfTrimmed(item: GroceryItem)
    requires item.brand.Some? && item.brand.value != "" && item.name != ""
    requires !IsSpace(item.brand.value[0]) && !IsSpace(item.name[|item.name| - 1])
    ensures BuildSearchQuery(item) == item.brand.value + " " + item.name
  {
    var s := item.brand.value + " " + item.name;
    assert s[0] == item.brand.value[0] && s[|s| - 1] == item.name[|item.name| - 1];
    TrimOfTrimmed(s);
  }

  /** The query parameters with the first `{query}` of each value replaced by the encoded query. */
  function SearchParams(params: seq<(string, string)>, query: string, encode: string -> string): (r: seq<(string, string)>)
    ensures |r| == |params|
    ensures forall i :: 0 <= i < |r| ==>
              r[i].0 == params[i].0 && r[i].1 == ReplaceFirst(params[i].1, "{query}", encode(query))
  {
    seq(|params|, i requires 0 <= i < |params| => (params[i].0, ReplaceFirst(params[i].1, "{query}", encode(query))))
  }

  /** `buildSearchUrl`: for GET the search URL, `?` and the serialised parameters; for POST the
      search URL alone. */
  function BuildSearchUrl(config: StoreWebsiteConfig, query: string, encode: string -> string,
                          serialize: seq<(string, string)> -> string): (url: string)
    ensures config.searchMethod == Post ==> url == config.searchUrl
    ensures config.searchMethod == Get ==> config.searchUrl + "?" <= url
    ensures config.searchMethod == Get ==>
              url == config.searchUrl + "?" + serialize(SearchParams(config.searchParams, query, encode))
  {
    var url := config.searchUrl;
    if config.searchMethod == Get then
      url + "?" + serialize(SearchParams(config.searchParams, query, encode))
    else url
  }

  /** A parameter value that is exactly the placeholder becomes the encoded query. */
  lemma PlaceholderValue(e: string)
    ensures ReplaceFirst("{query}", "{query}", e) == e
  {
    assert OccursAt("{query}", "{query}", 0);
    var i := IndexOf("{query}", "{query}");
    assert i.Some? && i.value == 0;
  }

  /** Walmart's search URL carries the encoded query as its one parameter `q`. */
  lemma WalmartSearchUrl(query: string, encode: string -> string, serialize: seq<(string, string)> -> string)
    ensures BuildSearchUrl(InitialStoreConfigs()["Walmart"], query, encode, serialize)
            == "https://www.walmart.com/search?" + serialize([("q", encode(query))])
  {
    PlaceholderValue(encode(query));
    assert SearchParams([("q", "{query}")], query, encode) == [("q", encode(query))];
  }

  // ---------------------------------------------------------------- in-stock detection

  /** The index after the run of white space starting at `j`. */
  function SkipSpaces(s: string, j: nat): (k: nat)
    requires j <= |s|
    ensures j <= k <= |s| && (k == |s| || !IsSpace(s[k]))
    ensures forall m :: j <= m < k ==> IsSpace(s[m])
    decreases |s| - j
  {
    if j < |s| && IsSpace(s[j]) then SkipSpaces(s, j + 1) else j
  }

  /** A pattern `w0\s*w1\s*…` matches at `i`, each `\s*` taking all the white space there is. */
  predicate MatchesAt(s: string, i: nat, words: seq<string>)
    requires i <= |s|
    decreases |words|
  {
    |words| == 0 || (OccursAt(s, words[0], i) && MatchesAt(s, SkipSpaces(s, i + |words[0]|), words[1..]))
  }

  /** `s[j..k]` is a run of white space. */
  predicate AllSpace(s: string, j: int, k: int)
  {
    0 <= j <= k <= |s| && forall m :: j <= m < k ==> IsSpace(s[m])
  }

  /** The same pattern under backtracking semantics: each `\s*` may take any run of white space. */
  ghost predicate RegexAt(s: string, i: nat, words: seq<string>)
    requires i <= |s|
    decreases |words|
  {
    |words| == 0 ||
    (OccursAt(s, words[0], i) &&
     exists k :: AllSpace(s, i + |words[0]|, k) && RegexAt(s, k, words[1..]))
  }

  /** Words that are non-empty and do not start with white space. */
  predicate WellFormed(words: seq<string>)
  {
    forall w :: w in words ==> |w| > 0 && !IsSpace(w[0])
  }

  /** For such words taking all the white space loses no match: the greedy matcher agrees with
      the backtracking one. */
  lemma {:induction false} GreedyIsRegex(s: string, i: nat, words: seq<string>)
    requires i <= |s| && WellFormed(words)
    ensures MatchesAt(s, i, words) <==> RegexAt(s, i, words)
    decreases |words|
  {
    if |words| > 0 && OccursAt(s, words[0], i) {
      var j := i + |words[0]|;
      var rest := words[1..];
      assert WellFormed(rest) by {
        forall w | w in rest ensures |w| > 0 && !IsSpace(w[0]) {
          assert w in words;
        }
      }
      var g := SkipSpaces(s, j);
      GreedyIsRegex(s, g, rest);
      if RegexAt(s, i, words) {
        var k :| AllSpace(s, j, k) && RegexAt(s, k, rest);
        if |rest| > 0 {
          assert rest[0] in words;
          assert s[k..k + |rest[0]|] == rest[0];
          assert k < |s| && s[k] == rest[0][0];
          assert g == k;
        } else {
          assert MatchesAt(s, g, rest);
        }
      }
      if MatchesAt(s, i, words) {
        assert AllSpace(s, j, g) && RegexAt(s, g, rest);
      }
    }
  }

  /** The pattern matches somewhere from position `i` on. */
  function MatchFrom(s: string, words: seq<string>, i: nat): bool
    requires i <= |s|
    decreases |s| - i
  {
    MatchesAt(s, i, words) || (i < |s| && MatchFrom(s, words, i + 1))
  }

  /** The search finds a match exactly when there is one at some position from `i` on. */
  lemma {:induction false} MatchFromIff(s: string, words: seq<string>, i: nat)
    requires i <= |s|
    ensures MatchFrom(s, words, i) <==> exists k :: i <= k <= |s| && MatchesAt(s, k, words)
    decreases |s| - i
  {
    if i < |s| {
      MatchFromIff(s, words, i + 1);
    }
    if MatchFrom(s, words, i) {
      if !MatchesAt(s, i, words) {
        var k :| i + 1 <= k <= |s| && MatchesAt(s, k, words);
        assert i <= k;
      } else {
        var k: nat := i;
        assert i <= k <= |s| && MatchesAt(s, k, words);
        assert exists k :: i <= k <= |s| && MatchesAt(s, k, words);
      }
    } else {
      forall k | i <= k <= |s|
        ensures !MatchesAt(s, k, words)
      {
        if k > i {
          assert i + 1 <= k;
        }
      }
    }
  }

  /** `pattern.test(s)` */
  predicate Test(s: string, words: seq<string>)
  {
    MatchFrom(s, words, 0)
  }

  /** `/out\s*of\s*stock/`, `/unavailable/`, `/sold\s*out/`, `/temporarily\s*unavailable/` */
  const OutOfStockPatterns: seq<seq<string>> :=
    [["out", "of", "stock"], ["unavailable"], ["sold", "out"], ["temporarily", "unavailable"]]

  /** `/in\s*stock/`, `/available/`, `/add\s*to\s*cart/`, `/buy\s*now/` */
  const InStockPatterns: seq<seq<string>> :=
    [["in", "stock"], ["available"], ["add", "to", "cart"], ["buy", "now"]]

  /** Every word of every pattern is non-empty and starts with a letter, so the greedy matcher
      is the regular-expression search on these patterns. */
  lemma PatternsWellFormed(s: string, i: nat)
    requires i <= |s|
    ensures forall p :: p in OutOfStockPatterns + InStockPatterns ==> WellFormed(p)
    ensures forall p :: p in OutOfStockPatterns + InStockPatterns ==> (MatchesAt(s, i, p) <==> RegexAt(s, i, p))
  {
    OutOfStockPatternsWellFormed();
    InStockPatternsWellFormed();
    forall p | p in OutOfStockPatterns + InStockPatterns
      ensures WellFormed(p) && (MatchesAt(s, i, p) <==> RegexAt(s, i, p))
    {
      GreedyIsRegex(s, i, p);
    }
  }

  lemma OutOfStockPatternsWellFormed()
    ensures forall p :: p in OutOfStockPatterns ==> WellFormed(p)
  {
  }

  lemma InStockPatternsWellFormed()
    ensures forall p :: p in InStockPatterns ==> WellFormed(p)
  {
  }

  /** A page matching `a\s*b` already matches `b`. */
  lemma LastWordAlone(s: string, a: string, b: string)
    requires Test(s, [a, b])
    ensures Test(s, [b])
  {
    MatchFromIff(s, [a, b], 0);
    var k :| 0 <= k <= |s| && MatchesAt(s, k, [a, b]);
    SecondWordFound(s, k, a, b);
  }

  lemma SecondWordFound(s: string, k: nat, a: string, b: string)
    requires k <= |s| && MatchesAt(s, k, [a, b])
    ensures Test(s, [b])
  {
    SecondWord(s, k, a, b);
    var w := [b];
    MatchFromIff(s, w, 0);
    var j: nat := SkipSpaces(s, k + |a|);
    assert 0 <= j <= |s| && MatchesAt(s, j, w);
    assert exists k :: 0 <= k <= |s| && MatchesAt(s, k, w);
    assert MatchFrom(s, w, 0);
  }

  lemma SecondWord(s: string, k: nat, a: string, b: string)
    requires k <= |s| && MatchesAt(s, k, [a, b])
    ensures k + |a| <= |s| && MatchesAt(s, SkipSpaces(s, k + |a|), [b])
  {
    assert [a, b][0] == a && [a, b][1..] == [b];
  }

  /** So the fourth out-of-stock pattern, `temporarily\s*unavailable`, never decides anything:
      the second, `unavailable`, matches first. */
  lemma TemporarilyUnavailableIsRedundant(s: string)
    requires Test(s, ["temporarily", "unavailable"])
    ensures Test(s, ["unavailable"])
  {
    LastWordAlone(s, "temporarily", "unavailable");
  }

  /** `extractInStockWithRegex`: out of stock when an out-of-stock pattern occurs in the
      lower-cased page, in stock otherwise; the in-stock patterns are tried but can only confirm
      the default. */
  method ExtractInStock(html: string) returns (inStock: bool)
    ensures !inStock <==> exists p :: p in OutOfStockPatterns && Test(ToLower(html), p)
  {
    var htmlLower := ToLower(html);
    var k := 0;
    while k < |OutOfStockPatterns|
      invariant 0 <= k <= |OutOfStockPatterns|
      invariant forall j :: 0 <= j < k ==> !Test(htmlLower, OutOfStockPatterns[j])
    {
      if Test(htmlLower, OutOfStockPatterns[k]) {
        return false;
      }
      k := k + 1;
    }
    k := 0;
    while k < |InStockPatterns|
      invariant 0 <= k <= |InStockPatterns|
      invariant forall j :: 0 <= j < k ==> !Test(htmlLower, InStockPatterns[j])
      invariant forall p :: p in OutOfStockPatterns ==> !Test(htmlLower, p)
    {
      if Test(htmlLower, InStockPatterns[k]) {
        return true;
      }
      k := k + 1;
    }
    return true;
  }

  // ---------------------------------------------------------------- rate limiting

  /** The length of the rate-limit window in milliseconds. */
  const RateWindow: int := 60000

  /** The requests less than a minute before `now`. */
  function Recent(requests: seq<int>, now: int): seq<int>
  {
    Filter(requests, (t: int) => now - t < RateWindow)
  }

  /** Recording a request at `now` adds exactly one to the count at `now`. */
  lemma RecentAfterRecord(requests: seq<int>, now: int)
    ensures |Recent(requests + [now], now)| == |Recent(requests, now)| + 1
  {
    assert (requests + [now])[..|requests|] == requests;
  }

  /** As time passes the window can only lose requests. */
  lemma {:induction false} RecentShrinks(requests: seq<int>, earlier: int, later: int)
    requires earlier <= later
    ensures |Recent(requests, later)| <= |Recent(requests, earlier)|
  {
    if |requests| > 0 {
      RecentShrinks(requests[..|requests| - 1], earlier, later);
    }
  }

  /** At the moment of every recorded request, the requests in the minute up to and including it
      number at most `limit`. */
  predicate WithinLimit(requests: seq<int>, limit: int)
  {
    forall i :: 0 <= i < |requests| ==> |Recent(requests[..i + 1], requests[i])| <= limit
  }

  /** A request recorded after the window at `now` was found below the limit keeps the history
      within the limit. */
  lemma RecordKeepsWithinLimit(requests: seq<int>, now: int, limit: int)
    requires WithinLimit(requests, limit) && |Recent(requests, now)| < limit
    ensures WithinLimit(requests + [now], limit)
  {
    var r := requests + [now];
    forall i | 0 <= i < |r|
      ensures |Recent(r[..i + 1], r[i])| <= limit
    {
      if i < |requests| {
        assert r[..i + 1] == requests[..i + 1];
      } else {
        assert r[..i + 1] == requests + [now];
        RecentAfterRecord(requests, now);
      }
    }
  }

  /** Requests are only kept for configured chains; each chain's last request time is its
      latest recorded request; and no chain has ever been let past its rate limit. */
  predicate ValidState(counts: map<string, seq<int>>, times: map<string, int>, configs: map<string, StoreWebsiteConfig>)
  {
    counts.Keys == times.Keys
    && forall chain :: chain in counts ==>
         chain in configs && ChainValid(counts[chain], times[chain], configs[chain].rateLimit)
  }

  /** One chain's requests: at least one, the last at `last`, never past `limit`. */
  predicate ChainValid(requests: seq<int>, last: int, limit: int)
  {
    |requests| > 0 && last == requests[|requests| - 1] && WithinLimit(requests, limit)
  }

  /** Recording a request that the rate limit admits keeps the request state valid. */
  lemma ValidAfterRecord(counts: map<string, seq<int>>, times: map<string, int>,
                         configs: map<string, StoreWebsiteConfig>, chain: string, now: int)
    requires ValidState(counts, times, configs) && chain in configs
    requires |Recent(ListAt(counts, chain), now)| < configs[chain].rateLimit
    ensures ValidState(counts[chain := ListAt(counts, chain) + [now]], times[chain := now], configs)
  {
    var requests := ListAt(counts, chain) + [now];
    var counts', times' := counts[chain := requests], times[chain := now];
    RecordKeepsWithinLimit(ListAt(counts, chain), now, configs[chain].rateLimit);
    assert counts'.Keys == times'.Keys;
    assert ChainValid(requests, now, configs[chain].rateLimit);
    forall c | c in counts'
      ensures c in configs && ChainValid(counts'[c], times'[c], configs[c].rateLimit)
    {
      if c != chain {
        assert counts'[c] == counts[c] && times'[c] == times[c];
      }
    }
  }

  /** What `getScrapingStats` reports for a chain. */
  datatype ChainStats = ChainStats(requests: nat, lastRequest: int)

  /** What a scrape gives back. `lastUpdated` is the time in milliseconds rather than its ISO
      text. */
  datatype ScrapingResult = ScrapingResult(
    success: bool,
    price: Option<real>,
    salePrice: Option<real>,
    inStock: Option<bool>,
    lastUpdated: int,
    source: string,
    error: Option<string>)

  function Failure(source: string, now: int, message: string): ScrapingResult
  {
    ScrapingResult(false, None, None, None, now, source, Some(message))
  }

  /** What one scrape needs besides the request state: the item, the time, and the URL encoding,
      parameter serialisation and page scrape the model takes as parameters. */
  datatype FetchEnv = FetchEnv(
    item: GroceryItem,
    now: int,
    encode: string -> string,
    serialize: seq<(string, string)> -> string,
    scrape: string -> Result<ScrapingResult, string>)

  /** A scrape's result and the request state after it. */
  datatype Fetched = Fetched(result: ScrapingResult, counts: map<string, seq<int>>, times: map<string, int>)

  /** `getPriceFromStoreWebsite` on explicit request state: an unconfigured chain or one at its
      rate limit fails and records nothing; otherwise the scrape runs, and only a scrape that does
      not throw records one request at `now` for the store's chain. */
  function FetchOne(counts: map<string, seq<int>>, times: map<string, int>, configs: map<string, StoreWebsiteConfig>,
                    store: Store, env: FetchEnv): Fetched
  {
    var chain := store.chain;
    if chain !in configs then Fetched(Failure(chain, env.now, "Store configuration not found"), counts, times)
    else if |Recent(ListAt(counts, chain), env.now)| >= configs[chain].rateLimit then
      Fetched(Failure(chain, env.now, "Rate limit exceeded"), counts, times)
    else
      var outcome := env.scrape(BuildSearchUrl(configs[chain], BuildSearchQuery(env.item), env.encode, env.serialize));
      if outcome.Ok? then Fetched(outcome.value, counts[chain := ListAt(counts, chain) + [env.now]], times[chain := env.now])
      else Fetched(Failure(chain, env.now, outcome.error), counts, times)
  }

  /** One fetch records at most one request, at `now`, for the store's chain and none for any
      other chain. */
  lemma FetchOneRequests(counts: map<string, seq<int>>, times: map<string, int>,
                         configs: map<string, StoreWebsiteConfig>, store: Store, env: FetchEnv, c: string)
    ensures var after := FetchOne(counts, times, configs, store, env).counts;
            && (c != store.chain ==> ListAt(after, c) == ListAt(counts, c))
            && (ListAt(after, c) == ListAt(counts, c) || ListAt(after, c) == ListAt(counts, c) + [env.now])
  {
  }

  /** The stores' results by store id and the request state after fetching them in order. */
  datatype FetchedAll = FetchedAll(results: map<string, ScrapingResult>, counts: map<string, seq<int>>, times: map<string, int>)

  /** `getPricesFromMultipleStores`' loop: each store is fetched against the state the earlier
      ones left, and its result is set under its id. */
  function FetchAll(counts: map<string, seq<int>>, times: map<string, int>, configs: map<string, StoreWebsiteConfig>,
                    stores: seq<Store>, env: FetchEnv): FetchedAll
  {
    if |stores| == 0 then FetchedAll(map[], counts, times)
    else
      var before := FetchAll(counts, times, configs, stores[..|stores| - 1], env);
      var store := stores[|stores| - 1];
      var f := FetchOne(before.counts, before.times, configs, store, env);
      FetchedAll(before.results[store.id := f.result], f.counts, f.times)
  }

  /** The results hold exactly the stores' ids, and an id listed more than once holds the result
      of its last store, fetched against the state the stores before it left. */
  lemma {:induction false} FetchAllLastWins(counts: map<string, seq<int>>, times: map<string, int>,
                                            configs: map<string, StoreWebsiteConfig>, stores: seq<Store>,
                                            env: FetchEnv, i: nat)
    requires i < |stores| && forall j :: i < j < |stores| ==> stores[j].id != stores[i].id
    ensures var all, before := FetchAll(counts, times, configs, stores, env), FetchAll(counts, times, configs, stores[..i], env);
            stores[i].id in all.results
            && all.results[stores[i].id] == FetchOne(before.counts, before.times, configs, stores[i], env).result
  {
    var n := |stores| - 1;
    if i < n {
      var init := stores[..n];
      assert init[..i] == stores[..i];
      FetchAllLastWins(counts, times, configs, init, env, i);
    }
  }

  /** The results are keyed by the stores' ids and nothing else. */
  lemma {:induction false} FetchAllKeys(counts: map<string, seq<int>>, times: map<string, int>,
                                        configs: map<string, StoreWebsiteConfig>, stores: seq<Store>, env: FetchEnv)
    ensures forall id :: id in FetchAll(counts, times, configs, stores, env).results <==>
              exists i :: 0 <= i < |stores| && stores[i].id == id
  {
    if |stores| > 0 {
      var n := |stores| - 1;
      FetchAllKeys(counts, times, configs, stores[..n], env);
      assert forall i :: 0 <= i < n ==> stores[..n][i] == stores[i];
    }
  }

  /** How many of the stores belong to `chain`. */
  function ChainCount(stores: seq<Store>, chain: string): nat
  {
    if |stores| == 0 then 0
    else ChainCount(stores[..|stores| - 1], chain) + (if stores[|stores| - 1].chain == chain then 1 else 0)
  }

  /** Over the loop every chain's request list only grows, by requests at `now`, at most one per
      store of that chain; a chain none of the stores belongs to keeps its list. */
  lemma {:induction false} FetchAllRequests(counts: map<string, seq<int>>, times: map<string, int>,
                                            configs: map<string, StoreWebsiteConfig>, stores: seq<Store>,
                                            env: FetchEnv, chain: string)
    ensures var before, after := ListAt(counts, chain), ListAt(FetchAll(counts, times, configs, stores, env).counts, chain);
            && before <= after
            && (forall k :: |before| <= k < |after| ==> after[k] == env.now)
            && |after| <= |before| + ChainCount(stores, chain)
            && (ChainCount(stores, chain) == 0 ==> after == before)
  {
    if |stores| > 0 {
      var n := |stores| - 1;
      FetchAllRequests(counts, times, configs, stores[..n], env, chain);
      var before := FetchAll(counts, times, configs, stores[..n], env);
      FetchOneRequests(before.counts, before.times, configs, stores[n], env, chain);
    }
  }

  class WebScraperService {
    var config: ScrapingConfig
    var storeConfigs: map<string, StoreWebsiteConfig>
    var requestCounts: map<string, seq<int>>
    var lastRequestTimes: map<string, int>

    /** The request state is valid for the configured chains. */
    ghost predicate Valid()
      reads this
    {
      ValidState(requestCounts, lastRequestTimes, storeConfigs)
    }

    constructor ()
      ensures Valid()
      ensures config == DefaultScrapingConfig && storeConfigs == InitialStoreConfigs()
      ensures requestCounts == map[] && lastRequestTimes == map[]
    {
      config := DefaultScrapingConfig;
      storeConfigs := InitialStoreConfigs();
      requestCounts := map[];
      lastRequestTimes := map[];
    }

    /** `checkRateLimit`: false for an unconfigured chain; otherwise whether fewer requests than
        the chain's limit were recorded in the minute before `now`. */
    function CheckRateLimit(storeChain: string, now: int): (ok: bool)
      reads this
      ensures storeChain !in storeConfigs ==> !ok
      ensures storeChain in storeConfigs ==>
                (ok <==> |Recent(ListAt(requestCounts, storeChain), now)| < storeConfigs[storeChain].rateLimit)
    {
      var requests := ListAt(requestCounts, storeChain);
      if storeChain !in storeConfigs then false
      else |Recent(requests, now)| < storeConfigs[storeChain].rateLimit
    }

    /** A chain allowed at some moment stays allowed later, as the window only loses requests. */
    lemma RateLimitRelaxes(storeChain: string, earlier: int, later: int)
      requires earlier <= later && CheckRateLimit(storeChain, earlier)
      ensures CheckRateLimit(storeChain, later)
    {
      RecentShrinks(ListAt(requestCounts, storeChain), earlier, later);
    }

    /** `updateRateLimit`: one request at `now` is appended to the chain's list and becomes its
        last request time; no other chain changes. */
    method UpdateRateLimit(storeChain: string, now: int)
      modifies this
      ensures requestCounts == old(requestCounts)[storeChain := ListAt(old(requestCounts), storeChain) + [now]]
      ensures lastRequestTimes == old(lastRequestTimes)[storeChain := now]
      ensures config == old(config) && storeConfigs == old(storeConfigs)
    {
      var requests := ListAt(requestCounts, storeChain);
      requests := requests + [now];
      requestCounts := requestCounts[storeChain := requests];
      lastRequestTimes := lastRequestTimes[storeChain := now];
    }

    /** `getPriceFromStoreWebsite`: fails without a configuration for the chain or past its rate
        limit, recording nothing; otherwise scrapes the URL built from the item, and records the
        request only when the scrape does not throw, whose message becomes the failure. */
    method GetPriceFromStoreWebsite(store: Store, item: GroceryItem, now: int, encode: string -> string,
                                    serialize: seq<(string, string)> -> string,
                                    scrape: string -> Result<ScrapingResult, string>)
      returns (r: ScrapingResult)
      requires Valid()
      modifies this
      ensures Valid()
      ensures config == old(config) && storeConfigs == old(storeConfigs)
      ensures store.chain !in storeConfigs ==>
                r == Failure(store.chain, now, "Store configuration not found")
                && requestCounts == old(requestCounts) && lastRequestTimes == old(lastRequestTimes)
      ensures store.chain in storeConfigs && !old(CheckRateLimit(store.chain, now)) ==>
                r == Failure(store.chain, now, "Rate limit exceeded")
                && requestCounts == old(requestCounts) && lastRequestTimes == old(lastRequestTimes)
      ensures store.chain in storeConfigs && old(CheckRateLimit(store.chain, now)) ==>
                var outcome := scrape(BuildSearchUrl(storeConfigs[store.chain], BuildSearchQuery(item), encode, serialize));
                if outcome.Ok? then
                  r == outcome.value
                  && requestCounts == old(requestCounts)[store.chain := ListAt(old(requestCounts), store.chain) + [now]]
                  && lastRequestTimes == old(lastRequestTimes)[store.chain := now]
                else
                  r == Failure(store.chain, now, outcome.error)
                  && requestCounts == old(requestCounts) && lastRequestTimes == old(lastRequestTimes)
      ensures var f := FetchOne(old(requestCounts), old(lastRequestTimes), storeConfigs, store,
                                FetchEnv(item, now, encode, serialize, scrape));
              r == f.result && requestCounts == f.counts && lastRequestTimes == f.times
    {
      if store.chain !in storeConfigs {
        return Failure(store.chain, now, "Store configuration not found");
      }
      var storeConfig := storeConfigs[store.chain];
      if !CheckRateLimit(store.chain, now) {
        return Failure(store.chain, now, "Rate limit exceeded");
      }
      var searchQuery := BuildSearchQuery(item);
      var searchUrl := BuildSearchUrl(storeConfig, searchQuery, encode, serialize);
      var outcome := scrape(searchUrl);
      if outcome.Err? {
        return Failure(store.chain, now, outcome.error);
      }
      ValidAfterRecord(requestCounts, lastRequestTimes, storeConfigs, store.chain, now);
      UpdateRateLimit(store.chain, now);
      r := outcome.value;
    }

    /** `getPricesFromMultipleStores`, with the requests taken in store order at `now`: the
        results and the request state are those of fetching the stores one after another, so
        every store's id gets a result (its last store's), and the rate limits still hold. */
    method GetPricesFromMultipleStores(stores: seq<Store>, item: GroceryItem, now: int, encode: string -> string,
                                       serialize: seq<(string, string)> -> string,
                                       scrape: string -> Result<ScrapingResult, string>)
      returns (results: map<string, ScrapingResult>)
      requires Valid()
      modifies this
      ensures Valid()
      ensures config == old(config) && storeConfigs == old(storeConfigs)
      ensures forall i :: 0 <= i < |stores| ==> stores[i].id in results
      ensures forall id :: id in results ==> exists i :: 0 <= i < |stores| && stores[i].id == id
      ensures var all := FetchAll(old(requestCounts), old(lastRequestTimes), storeConfigs, stores,
                                  FetchEnv(item, now, encode, serialize, scrape));
              results == all.results && requestCounts == all.counts && lastRequestTimes == all.times
    {
      ghost var env := FetchEnv(item, now, encode, serialize, scrape);
      results := map[];
      var i := 0;
      while i < |stores|
        invariant 0 <= i <= |stores|
        invariant Valid()
        invariant config == old(config) && storeConfigs == old(storeConfigs)
        invariant var all := FetchAll(old(requestCounts), old(lastRequestTimes), storeConfigs, stores[..i], env);
                  results == all.results && requestCounts == all.counts && lastRequestTimes == all.times
      {
        assert stores[..i + 1][..i] == stores[..i];
        var result := GetPriceFromStoreWebsite(stores[i], item, now, encode, serialize, scrape);
        results := results[stores[i].id := result];
        i := i + 1;
      }
      assert stores[..i] == stores;
      FetchAllKeys(old(requestCounts), old(lastRequestTimes), storeConfigs, stores, env);
    }

    /** `getScrapingStats`: for every chain with recorded requests, how many there are in all
        (not only in the window) and the last request time, or 0 without one. */
    function GetScrapingStats(): (stats: map<string, ChainStats>)
      reads this
      ensures stats.Keys == requestCounts.Keys
      ensures forall chain :: chain in stats ==> stats[chain].requests == |requestCounts[chain]|
      ensures forall chain :: chain in stats ==>
                stats[chain].lastRequest == (if chain in lastRequestTimes then lastRequestTimes[chain] else 0)
    {
      map chain | chain in requestCounts ::
        ChainStats(|requestCounts[chain]|, if chain in lastRequestTimes then lastRequestTimes[chain] else 0)
    }

    /** Every chain reported has made a request, and its last request is its latest recorded
        one: the 0 default is never used. */
    lemma StatsOfValid()
      requires Valid()
      ensures forall chain :: chain in GetScrapingStats() ==>
                GetScrapingStats()[chain].requests > 0
                && GetScrapingStats()[chain].lastRequest == requestCounts[chain][|requestCounts[chain]| - 1]
    {
    }

    /** `clearStats`: both request maps are emptied. */
    method ClearStats()
      requires Valid()
      modifies this
      ensures Valid()
      ensures requestCounts == map[] && lastRequestTimes == map[]
      ensures config == old(config) && storeConfigs == old(storeConfigs)
    {
      requestCounts := map[];
      lastRequestTimes := map[];
    }

    /** `updateConfig` */
    method UpdateConfig(patch: ScrapingConfigPatch)
      modifies this
      ensures config == MergeConfig(old(config), patch)
      ensures storeConfigs == old(storeConfigs) && requestCounts == old(requestCounts)
      ensures lastRequestTimes == old(lastRequestTimes)
    {
      config := MergeConfig(config, patch);
    }

    /** `getConfig`: a copy of the configuration. */
    function GetConfig(): (c: ScrapingConfig)
      reads this
      ensures c == config
    {
      config
    }

    /** `addProxy`: the proxy is appended to the list; nothing else changes. */
    method AddProxy(proxyUrl: string)
      modifies this
      ensures config == old(config).(proxyList := old(config).proxyList + [proxyUrl])
      ensures storeConfigs == old(storeConfigs) && requestCounts == old(requestCounts)
      ensures lastRequestTimes == old(lastRequestTimes)
    {
      config := config.(proxyList := config.proxyList + [proxyUrl]);
    }

    /** `setProxyUsage` */
    method SetProxyUsage(enabled: bool)
      modifies this
      ensures config == old(config).(useProxy := enabled)
      ensures storeConfigs == old(storeConfigs) && requestCounts == old(requestCounts)
      ensures lastRequestTimes == old(lastRequestTimes)
    {
      config := config.(useProxy := enabled);
    }
  }
}
