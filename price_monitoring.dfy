/** The analytics of `priceMonitoringService.ts` over the histories of the real-time price engine:
    trend classification, buy-or-wait advice, a least-squares price prediction with its
    confidence, volatility and stability scores, price-factor detection and a percentage-change
    alert check, plus the bookkeeping of active monitors, stored trends and predictions and the
    monitoring configuration. Timers, notifications and logging are left out; `Date.now()` is a
    `now` parameter, `getMonth` a `monthOf` parameter and `Math.sqrt` a standard deviation `sd`
    supplied with its defining property. */
module PriceMonitoring {
  import opened Js
  import opened Types
  import Stats
  import opened RealTimePrice

  /** One week in milliseconds: the trend window and the prediction horizon. */
  const Week: int := 7 * 24 * 60 * 60 * 1000

  // ---------------------------------------------------------------- configuration

  datatype MonitoringConfig = MonitoringConfig(
    updateInterval: int,
    alertThreshold: real,
    maxHistoryDays: int,
    enableNotifications: bool)

  /** Five minutes between updates, alerts from a 5% change, 30 days of history, notifications on. */
  const DefaultConfig: MonitoringConfig := MonitoringConfig(5 * 60 * 1000, 5.0, 30, true)

  /** A `Partial<MonitoringConfig>`: the members a caller supplies. */
  datatype ConfigPatch = ConfigPatch(
    updateInterval: Option<int>,
    alertThreshold: Option<real>,
    maxHistoryDays: Option<int>,
    enableNotifications: Option<bool>)

  const EmptyPatch: ConfigPatch := ConfigPatch(None, None, None, None)

  function Pick<T>(supplied: Option<T>, current: T): T
  {
    if supplied.Some? then supplied.value else current
  }

  /** `{ ...config, ...patch }`: every supplied member replaces the current one. */
  function Merge(c: MonitoringConfig, p: ConfigPatch): (r: MonitoringConfig)
    ensures p.updateInterval.None? ==> r.updateInterval == c.updateInterval
    ensures p.alertThreshold.None? ==> r.alertThreshold == c.alertThreshold
    ensures p.maxHistoryDays.None? ==> r.maxHistoryDays == c.maxHistoryDays
    ensures p.enableNotifications.None? ==> r.enableNotifications == c.enableNotifications
  {
    MonitoringConfig(
      Pick(p.updateInterval, c.updateInterval),
      Pick(p.alertThreshold, c.alertThreshold),
      Pick(p.maxHistoryDays, c.maxHistoryDays),
      Pick(p.enableNotifications, c.enableNotifications))
  }

  /** An empty patch changes nothing. */
  lemma MergeEmptyIsIdentity(c: MonitoringConfig)
    ensures Merge(c, EmptyPatch) == c
  {
  }

  /** Applying the same patch twice is applying it once. */
  lemma MergeIdempotent(c: MonitoringConfig, p: ConfigPatch)
    ensures Merge(Merge(c, p), p) == Merge(c, p)
  {
  }

  /** The supplied members are exactly the ones the merge takes from the patch. */
  lemma MergeTakesSupplied(c: MonitoringConfig, p: ConfigPatch)
    ensures p.updateInterval.Some? ==> Merge(c, p).updateInterval == p.updateInterval.value
    ensures p.alertThreshold.Some? ==> Merge(c, p).alertThreshold == p.alertThreshold.value
    ensures p.maxHistoryDays.Some? ==> Merge(c, p).maxHistoryDays == p.maxHistoryDays.value
    ensures p.enableNotifications.Some? ==> Merge(c, p).enableNotifications == p.enableNotifications.value
  {
  }

  // ---------------------------------------------------------------- trends

  datatype Direction = Increasing | Decreasing | Stable

  datatype Strength = Strong | Moderate | Weak

  datatype PriceTrend = PriceTrend(
    direction: Direction,
    percentageChange: Number,
    trendStrength: Strength,
    confidence: Number)

  /** The direction and strength `analyzePriceTrend` reads off a percentage change: under 2% either
      way is stable and weak; otherwise the sign gives the direction and more than 10% is strong.
      A NaN change fails every comparison and so comes out decreasing and moderate. */
  function Classify(pc: Number): (r: (Direction, Strength))
    ensures pc.Finite? ==>
              && (-2.0 < pc.v < 2.0 <==> r == (Stable, Weak))
              && (pc.v >= 2.0 <==> r.0 == Increasing)
              && (pc.v <= -2.0 <==> r.0 == Decreasing)
              && (r.1 == Strong <==> (pc.v > 10.0 || pc.v < -10.0))
              && (r.1 == Moderate <==> (2.0 <= pc.v <= 10.0 || -10.0 <= pc.v <= -2.0))
  {
    if Less(Abs(pc), 2.0) then (Stable, Weak)
    else
      var strength := if Greater(Abs(pc), 10.0) then Strong else Moderate;
      if Greater(pc, 0.0) then (Increasing, strength) else (Decreasing, strength)
  }

  /** The changes a zero oldest price produces: an infinite rise, an infinite fall, or NaN. */
  lemma ClassifyNonFinite()
    ensures Classify(PosInfinity) == (Increasing, Strong)
    ensures Classify(NegInfinity) == (Decreasing, Strong)
    ensures Classify(NaN) == (Decreasing, Moderate)
  {
  }

  /** An entry strictly newer than a week before `now`. */
  function WindowTest(now: int): HistoryEntry -> bool
  {
    (e: HistoryEntry) => e.timestamp > now - Week
  }

  /** The history entries inside the trend window: every entry strictly newer than a week before
      `now`, and nothing else. */
  function InWindow(h: seq<HistoryEntry>, now: int): (r: seq<HistoryEntry>)
    ensures |r| <= |h|
    ensures forall i :: 0 <= i < |r| ==> r[i] in h && r[i].timestamp > now - Week
    ensures forall i :: 0 <= i < |h| && h[i].timestamp > now - Week ==> h[i] in r
  {
    Filter(h, WindowTest(now))
  }

  /** The window keeps each entry newer than a week once, in history order. */
  lemma InWindowKept(h: seq<HistoryEntry>, now: int)
    ensures Keeps(h, WindowTest(now), InWindow(h, now))
  {
    FilterKeeps(h, WindowTest(now));
  }

  /** `Math.max(0, 1 - v / b)` for a non-negative variance `v` and a square `b`. */
  function ConsistencyConfidence(v: real, b: real): Number
  {
    MaxWith(0.0, Minus(1.0, Div(v, b)))
  }

  /** With a positive square the confidence is a number in [0, 1], and it is 1 exactly when the
      variance is 0. */
  lemma ConsistencyConfidenceBounds(v: real, b: real)
    requires v >= 0.0 && Stats.Positive(b)
    ensures ConsistencyConfidence(v, b).Finite?
    ensures 0.0 <= ConsistencyConfidence(v, b).v <= 1.0
    ensures ConsistencyConfidence(v, b) == Finite(1.0) <==> v == 0.0
  {
    DivSign(v, b);
  }

  /** With a zero square the confidence is 0, or NaN when the variance is 0 too. */
  lemma ConsistencyConfidenceAtZero(v: real)
    requires v >= 0.0
    ensures ConsistencyConfidence(v, 0.0) == if v == 0.0 then NaN else Finite(0.0)
  {
  }

  /** Against a non-zero oldest price the confidence is a number in [0, 1]. */
  lemma ConfidenceAgainstNonZero(v: real, oldest: real)
    requires v >= 0.0 && oldest != 0.0
    ensures ConsistencyConfidence(v, oldest * oldest).Finite?
    ensures 0.0 <= ConsistencyConfidence(v, oldest * oldest).v <= 1.0
  {
    Stats.SquarePositive(oldest);
    ConsistencyConfidenceBounds(v, oldest * oldest);
  }

  /** A quotient by a positive number has the sign of the dividend. */
  lemma DivSign(a: real, b: real)
    requires b > 0.0
    ensures a >= 0.0 ==> a / b >= 0.0
    ensures a / b == 0.0 <==> a == 0.0
    ensures a / b > 0.0 <==> a > 0.0
  {
    assert b * (a / b) == a;
    if a > 0.0 {
      assert a / b > 0.0;
    }
  }

  /** What `analyzePriceTrend` stores: nothing without two history entries or without two of them
      in the window; otherwise the change from the oldest windowed price to the current price,
      classified, and a confidence from the windowed variance. */
  function ComputeTrend(h: seq<HistoryEntry>, current: PriceInfo, now: int): (r: Option<PriceTrend>)
    ensures r.None? <==> |h| < 2 || |InWindow(h, now)| < 2
    ensures r.Some? ==>
              var prices := EntryPrices(InWindow(h, now));
              var oldest, cur := prices[0], EffectivePrice(current);
              && (oldest != 0.0 ==> r.value.percentageChange == Finite((cur - oldest) / oldest * 100.0))
              && (oldest != 0.0 ==> r.value.confidence.Finite?
                                    && 0.0 <= r.value.confidence.v <= 1.0)
              && (oldest == 0.0 ==> r.value.confidence == Finite(0.0) || r.value.confidence == NaN)
              && (r.value.direction, r.value.trendStrength) == Classify(r.value.percentageChange)
    ensures r.Some? ==>
              var prices := EntryPrices(InWindow(h, now));
              var oldest := prices[0];
              && r.value.percentageChange == Mul(Div(EffectivePrice(current) - oldest, oldest), 100.0)
              && r.value.confidence == ConsistencyConfidence(Stats.Variance(prices), oldest * oldest)
  {
    var recent := InWindow(h, now);
    if |h| < 2 || |recent| < 2 then None
    else
      var prices := EntryPrices(recent);
      var oldest, cur := prices[0], EffectivePrice(current);
      var pc := Mul(Div(cur - oldest, oldest), 100.0);
      var (direction, strength) := Classify(pc);
      var variance := Stats.Variance(prices);
      Stats.VarianceNonNegative(prices);
      var trend := PriceTrend(direction, pc, strength, ConsistencyConfidence(variance, oldest * oldest));
      if oldest != 0.0 then
        ConfidenceAgainstNonZero(variance, oldest);
        Some(trend)
      else
        ConsistencyConfidenceAtZero(variance);
        Some(trend)
  }

  // ---------------------------------------------------------------- buy-or-wait advice

  /** The justification `analyzeBestTimeToBuy` writes; the percentage of the first case is kept as
      a number rather than formatted. */
  datatype Reasoning = InsufficientHistory | BelowAverage(percentBelow: Number) | CloseToHistoricalLow | AboveAverage

  datatype BestTimeToBuy = BestTimeToBuy(recommended: bool, reasoning: Reasoning, expectedSavings: real, confidence: real)

  /** The answer for a history of fewer than seven entries. */
  const Insufficient: BestTimeToBuy := BestTimeToBuy(false, InsufficientHistory, 0.0, 0.0)

  /** `(x / d) * 100 < k` for a positive `d` is `100 * x < k * d`. */
  lemma PercentBelow(x: real, d: real, k: real)
    requires d > 0.0
    ensures Less(Mul(Div(x, d), 100.0), k) <==> 100.0 * x < k * d
  {
    assert d * (x / d) == x;
    if x / d * 100.0 < k {
      assert (x / d * 100.0) * d < k * d;
    }
    if 100.0 * x < k * d {
      assert (x / d * 100.0) * d == 100.0 * x;
    }
  }

  /** The case split of `analyzeBestTimeToBuy` on the current price against the historical
      average and the historical low. For positive prices: at least 5% under the average is a buy
      with the full difference as savings and confidence 0.8; otherwise under 110% of the low is
      a buy with half the difference (negative when the price is above the average) and
      confidence 0.6; otherwise the advice is to wait, with confidence 0.7. */
  function Advise(current: real, average: real, lowest: real): (r: BestTimeToBuy)
    ensures average > 0.0 && current < 0.95 * average ==>
              r.recommended && r.expectedSavings == average - current && r.expectedSavings > 0.0
              && r.confidence == 0.8
    ensures average > 0.0 && lowest > 0.0 && current >= 0.95 * average && current < 1.1 * lowest ==>
              r == BestTimeToBuy(true, CloseToHistoricalLow, 0.5 * (average - current), 0.6)
    ensures average > 0.0 && lowest > 0.0 && current >= 0.95 * average && current >= 1.1 * lowest ==>
              r == BestTimeToBuy(false, AboveAverage, 0.0, 0.7)
    ensures || r == BestTimeToBuy(false, AboveAverage, 0.0, 0.7)
            || r == BestTimeToBuy(true, CloseToHistoricalLow, 0.5 * (average - current), 0.6)
            || (r.recommended && r.reasoning.BelowAverage? && r.expectedSavings == average - current
                && r.confidence == 0.8)
  {
    var priceVsAverage := Mul(Div(current, average), 100.0);
    var priceVsLowest := Mul(Div(current, lowest), 100.0);
    assert average > 0.0 ==> (Less(priceVsAverage, 95.0) <==> 100.0 * current < 95.0 * average) by {
      if average > 0.0 { PercentBelow(current, average, 95.0); }
    }
    assert lowest > 0.0 ==> (Less(priceVsLowest, 110.0) <==> 100.0 * current < 110.0 * lowest) by {
      if lowest > 0.0 { PercentBelow(current, lowest, 110.0); }
    }
    if Less(priceVsAverage, 95.0) then
      BestTimeToBuy(true, BelowAverage(Minus(100.0, priceVsAverage)), average - current, 0.8)
    else if Less(priceVsLowest, 110.0) then
      BestTimeToBuy(true, CloseToHistoricalLow, (average - current) * 0.5, 0.6)
    else
      BestTimeToBuy(false, AboveAverage, 0.0, 0.7)
  }

  /** Average 10.00, low 8.00 and current 9.00: a buy saving 1.00, with confidence 0.8. */
  lemma AdviseBelowAverageExample()
    ensures Advise(9.0, 10.0, 8.0) == BestTimeToBuy(true, BelowAverage(Finite(10.0)), 1.0, 0.8)
  {
  }

  /** The second case recommends buying at a price above the average, with negative savings. */
  lemma AdviseNegativeSavingsExample()
    ensures Advise(1.05, 1.0, 1.0).recommended && Advise(1.05, 1.0, 1.0).expectedSavings < 0.0
  {
  }

  /** The buy-or-wait advice for a history: too short a history gets the insufficient answer;
      otherwise the last effective price is weighed against the history's statistics. */
  function BestTimeToBuyFor(h: seq<HistoryEntry>): (r: BestTimeToBuy)
    ensures |h| < 7 ==> r == Insufficient
    ensures |h| >= 7 ==> r.reasoning != InsufficientHistory
    ensures |h| >= 7 ==>
              r == Advise(EntryPrices(h)[|h| - 1], PriceStatsOf(h).averagePrice, PriceStatsOf(h).lowestPrice)
  {
    if |h| < 7 then Insufficient
    else
      var current := EntryPrices(h)[|h| - 1];
      var stats := PriceStatsOf(h);
      Advise(current, stats.averagePrice, stats.lowestPrice)
  }

  /** With positive prices, a latest price equal to the historical low is always a buy. */
  lemma BuyAtHistoricalLow(h: seq<HistoryEntry>)
    requires |h| >= 7
    requires forall i :: 0 <= i < |h| ==> EntryPrices(h)[i] > 0.0
    requires EntryPrices(h)[|h| - 1] == PriceStatsOf(h).lowestPrice
    ensures BestTimeToBuyFor(h).recommended
  {
    var prices := EntryPrices(h);
    var stats := PriceStatsOf(h);
    Stats.MeanBounds(prices, stats.lowestPrice, stats.highestPrice);
    var current := prices[|h| - 1];
    assert current > 0.0 && stats.averagePrice > 0.0;
  }

  // ---------------------------------------------------------------- volatility and stability

  /** `getPriceVolatility`: the standard deviation `sd` of the history's effective prices as a
      percentage of their average, capped at 100, and 0 for a zero average. */
  function PriceVolatility(stats: PriceStats, sd: real): (v: real)
    requires sd >= 0.0 && sd * sd == stats.variance
    ensures stats.averagePrice == 0.0 ==> v == 0.0
    ensures stats.averagePrice > 0.0 ==> 0.0 <= v <= 100.0
    ensures v <= 100.0
  {
    if stats.averagePrice == 0.0 then 0.0
    else
      assert stats.averagePrice > 0.0 ==> sd / stats.averagePrice >= 0.0 by {
        if stats.averagePrice > 0.0 { DivSign(sd, stats.averagePrice); }
      }
      MinReal(100.0, sd / stats.averagePrice * 100.0)
  }

  /** `getPriceStability`: 100 minus the volatility, never negative; for a non-negative average
      it lies in [0, 100] and the two scores add up to 100. */
  function PriceStability(stats: PriceStats, sd: real): (s: real)
    requires sd >= 0.0 && sd * sd == stats.variance
    ensures s >= 0.0
    ensures stats.averagePrice >= 0.0 ==> s <= 100.0 && s + PriceVolatility(stats, sd) == 100.0
  {
    MaxReal(0.0, 100.0 - PriceVolatility(stats, sd))
  }

  /** A history of non-negative prices has both scores in [0, 100], adding up to 100. */
  lemma ScoresOfNonNegativeHistory(h: seq<HistoryEntry>, sd: real)
    requires forall i :: 0 <= i < |h| ==> EntryPrices(h)[i] >= 0.0
    requires sd >= 0.0 && sd * sd == PriceStatsOf(h).variance
    ensures 0.0 <= PriceVolatility(PriceStatsOf(h), sd) <= 100.0
    ensures 0.0 <= PriceStability(PriceStatsOf(h), sd) <= 100.0
    ensures PriceVolatility(PriceStatsOf(h), sd) + PriceStability(PriceStatsOf(h), sd) == 100.0
  {
    var prices := EntryPrices(h);
    if |prices| > 0 {
      Stats.MeanBounds(prices, 0.0, Stats.Max(prices));
    }
  }

  /** The volatility above 20, stated without the square root: a positive average whose square
      is less than 25 times the variance. */
  predicate HighVolatility(stats: PriceStats)
  {
    stats.averagePrice > 0.0 && stats.averagePrice * stats.averagePrice < 25.0 * stats.variance
  }

  /** The square-root-free test agrees with the volatility score exceeding 20. */
  lemma HighVolatilityIffAbove20(stats: PriceStats, sd: real)
    requires sd >= 0.0 && sd * sd == stats.variance
    ensures PriceVolatility(stats, sd) > 20.0 <==> HighVolatility(stats)
  {
    var a := stats.averagePrice;
    if a > 0.0 {
      var q := a / 5.0;
      assert sd / a * 100.0 > 20.0 <==> sd > q by {
        assert a * (sd / a) == sd;
        if sd / a * 100.0 > 20.0 {
          assert (sd / a) * a > (1.0 / 5.0) * a;
        }
        if sd > q {
          assert (sd / a) * a > (1.0 / 5.0) * a;
        }
      }
      SquareMonotone(sd, q);
      assert a * a == 25.0 * (q * q);
    } else if a < 0.0 {
      assert sd / a <= 0.0 by {
        assert (sd / a) * a == sd;
      }
    }
  }

  /** Squaring keeps the order of non-negative numbers, both ways. */
  lemma SquareMonotone(x: real, q: real)
    requires x >= 0.0 && q >= 0.0
    ensures x > q <==> x * x > q * q
  {
    if x > q {
      if q == 0.0 {
        Stats.SquarePositive(x);
      } else {
        assert x * x > x * q;
        assert x * q > q * q;
      }
    } else {
      assert x * x <= x * q;
      assert x * q <= q * q;
    }
  }

  // ---------------------------------------------------------------- least-squares prediction

  /** The timestamps of a history as numbers (`new Date(t).getTime()`). */
  function Timestamps(h: seq<HistoryEntry>): (r: seq<real>)
    ensures |r| == |h|
  {
    seq(|h|, i requires 0 <= i < |h| => h[i].timestamp as real)
  }

  /** A fitted line; a degenerate fit has non-finite members. */
  datatype Line = Line(slope: Number, intercept: Number)

  /** The ordinary least-squares line of `linearRegressionPrediction` through the points
      (xs[i], ys[i]): slope (nΣxy − ΣxΣy) / (nΣx² − (Σx)²), intercept (Σy − slope·Σx) / n. */
  function FitLine(ys: seq<real>, xs: seq<real>): Line
    requires |xs| == |ys| > 0
  {
    LineOf(|ys| as real, Stats.Sum(xs), Stats.Sum(ys), Stats.SumOfProducts(xs, ys), Stats.SumOfSquares(xs))
  }

  /** The line from the count and the sums Σx, Σy, Σxy, Σx². */
  function LineOf(n: real, sumX: real, sumY: real, sumXY: real, sumXX: real): Line
  {
    var slope := Div(n * sumXY - sumX * sumY, n * sumXX - sumX * sumX);
    var intercept := DivBy(Minus(sumY, Mul(slope, sumX)), n);
    Line(slope, intercept)
  }

  /** `slope * x + intercept` */
  function ValueAt(l: Line, x: real): Number
  {
    Add(Mul(l.slope, x), l.intercept)
  }

  /** `linearRegressionPrediction`: the least-squares line through (timestamp, price) evaluated one
      week after `now`; NaN when every timestamp is the same, a finite number otherwise, and the
      common price when every price is the same. */
  function LinearRegressionPrediction(prices: seq<real>, timestamps: seq<real>, now: int): (r: Number)
    requires |prices| == |timestamps| > 0
    ensures Stats.AllEqual(timestamps) ==> r == NaN
    ensures !Stats.AllEqual(timestamps) ==> r.Finite?
    ensures !Stats.AllEqual(timestamps) && (forall i :: 0 <= i < |prices| ==> prices[i] == prices[0]) ==>
              r == Finite(prices[0])
  {
    var x := (now + Week) as real;
    if Stats.AllEqual(timestamps) then
      FitLineDegenerate(prices, timestamps, x);
      ValueAt(FitLine(prices, timestamps), x)
    else
      FitLineIsLeastSquares(prices, timestamps);
      assert (forall i :: 0 <= i < |prices| ==> prices[i] == prices[0]) ==>
               ValueAt(FitLine(prices, timestamps), x) == Finite(prices[0]) by {
        if forall i :: 0 <= i < |prices| ==> prices[i] == prices[0] {
          ConstantPricesPredictConstant(prices, timestamps, prices[0], x);
        }
      }
      ValueAt(FitLine(prices, timestamps), x)
  }

  /** For timestamps not all equal the prediction is the value one week after `now` of a finite
      line satisfying both normal equations of least squares. */
  lemma LinearRegressionIsLeastSquares(prices: seq<real>, timestamps: seq<real>, now: int)
    requires |prices| == |timestamps| > 0 && !Stats.AllEqual(timestamps)
    ensures var l := FitLine(prices, timestamps);
            && l.slope.Finite? && l.intercept.Finite?
            && NormalEquations(|timestamps| as real, Stats.Sum(timestamps), Stats.Sum(prices),
                               Stats.SumOfProducts(timestamps, prices), Stats.SumOfSquares(timestamps),
                               l.slope.v, l.intercept.v)
            && LinearRegressionPrediction(prices, timestamps, now) == Finite(l.slope.v * (now + Week) as real + l.intercept.v)
  {
    FitLineIsLeastSquares(prices, timestamps);
  }

  /** The two normal equations of least squares, for sums and a line (a, b): the residuals sum to
      zero and are uncorrelated with x. */
  predicate NormalEquations(n: real, sx: real, sy: real, sxy: real, sxx: real, a: real, b: real)
  {
    sy == a * sx + n * b && sxy == a * sxx + b * sx
  }

  lemma NormalEquationsOfFormulas(n: real, sx: real, sy: real, sxy: real, sxx: real, a: real, b: real)
    requires n > 0.0 && n * sxx - sx * sx != 0.0
    requires a == (n * sxy - sx * sy) / (n * sxx - sx * sx)
    requires b == (sy - a * sx) / n
    ensures NormalEquations(n, sx, sy, sxy, sxx, a, b)
  {
    var d := n * sxx - sx * sx;
    assert a * d == n * sxy - sx * sy;
    assert n * b == sy - a * sx;
    calc {
      n * (a * sxx + b * sx);
      a * (n * sxx) + (n * b) * sx;
      a * (n * sxx) + (sy - a * sx) * sx;
      a * d + sx * sy;
      n * sxy;
    }
  }

  /** For timestamps that are not all equal the fit is finite and is the least-squares line: it
      satisfies both normal equations, and so passes through the point of the means. */
  lemma FitLineIsLeastSquares(ys: seq<real>, xs: seq<real>)
    requires |xs| == |ys| > 0 && !Stats.AllEqual(xs)
    ensures FitLine(ys, xs).slope.Finite? && FitLine(ys, xs).intercept.Finite?
    ensures var a, b := FitLine(ys, xs).slope.v, FitLine(ys, xs).intercept.v;
            NormalEquations(|xs| as real, Stats.Sum(xs), Stats.Sum(ys), Stats.SumOfProducts(xs, ys),
                            Stats.SumOfSquares(xs), a, b)
            && a * Stats.Mean(xs) + b == Stats.Mean(ys)
  {
    var n, sx, sy := |xs| as real, Stats.Sum(xs), Stats.Sum(ys);
    var sxy, sxx := Stats.SumOfProducts(xs, ys), Stats.SumOfSquares(xs);
    Stats.SpreadPositive(xs);
    LineOfLeastSquares(n, sx, sy, sxy, sxx);
    assert FitLine(ys, xs) == LineOf(n, sx, sy, sxy, sxx);
    assert Stats.Mean(xs) == sx / n && Stats.Mean(ys) == sy / n;
  }

  /** The line of sums whose slope denominator is positive is finite, satisfies both normal
      equations and passes through the point of the means. */
  lemma LineOfLeastSquares(n: real, sx: real, sy: real, sxy: real, sxx: real)
    requires n > 0.0 && Stats.Positive(n * sxx - sx * sx)
    ensures LineOf(n, sx, sy, sxy, sxx).slope.Finite? && LineOf(n, sx, sy, sxy, sxx).intercept.Finite?
    ensures var a, b := LineOf(n, sx, sy, sxy, sxx).slope.v, LineOf(n, sx, sy, sxy, sxx).intercept.v;
            NormalEquations(n, sx, sy, sxy, sxx, a, b) && a * (sx / n) + b == sy / n
  {
    var d := n * sxx - sx * sx;
    var a := (n * sxy - sx * sy) / d;
    assert LineOf(n, sx, sy, sxy, sxx).slope == Finite(a);
    var b := (sy - a * sx) / n;
    assert LineOf(n, sx, sy, sxy, sxx).intercept == Finite(b);
    NormalEquationsOfFormulas(n, sx, sy, sxy, sxx, a, b);
    MeansOnLine(n, sx, sy, a, b);
  }

  lemma MeansOnLine(n: real, sx: real, sy: real, a: real, b: real)
    requires n > 0.0 && sy == a * sx + n * b
    ensures a * (sx / n) + b == sy / n
  {
    assert sy / n == (a * sx) / n + (n * b) / n;
  }

  /** When all the timestamps are equal both sums of the slope are zero, so every prediction is
      NaN. */
  lemma FitLineDegenerate(ys: seq<real>, xs: seq<real>, x: real)
    requires |xs| == |ys| > 0 && Stats.AllEqual(xs)
    ensures FitLine(ys, xs).slope == NaN && ValueAt(FitLine(ys, xs), x) == NaN
  {
    var c := xs[0];
    var n := |ys| as real;
    assert forall i :: 0 <= i < |xs| ==> xs[i] == c;
    Stats.SumOfConstant(xs, c);
    Stats.SumOfSquaresOfConstant(xs, c);
    Stats.SumOfProductsConstantLeft(xs, ys, c);
    DegenerateLine(n, c, Stats.Sum(xs), Stats.Sum(ys), Stats.SumOfProducts(xs, ys), Stats.SumOfSquares(xs));
  }

  lemma DegenerateLine(n: real, c: real, sx: real, sy: real, sxy: real, sxx: real)
    requires sx == n * c && sxy == c * sy && sxx == n * (c * c)
    ensures LineOf(n, sx, sy, sxy, sxx).slope == NaN
  {
    assert n * sxy - sx * sy == 0.0 by {
      assert n * (c * sy) == (n * c) * sy;
    }
    assert n * sxx - sx * sx == 0.0 by {
      assert n * (n * (c * c)) == (n * c) * (n * c);
    }
  }

  /** A run of one price, at timestamps that are not all equal, predicts that price at every
      instant. */
  lemma ConstantPricesPredictConstant(ys: seq<real>, xs: seq<real>, c: real, x: real)
    requires |xs| == |ys| > 0 && !Stats.AllEqual(xs)
    requires forall i :: 0 <= i < |ys| ==> ys[i] == c
    ensures ValueAt(FitLine(ys, xs), x) == Finite(c)
  {
    Stats.SumOfConstant(ys, c);
    Stats.SumOfProductsConstantRight(xs, ys, c);
    Stats.SpreadPositive(xs);
    FlatLine(|ys| as real, c, Stats.Sum(xs), Stats.Sum(ys), Stats.SumOfProducts(xs, ys), Stats.SumOfSquares(xs), x);
  }

  lemma FlatLine(n: real, c: real, sx: real, sy: real, sxy: real, sxx: real, x: real)
    requires n > 0.0 && Stats.Positive(n * sxx - sx * sx)
    requires sy == n * c && sxy == c * sx
    ensures ValueAt(LineOf(n, sx, sy, sxy, sxx), x) == Finite(c)
  {
    assert n * sxy - sx * sy == 0.0 by {
      assert n * (c * sx) == sx * (n * c);
    }
    var d := n * sxx - sx * sx;
    assert 0.0 / d == 0.0;
    assert (sy - 0.0 * sx) / n == c;
  }

  /** `calculatePredictionConfidence`: 1 minus the variance over the squared average, kept in
      [0, 1]; 0 for a zero average. A positive spread lowers it; no spread gives 1. */
  function PredictionConfidence(prices: seq<real>): (c: real)
    requires |prices| > 0
    ensures 0.0 <= c <= 1.0
    ensures Stats.Mean(prices) == 0.0 ==> c == 0.0
    ensures Stats.Mean(prices) != 0.0 ==> (c == 1.0 <==> Stats.Variance(prices) == 0.0)
  {
    var volatility := Stats.Variance(prices);
    var averagePrice := Stats.Mean(prices);
    Stats.VarianceNonNegative(prices);
    if averagePrice == 0.0 then 0.0
    else
      Stats.SquarePositive(averagePrice);
      DivSign(volatility, averagePrice * averagePrice);
      var normalizedVolatility := MinReal(1.0, volatility / (averagePrice * averagePrice));
      MaxReal(0.0, 1.0 - normalizedVolatility)
  }

  // ---------------------------------------------------------------- price factors

  /** An entry whose month (by `monthOf`, standing for `getMonth`) is `m`. */
  function InMonth(m: int, monthOf: int -> int): HistoryEntry -> bool
  {
    (e: HistoryEntry) => monthOf(e.timestamp) == m
  }

  /** The prices `detectSeasonalPattern` pushes for month `m`: the effective prices of exactly the
      entries of that month, each once, in history order. */
  function MonthPrices(h: seq<HistoryEntry>, m: int, monthOf: int -> int): (r: seq<real>)
    ensures MonthOccurs(h, m, monthOf) ==> |r| > 0
    ensures forall k :: 0 <= k < |r| ==> exists i :: 0 <= i < |h| && r[k] == OrElse(h[i].salePrice, h[i].price)
  {
    if |h| == 0 then []
    else
      var init, e := h[..|h| - 1], h[|h| - 1];
      var r := MonthPrices(init, m, monthOf);
      assert forall i :: 0 <= i < |init| ==> init[i] == h[i];
      if monthOf(e.timestamp) == m then r + [OrElse(e.salePrice, e.price)] else r
  }

  /** The prices of a month are the effective prices of the month's entries as `filter` keeps
      them: all of them, each occurrence once, in history order. */
  lemma MonthEntriesKept(h: seq<HistoryEntry>, m: int, monthOf: int -> int)
    ensures var entries := Filter(h, InMonth(m, monthOf));
            Keeps(h, InMonth(m, monthOf), entries) && MonthPrices(h, m, monthOf) == EntryPrices(entries)
  {
    FilterKeeps(h, InMonth(m, monthOf));
    MonthPricesOfEntries(h, m, monthOf);
  }

  lemma {:induction false} MonthPricesOfEntries(h: seq<HistoryEntry>, m: int, monthOf: int -> int)
    ensures MonthPrices(h, m, monthOf) == EntryPrices(Filter(h, InMonth(m, monthOf)))
  {
    if |h| > 0 {
      var init, e := h[..|h| - 1], h[|h| - 1];
      MonthPricesOfEntries(init, m, monthOf);
      var entries := Filter(init, InMonth(m, monthOf));
      assert EntryPrices(entries + [e]) == EntryPrices(entries) + [OrElse(e.salePrice, e.price)];
    }
  }

  /** Every month of `ms` occurs in the history. */
  predicate MonthsPresent(h: seq<HistoryEntry>, ms: seq<int>, monthOf: int -> int)
  {
    forall j :: 0 <= j < |ms| ==> MonthOccurs(h, ms[j], monthOf)
  }

  /** Some entry of the history falls in month `m`. */
  predicate MonthOccurs(h: seq<HistoryEntry>, m: int, monthOf: int -> int)
  {
    exists i :: 0 <= i < |h| && monthOf(h[i].timestamp) == m
  }

  /** The month of every entry, in history order. */
  function EntryMonths(h: seq<HistoryEntry>, monthOf: int -> int): (all: seq<int>)
    ensures |all| == |h|
  {
    seq(|h|, i requires 0 <= i < |h| => monthOf(h[i].timestamp))
  }

  /** The months of a history (a `Map`'s key order): each occurs in the history. */
  function Months(h: seq<HistoryEntry>, monthOf: int -> int): (ms: seq<int>)
    ensures MonthsPresent(h, ms, monthOf)
  {
    var all := EntryMonths(h, monthOf);
    var ms := Distinct(all);
    assert forall j :: 0 <= j < |ms| ==> exists i :: 0 <= i < |all| && all[i] == ms[j];
    ms
  }

  /** Every month of the history is listed, and none twice. */
  lemma MonthsComplete(h: seq<HistoryEntry>, monthOf: int -> int)
    ensures var ms := Months(h, monthOf);
            && (forall i :: 0 <= i < |h| ==> monthOf(h[i].timestamp) in ms)
            && (forall j, k :: 0 <= j < k < |ms| ==> ms[j] != ms[k])
  {
    var all := EntryMonths(h, monthOf);
    forall i | 0 <= i < |h|
      ensures monthOf(h[i].timestamp) in Months(h, monthOf)
    {
      assert all[i] == monthOf(h[i].timestamp);
    }
  }

  /** The months come in the order of their first occurrence in the history. */
  lemma MonthsInFirstOccurrenceOrder(h: seq<HistoryEntry>, monthOf: int -> int, j: nat, k: nat)
    requires j < k < |Months(h, monthOf)|
    ensures var ms, all := Months(h, monthOf), EntryMonths(h, monthOf);
            ms[j] in all && ms[k] in all && FirstIndex(all, ms[j]) < FirstIndex(all, ms[k])
  {
    DistinctKeepsFirstOccurrenceOrder(EntryMonths(h, monthOf), j, k);
  }

  /** The average price of each month in `ms`, in the order of `ms`. */
  function MonthlyAverages(h: seq<HistoryEntry>, ms: seq<int>, monthOf: int -> int): (r: seq<real>)
    requires MonthsPresent(h, ms, monthOf)
    ensures |r| == |ms|
  {
    if |ms| == 0 then []
    else [Stats.Mean(MonthPrices(h, ms[0], monthOf))] + MonthlyAverages(h, ms[1..], monthOf)
  }

  /** The `k`-th average is the mean of the prices of the `k`-th month. */
  lemma {:induction false} MonthlyAverageAt(h: seq<HistoryEntry>, ms: seq<int>, monthOf: int -> int, k: nat)
    requires MonthsPresent(h, ms, monthOf) && k < |ms|
    ensures |MonthPrices(h, ms[k], monthOf)| > 0
    ensures MonthlyAverages(h, ms, monthOf)[k] == Stats.Mean(MonthPrices(h, ms[k], monthOf))
  {
    assert MonthOccurs(h, ms[k], monthOf);
    if k > 0 {
      assert MonthsPresent(h, ms[1..], monthOf) by {
        assert forall j :: 0 <= j < |ms| - 1 ==> ms[1..][j] == ms[j + 1];
      }
      MonthlyAverageAt(h, ms[1..], monthOf, k - 1);
      assert ms[1..][k - 1] == ms[k];
    }
  }

  /** `|x - y|` */
  function Distance(x: real, y: real): (d: real)
    ensures d >= 0.0
  {
    if x < y then y - x else x - y
  }

  /** `detectSeasonalPattern`: with at least three months present, the monthly averages deviate
      by the test below. */
  function SeasonalPattern(h: seq<HistoryEntry>, monthOf: int -> int): (r: bool)
    ensures |Months(h, monthOf)| < 3 ==> !r
  {
    var ms := Months(h, monthOf);
    var averages := MonthlyAverages(h, ms, monthOf);
    if |averages| < 3 then false else Deviates(averages)
  }

  /** The largest distance of an average from the average of the averages, divided by that
      overall average, exceeds 0.1. */
  function Deviates(averages: seq<real>): bool
    requires |averages| > 0
  {
    var overall := Stats.Mean(averages);
    var deviations := seq(|averages|, i requires 0 <= i < |averages| => Distance(averages[i], overall));
    Greater(Div(Stats.Max(deviations), overall), 0.1)
  }

  /** What the deviation test means, by the sign of the overall average `o`: for a positive `o`,
      some average is more than 10% of `o` away from it; for a zero `o`, some average is not zero
      (the quotient is infinite, where otherwise it is NaN); a negative `o` never passes. */
  lemma DeviatesMeans(averages: seq<real>)
    requires |averages| > 0
    ensures var overall := Stats.Mean(averages);
            && (overall > 0.0 ==>
                  (Deviates(averages) <==> exists k :: 0 <= k < |averages| && Distance(averages[k], overall) > 0.1 * overall))
            && (overall == 0.0 ==> (Deviates(averages) <==> exists k :: 0 <= k < |averages| && averages[k] != 0.0))
            && (overall < 0.0 ==> !Deviates(averages))
  {
    var overall := Stats.Mean(averages);
    var deviations := seq(|averages|, i requires 0 <= i < |averages| => Distance(averages[i], overall));
    var largest := Stats.Max(deviations);
    assert largest >= 0.0 by { assert deviations[0] >= 0.0; }
    assert Deviates(averages) == Greater(Div(largest, overall), 0.1);
    if overall > 0.0 {
      FractionAbove(largest, overall, 0.1);
      assert Deviates(averages) <==> largest > 0.1 * overall;
      assert largest > 0.1 * overall <==> exists k :: 0 <= k < |averages| && deviations[k] > 0.1 * overall;
      assert forall k :: 0 <= k < |averages| ==> deviations[k] == Distance(averages[k], overall);
    } else if overall == 0.0 {
      assert Deviates(averages) <==> largest > 0.0;
      assert largest > 0.0 <==> exists k :: 0 <= k < |averages| && deviations[k] > 0.0;
      assert forall k :: 0 <= k < |averages| ==> (deviations[k] > 0.0 <==> averages[k] != 0.0);
    } else {
      assert (largest / overall) * overall == largest;
    }
  }

  /** With three or more months, the seasonal test in the terms of the monthly averages. */
  lemma SeasonalPatternMeans(h: seq<HistoryEntry>, monthOf: int -> int)
    requires |Months(h, monthOf)| >= 3
    ensures var averages := MonthlyAverages(h, Months(h, monthOf), monthOf);
            var overall := Stats.Mean(averages);
            && (overall > 0.0 ==>
                  (SeasonalPattern(h, monthOf) <==> exists k :: 0 <= k < |averages| && Distance(averages[k], overall) > 0.1 * overall))
            && (overall == 0.0 ==> (SeasonalPattern(h, monthOf) <==> exists k :: 0 <= k < |averages| && averages[k] != 0.0))
            && (overall < 0.0 ==> !SeasonalPattern(h, monthOf))
  {
    DeviatesMeans(MonthlyAverages(h, Months(h, monthOf), monthOf));
  }

  /** The averages of months whose prices all equal `c` all equal `c`. */
  lemma {:induction false} MonthlyAveragesOfConstant(h: seq<HistoryEntry>, ms: seq<int>, monthOf: int -> int, c: real)
    requires MonthsPresent(h, ms, monthOf)
    requires forall i :: 0 <= i < |h| ==> OrElse(h[i].salePrice, h[i].price) == c
    ensures forall k :: 0 <= k < |ms| ==> MonthlyAverages(h, ms, monthOf)[k] == c
  {
    if |ms| > 0 {
      var prices := MonthPrices(h, ms[0], monthOf);
      Stats.MeanOfConstant(prices, c);
      MonthlyAveragesOfConstant(h, ms[1..], monthOf, c);
      var r := MonthlyAverages(h, ms, monthOf);
      assert r == [c] + MonthlyAverages(h, ms[1..], monthOf);
    }
  }

  /** A history of one repeated price shows no seasonal pattern. */
  lemma ConstantPricesAreNotSeasonal(h: seq<HistoryEntry>, monthOf: int -> int, c: real)
    requires forall i :: 0 <= i < |h| ==> OrElse(h[i].salePrice, h[i].price) == c
    ensures !SeasonalPattern(h, monthOf)
  {
    var ms := Months(h, monthOf);
    var averages := MonthlyAverages(h, ms, monthOf);
    assert MonthsPresent(h, ms, monthOf);
    if |averages| >= 3 {
      MonthlyAveragesOfConstant(h, ms, monthOf, c);
      Stats.MeanOfConstant(averages, c);
      var overall := Stats.Mean(averages);
      var deviations := seq(|averages|, i requires 0 <= i < |averages| => Distance(averages[i], overall));
      assert forall i :: 0 <= i < |deviations| ==> deviations[i] == 0.0;
      assert Stats.Max(deviations) == 0.0;
    }
  }

  /** An entry with a truthy sale price. */
  predicate OnSale(e: HistoryEntry)
  {
    e.salePrice.Some? && e.salePrice.value != 0.0
  }

  const SeasonalPricing: string := "Seasonal pricing"
  const FrequentSales: string := "Frequent sales"
  const HighPriceVolatility: string := "High price volatility"

  /** `identifyPriceFactors`: the tags pushed, in this order, for a seasonal pattern, sales on more
      than 30% of the entries, and a volatility score above 20; none for an empty history. */
  function PriceFactors(h: seq<HistoryEntry>, monthOf: int -> int): (factors: seq<string>)
    ensures h == [] ==> factors == []
    ensures SeasonalPricing in factors <==> h != [] && SeasonalPattern(h, monthOf)
    ensures FrequentSales in factors <==> h != [] && |Filter(h, OnSale)| as real > 0.3 * |h| as real
    ensures HighPriceVolatility in factors <==> h != [] && HighVolatility(PriceStatsOf(h))
    ensures forall i, j :: 0 <= i < j < |factors| ==> factors[i] != factors[j]
  {
    if |h| == 0 then []
    else
      var saleFrequency := |Filter(h, OnSale)| as real / |h| as real;
      FrequentSalesIff(h);
      var seasonal, frequent, volatile := SeasonalPattern(h, monthOf), saleFrequency > 0.3, HighVolatility(PriceStatsOf(h));
      TagsMembership(seasonal, frequent, volatile);
      Tags(seasonal, frequent, volatile)
  }

  /** The tags of the three factors, in order. */
  function Tags(seasonal: bool, frequent: bool, volatile: bool): seq<string>
  {
    (if seasonal then [SeasonalPricing] else [])
    + (if frequent then [FrequentSales] else [])
    + (if volatile then [HighPriceVolatility] else [])
  }

  lemma TagsMembership(seasonal: bool, frequent: bool, volatile: bool)
    ensures var t := Tags(seasonal, frequent, volatile);
            (SeasonalPricing in t <==> seasonal) && (FrequentSales in t <==> frequent)
            && (HighPriceVolatility in t <==> volatile)
            && forall i, j :: 0 <= i < j < |t| ==> t[i] != t[j]
  {
    assert SeasonalPricing != FrequentSales && SeasonalPricing != HighPriceVolatility
           && FrequentSales != HighPriceVolatility by {
      assert SeasonalPricing[0] == 'S' && FrequentSales[0] == 'F' && HighPriceVolatility[0] == 'H';
    }
  }

  lemma FrequentSalesIff(h: seq<HistoryEntry>)
    ensures |h| > 0 ==> (|Filter(h, OnSale)| as real / |h| as real > 0.3 <==> |Filter(h, OnSale)| as real > 0.3 * |h| as real)
  {
    if |h| > 0 {
      FractionAbove(|Filter(h, OnSale)| as real, |h| as real, 0.3);
    }
  }

  lemma FractionAbove(c: real, n: real, k: real)
    requires n > 0.0
    ensures c / n > k <==> c > k * n
  {
    assert (c / n) * n == c;
    if c / n > k {
      assert (c / n) * n > k * n;
    }
  }

  // ---------------------------------------------------------------- predictions

  datatype PricePrediction = PricePrediction(
    predictedPrice: Number,
    confidence: real,
    timeframe: string,
    factors: seq<string>)

  /** What `generatePricePrediction` stores: nothing for fewer than seven entries; otherwise the
      regression one week ahead over every entry, raised to 0 if negative, with the confidence
      and the factors of the history. */
  function ComputePrediction(h: seq<HistoryEntry>, now: int, monthOf: int -> int): (r: Option<PricePrediction>)
    ensures r.None? <==> |h| < 7
    ensures r.Some? ==> 0.0 <= r.value.confidence <= 1.0 && r.value.timeframe == "1week"
    ensures r.Some? && r.value.predictedPrice.Finite? ==> r.value.predictedPrice.v >= 0.0
    ensures r.Some? && !Stats.AllEqual(Timestamps(h)) ==> r.value.predictedPrice.Finite?
    ensures r.Some? && Stats.AllEqual(Timestamps(h)) ==> r.value.predictedPrice == NaN
    ensures r.Some? ==>
              r.value == PricePrediction(MaxWith(0.0, LinearRegressionPrediction(EntryPrices(h), Timestamps(h), now)),
                                         PredictionConfidence(EntryPrices(h)), "1week", PriceFactors(h, monthOf))
  {
    if |h| < 7 then None
    else
      var prices, timestamps := EntryPrices(h), Timestamps(h);
      var prediction := LinearRegressionPrediction(prices, timestamps, now);
      Some(PricePrediction(MaxWith(0.0, prediction), PredictionConfidence(prices), "1week", PriceFactors(h, monthOf)))
  }

  // ---------------------------------------------------------------- price-change alerts

  datatype ChangeAlert = ChangeAlert(
    itemId: string,
    store: Store,
    currentPrice: PriceInfo,
    previousPrice: real,
    percentageChange: real,
    increased: bool)

  /** `currentPrices.find(p => p.storeId === storeId)`: the first price of the store. */
  function FindPrice(prices: seq<PriceInfo>, storeId: string): (r: Option<PriceInfo>)
    ensures r.Some? ==> exists i :: (0 <= i < |prices| && prices[i] == r.value
                                     && forall j :: 0 <= j < i ==> prices[j].storeId != storeId)
    ensures r.Some? ==> r.value.storeId == storeId
    ensures r.None? <==> forall i :: 0 <= i < |prices| ==> prices[i].storeId != storeId
  {
    if |prices| == 0 then None
    else if prices[0].storeId == storeId then Some(prices[0])
    else
      var r := FindPrice(prices[1..], storeId);
      assert forall i :: 1 <= i < |prices| ==> prices[1..][i - 1] == prices[i];
      r
  }

  /** The direction `triggerPriceChangeAlert` reports, as written: the current REGULAR price
      against the previous EFFECTIVE price. */
  predicate IncreasedAsWritten(current: PriceInfo, previous: real)
  {
    current.price > previous
  }

  /** The direction the message means: the current effective price against the previous one. */
  predicate Increased(current: PriceInfo, previous: real)
  {
    EffectivePrice(current) > previous
  }

  /** A new sale that cuts the effective price from 10 to 9 is reported as an increase, because
      the regular price, 12, is compared. */
  lemma SaleDropReportedAsIncrease()
    ensures var current := PriceInfo("p", "1", "2", 12.0, None, None, Some(9.0), true, 0);
            IncreasedAsWritten(current, 10.0) && !Increased(current, 10.0)
            && EffectivePrice(current) < 10.0
  {
  }

  /** The change of one store's price against the second-to-last recorded price, when both are
      truthy and the relative change reaches the threshold (in percent). */
  function ChangeAlertFor(itemId: string, store: Store, currentPrices: seq<PriceInfo>,
                          history: seq<HistoryEntry>, threshold: real): (r: Option<ChangeAlert>)
    ensures var found := FindPrice(currentPrices, store.id);
            r.Some? <==>
              found.Some? && |history| >= 2
              && ChangeReaches(EffectivePrice(found.value), EntryPrices(history)[|history| - 2], threshold)
    ensures r.Some? ==> r.value.percentageChange >= threshold
                        && r.value.previousPrice == EntryPrices(history)[|history| - 2]
                        && (r.value.increased <==> EffectivePrice(r.value.currentPrice) > r.value.previousPrice)
  {
    match FindPrice(currentPrices, store.id)
    case None => None
    case Some(current) =>
      if |history| < 2 then None
      else
        var previousPrice := OrElse(history[|history| - 2].salePrice, history[|history| - 2].price);
        var currentPriceValue := EffectivePrice(current);
        assert previousPrice == EntryPrices(history)[|history| - 2];
        if previousPrice != 0.0 && currentPriceValue != 0.0 then
          var percentageChange := Distance((currentPriceValue - previousPrice) / previousPrice, 0.0) * 100.0;
          RelativeChange(currentPriceValue, previousPrice, threshold);
          if percentageChange >= threshold then
            Some(ChangeAlert(itemId, store, current, previousPrice, percentageChange, Increased(current, previousPrice)))
          else None
        else None
  }

  /** Both prices are nonzero and the current one is at least `threshold` percent away from the
      previous one. */
  predicate ChangeReaches(current: real, previous: real, threshold: real)
  {
    previous != 0.0 && current != 0.0 && 100.0 * Distance(current, previous) >= threshold * Distance(previous, 0.0)
  }

  /** `|(x - p) / p| * 100 >= t` is `100·|x - p| >= t·|p|`. */
  lemma RelativeChange(x: real, p: real, t: real)
    requires p != 0.0
    ensures Distance((x - p) / p, 0.0) * 100.0 >= t <==> 100.0 * Distance(x, p) >= t * Distance(p, 0.0)
  {
    var q := (x - p) / p;
    assert q * p == x - p;
    var ap := Distance(p, 0.0);
    assert ap > 0.0;
    assert Distance(q, 0.0) * ap == Distance(x, p) by {
      if p > 0.0 {
        if q < 0.0 { assert x - p < 0.0 by { assert q * p < 0.0; } }
        else { assert x - p >= 0.0 by { assert q * p >= 0.0; } }
      } else {
        if q < 0.0 { assert x - p > 0.0 by { assert q * p > 0.0; } }
        else { assert x - p <= 0.0 by { assert q * p <= 0.0; } }
      }
    }
    var dq := Distance(q, 0.0);
    if dq * 100.0 >= t {
      assert (dq * 100.0) * ap >= t * ap;
    }
    if 100.0 * Distance(x, p) >= t * ap {
      assert (dq * 100.0) * ap >= t * ap;
    }
  }

  /** The alert of one store against its recorded history, if any. */
  function AlertOf(itemId: string, currentPrices: seq<PriceInfo>, history: map<string, seq<HistoryEntry>>,
                   threshold: real, store: Store): Option<ChangeAlert>
  {
    ChangeAlertFor(itemId, store, currentPrices, ListAt(history, Key(store.id, itemId)), threshold)
  }

  /** A store whose price change reaches the threshold. */
  function Alerting(itemId: string, currentPrices: seq<PriceInfo>, history: map<string, seq<HistoryEntry>>,
                    threshold: real): Store -> bool
  {
    (store: Store) => AlertOf(itemId, currentPrices, history, threshold, store).Some?
  }

  /** The alerts of the stores, in list order: one per store whose change reaches the threshold,
      that store's alert, and none for any other store. */
  function ChangeAlerts(itemId: string, stores: seq<Store>, currentPrices: seq<PriceInfo>,
                        history: map<string, seq<HistoryEntry>>, threshold: real): (r: seq<ChangeAlert>)
    ensures forall i :: 0 <= i < |r| ==> r[i].percentageChange >= threshold && r[i].store in stores
    ensures var fired := Filter(stores, Alerting(itemId, currentPrices, history, threshold));
            && |r| == |fired|
            && forall k :: 0 <= k < |r| ==> AlertOf(itemId, currentPrices, history, threshold, fired[k]) == Some(r[k])
  {
    if |stores| == 0 then []
    else
      var init, store := stores[..|stores| - 1], stores[|stores| - 1];
      var r := ChangeAlerts(itemId, init, currentPrices, history, threshold);
      var alerting := Alerting(itemId, currentPrices, history, threshold);
      var fired := Filter(init, alerting);
      assert forall i :: 0 <= i < |init| ==> init[i] == stores[i];
      match AlertOf(itemId, currentPrices, history, threshold, store)
      case None =>
        assert Filter(stores, alerting) == fired;
        r
      case Some(a) =>
        assert Filter(stores, alerting) == fired + [store];
        r + [a]
  }

  /** With `Js.FilterKeeps`: the stores behind the alerts are every alerting store of the list,
      each occurrence once, in list order. */
  lemma ChangeAlertsComplete(itemId: string, stores: seq<Store>, currentPrices: seq<PriceInfo>,
                             history: map<string, seq<HistoryEntry>>, threshold: real)
    ensures var alerting := Alerting(itemId, currentPrices, history, threshold);
            var fired := Filter(stores, alerting);
            && Keeps(stores, alerting, fired)
            && |ChangeAlerts(itemId, stores, currentPrices, history, threshold)| == |fired|
  {
    FilterKeeps(stores, Alerting(itemId, currentPrices, history, threshold));
  }

  // ---------------------------------------------------------------- monitors

  /** A running monitor: what the interval's closure keeps, the item and its stores. */
  datatype Monitor = Monitor(itemId: string, stores: seq<Store>)

  function StoreIds(stores: seq<Store>): (ids: seq<string>)
    ensures |ids| == |stores|
  {
    seq(|stores|, i requires 0 <= i < |stores| => stores[i].id)
  }

  /** The monitor key `${itemId}-${storeIds.join(',')}`. */
  function MonitorKey(itemId: string, stores: seq<Store>): string
  {
    itemId + "-" + Join(StoreIds(stores), ",")
  }

  /** Different store ids give different keys for the same item. */
  lemma KeyInjective(a: string, b: string, itemId: string)
    requires Key(a, itemId) == Key(b, itemId)
    ensures a == b
  {
    assert |a| == |b|;
    assert Key(a, itemId)[..|a|] == a && Key(b, itemId)[..|b|] == b;
  }

  /** The per-store loop of `updatePriceAnalysis` on one of the result maps: for each store id in
      turn, the value `f` computes, if any, is stored under that store and item's key. */
  function StoreFold<V>(before: map<string, V>, itemId: string, ids: seq<string>, f: string -> Option<V>): map<string, V>
  {
    if |ids| == 0 then before
    else
      var m := StoreFold(before, itemId, ids[..|ids| - 1], f);
      var id := ids[|ids| - 1];
      if f(id).Some? then m[Key(id, itemId) := f(id).value] else m
  }

  /** After the loop, each listed store whose value is computed holds it; every other key keeps
      its old value; and no key appears but the old ones and the listed stores'. */
  lemma {:induction false} StoreFoldEffect<V>(before: map<string, V>, itemId: string, ids: seq<string>, f: string -> Option<V>)
    ensures var after := StoreFold(before, itemId, ids, f);
            (forall i :: 0 <= i < |ids| && f(ids[i]).Some? ==>
               Key(ids[i], itemId) in after && after[Key(ids[i], itemId)] == f(ids[i]).value)
            && (forall k :: k in before && (forall i :: 0 <= i < |ids| && k == Key(ids[i], itemId) ==> f(ids[i]).None?) ==>
                  k in after && after[k] == before[k])
            && (forall k :: k in after ==> k in before || exists i :: 0 <= i < |ids| && k == Key(ids[i], itemId))
  {
    if |ids| > 0 {
      var init, id := ids[..|ids| - 1], ids[|ids| - 1];
      StoreFoldEffect(before, itemId, init, f);
      assert forall i :: 0 <= i < |init| ==> init[i] == ids[i];
      forall i | 0 <= i < |init| && Key(init[i], itemId) == Key(id, itemId)
        ensures init[i] == id
      {
        KeyInjective(init[i], id, itemId);
      }
    }
  }

  /** The trend `analyzePriceTrend` computes for a store, given the fetched prices. */
  function TrendOf(history: map<string, seq<HistoryEntry>>, prices: seq<PriceInfo>, itemId: string, now: int): string -> Option<PriceTrend>
  {
    (id: string) =>
      match FindPrice(prices, id)
      case None => None
      case Some(p) => ComputeTrend(ListAt(history, Key(id, itemId)), p, now)
  }

  /** The prediction `generatePricePrediction` computes for a store that has a fetched price. */
  function PredictionOf(history: map<string, seq<HistoryEntry>>, prices: seq<PriceInfo>, itemId: string, now: int,
                        monthOf: int -> int): string -> Option<PricePrediction>
  {
    (id: string) =>
      if FindPrice(prices, id).None? then None
      else ComputePrediction(ListAt(history, Key(id, itemId)), now, monthOf)
  }

  class PriceMonitoringService {
    const realTimeService: RealTimePriceService
    var config: MonitoringConfig
    var activeMonitors: map<string, Monitor>
    var priceTrends: map<string, PriceTrend>
    var predictions: map<string, PricePrediction>

    constructor (realTimeService: RealTimePriceService)
      ensures this.realTimeService == realTimeService && config == DefaultConfig
      ensures activeMonitors == map[] && priceTrends == map[] && predictions == map[]
    {
      this.realTimeService := realTimeService;
      config := DefaultConfig;
      activeMonitors, priceTrends, predictions := map[], map[], map[];
    }

    /** `analyzePriceTrend`: the computed trend, if any, replaces the key's stored trend. */
    method AnalyzePriceTrend(itemId: string, storeId: string, currentPrice: PriceInfo, now: int)
      modifies this
      ensures var t := ComputeTrend(realTimeService.GetPriceHistory(itemId, storeId), currentPrice, now);
              priceTrends == if t.Some? then old(priceTrends)[Key(storeId, itemId) := t.value] else old(priceTrends)
      ensures config == old(config) && activeMonitors == old(activeMonitors) && predictions == old(predictions)
    {
      var t := ComputeTrend(realTimeService.GetPriceHistory(itemId, storeId), currentPrice, now);
      if t.Some? {
        priceTrends := priceTrends[Key(storeId, itemId) := t.value];
      }
    }

    /** `generatePricePrediction`: the computed prediction, if any, supersedes the stored one. */
    method GeneratePricePrediction(itemId: string, storeId: string, now: int, monthOf: int -> int)
      modifies this
      ensures var p := ComputePrediction(realTimeService.GetPriceHistory(itemId, storeId), now, monthOf);
              predictions == if p.Some? then old(predictions)[Key(storeId, itemId) := p.value] else old(predictions)
      ensures config == old(config) && activeMonitors == old(activeMonitors) && priceTrends == old(priceTrends)
    {
      var p := ComputePrediction(realTimeService.GetPriceHistory(itemId, storeId), now, monthOf);
      if p.Some? {
        predictions := predictions[Key(storeId, itemId) := p.value];
      }
    }

    /** `analyzeBestTimeToBuy` / `getBestTimeToBuy` over the store and item's history. */
    method AnalyzeBestTimeToBuy(itemId: string, storeId: string) returns (r: BestTimeToBuy)
      ensures |realTimeService.GetPriceHistory(itemId, storeId)| < 7 ==> r == Insufficient
      ensures r == BestTimeToBuyFor(realTimeService.GetPriceHistory(itemId, storeId))
    {
      var history := realTimeService.GetPriceHistory(itemId, storeId);
      if |history| < 7 {
        return Insufficient;
      }
      var stats := realTimeService.GetPriceStats(itemId, storeId);
      var currentPrice := OrElse(history[|history| - 1].salePrice, history[|history| - 1].price);
      r := Advise(currentPrice, stats.averagePrice, stats.lowestPrice);
    }

    /** `checkPriceAlerts`: the price-change alerts of the stores, in store order, each at or
        above the configured threshold. */
    method CheckPriceAlerts(itemId: string, stores: seq<Store>, currentPrices: seq<PriceInfo>) returns (alerts: seq<ChangeAlert>)
      ensures alerts == ChangeAlerts(itemId, stores, currentPrices, realTimeService.priceHistory, config.alertThreshold)
      ensures forall i :: 0 <= i < |alerts| ==> alerts[i].percentageChange >= config.alertThreshold
    {
      alerts := [];
      var i := 0;
      while i < |stores|
        invariant 0 <= i <= |stores|
        invariant alerts == ChangeAlerts(itemId, stores[..i], currentPrices, realTimeService.priceHistory, config.alertThreshold)
      {
        var store := stores[i];
        assert stores[..i + 1][..i] == stores[..i];
        var history := realTimeService.GetPriceHistory(itemId, store.id);
        var a := ChangeAlertFor(itemId, store, currentPrices, history, config.alertThreshold);
        if a.Some? {
          alerts := alerts + [a.value];
        }
        i := i + 1;
      }
      assert stores[..i] == stores;
    }

    /** `updatePriceAnalysis`, with the prices fetched for the item passed in: nothing happens
        without prices; otherwise every store with a price has its trend and prediction
        recomputed, in store order, and the price-change alerts are returned. */
    method UpdatePriceAnalysis(itemId: string, stores: seq<Store>, prices: seq<PriceInfo>, now: int, monthOf: int -> int)
      returns (alerts: seq<ChangeAlert>)
      modifies this
      ensures prices == [] ==> priceTrends == old(priceTrends) && predictions == old(predictions) && alerts == []
      ensures prices != [] ==>
                && priceTrends == StoreFold(old(priceTrends), itemId, StoreIds(stores),
                                            TrendOf(realTimeService.priceHistory, prices, itemId, now))
                && predictions == StoreFold(old(predictions), itemId, StoreIds(stores),
                                            PredictionOf(realTimeService.priceHistory, prices, itemId, now, monthOf))
                && alerts == ChangeAlerts(itemId, stores, prices, realTimeService.priceHistory, config.alertThreshold)
      ensures config == old(config) && activeMonitors == old(activeMonitors)
    {
      if |prices| == 0 {
        return [];
      }
      ghost var trendOf := TrendOf(realTimeService.priceHistory, prices, itemId, now);
      ghost var predictionOf := PredictionOf(realTimeService.priceHistory, prices, itemId, now, monthOf);
      var i := 0;
      while i < |stores|
        invariant 0 <= i <= |stores|
        invariant priceTrends == StoreFold(old(priceTrends), itemId, StoreIds(stores[..i]), trendOf)
        invariant predictions == StoreFold(old(predictions), itemId, StoreIds(stores[..i]), predictionOf)
        invariant config == old(config) && activeMonitors == old(activeMonitors)
      {
        var store := stores[i];
        var ids := StoreIds(stores[..i + 1]);
        assert ids[..i] == StoreIds(stores[..i]) && ids[i] == store.id;
        var storePrice := FindPrice(prices, store.id);
        if storePrice.Some? {
          AnalyzePriceTrend(itemId, store.id, storePrice.value, now);
          GeneratePricePrediction(itemId, store.id, now, monthOf);
        }
        i := i + 1;
      }
      assert stores[..i] == stores;
      alerts := CheckPriceAlerts(itemId, stores, prices);
    }

    /** `startMonitoring`: a new monitor is registered and its first analysis run with the
        prices fetched for it; a key already monitored changes nothing. */
    method StartMonitoring(itemId: string, stores: seq<Store>, prices: seq<PriceInfo>, now: int, monthOf: int -> int)
      returns (alerts: seq<ChangeAlert>)
      modifies this
      ensures var key := MonitorKey(itemId, stores);
              if key in old(activeMonitors) then
                activeMonitors == old(activeMonitors) && priceTrends == old(priceTrends)
                && predictions == old(predictions) && alerts == []
              else
                && activeMonitors == old(activeMonitors)[key := Monitor(itemId, stores)]
                && (prices == [] ==> priceTrends == old(priceTrends) && predictions == old(predictions) && alerts == [])
                && (prices != [] ==>
                      && priceTrends == StoreFold(old(priceTrends), itemId, StoreIds(stores),
                                                  TrendOf(realTimeService.priceHistory, prices, itemId, now))
                      && predictions == StoreFold(old(predictions), itemId, StoreIds(stores),
                                                  PredictionOf(realTimeService.priceHistory, prices, itemId, now, monthOf))
                      && alerts == ChangeAlerts(itemId, stores, prices, realTimeService.priceHistory, config.alertThreshold))
      ensures config == old(config)
    {
      var monitorKey := MonitorKey(itemId, stores);
      if monitorKey in activeMonitors {
        return [];
      }
      activeMonitors := activeMonitors[monitorKey := Monitor(itemId, stores)];
      alerts := UpdatePriceAnalysis(itemId, stores, prices, now, monthOf);
    }

    /** `stopMonitoring`: the monitor of the key is removed; an unknown key changes nothing. */
    method StopMonitoring(itemId: string, stores: seq<Store>)
      modifies this
      ensures activeMonitors == old(activeMonitors) - {MonitorKey(itemId, stores)}
      ensures MonitorKey(itemId, stores) !in old(activeMonitors) ==> activeMonitors == old(activeMonitors)
      ensures config == old(config) && priceTrends == old(priceTrends) && predictions == old(predictions)
    {
      var monitorKey := MonitorKey(itemId, stores);
      if monitorKey in activeMonitors {
        activeMonitors := activeMonitors - {monitorKey};
      }
    }

    /** `getPriceTrend`: the stored trend of the store and item, if any. */
    function GetPriceTrend(itemId: string, storeId: string): (r: Option<PriceTrend>)
      reads this
      ensures r.Some? <==> Key(storeId, itemId) in priceTrends
      ensures Key(storeId, itemId) in priceTrends ==> r == Some(priceTrends[Key(storeId, itemId)])
    {
      if Key(storeId, itemId) in priceTrends then Some(priceTrends[Key(storeId, itemId)]) else None
    }

    /** `getPricePrediction`: the stored prediction of the store and item, if any. */
    function GetPricePrediction(itemId: string, storeId: string): (r: Option<PricePrediction>)
      reads this
      ensures r.Some? <==> Key(storeId, itemId) in predictions
      ensures Key(storeId, itemId) in predictions ==> r == Some(predictions[Key(storeId, itemId)])
    {
      if Key(storeId, itemId) in predictions then Some(predictions[Key(storeId, itemId)]) else None
    }

    /** `getPriceVolatility`, with `sd` the square root of the history's variance. */
    function GetPriceVolatility(itemId: string, storeId: string, sd: real): (v: real)
      reads realTimeService
      requires sd >= 0.0 && sd * sd == realTimeService.GetPriceStats(itemId, storeId).variance
      ensures v <= 100.0
    {
      PriceVolatility(realTimeService.GetPriceStats(itemId, storeId), sd)
    }

    /** `getPriceStability` */
    function GetPriceStability(itemId: string, storeId: string, sd: real): (s: real)
      reads realTimeService
      requires sd >= 0.0 && sd * sd == realTimeService.GetPriceStats(itemId, storeId).variance
      ensures s >= 0.0
    {
      PriceStability(realTimeService.GetPriceStats(itemId, storeId), sd)
    }

    /** `updateConfig`: the supplied members replace the current ones. */
    method UpdateConfig(patch: ConfigPatch)
      modifies this
      ensures config == Merge(old(config), patch)
      ensures activeMonitors == old(activeMonitors) && priceTrends == old(priceTrends) && predictions == old(predictions)
    {
      config := Merge(config, patch);
    }

    /** `getConfig`: a copy of the configuration. */
    function GetConfig(): (c: MonitoringConfig)
      reads this
      ensures c == config
    {
      config
    }

    /** `destroy`: every monitor is stopped and the stored trends and predictions cleared. */
    method Destroy()
      modifies this
      ensures activeMonitors == map[] && priceTrends == map[] && predictions == map[]
      ensures config == old(config)
    {
      activeMonitors, priceTrends, predictions := map[], map[], map[];
    }
  }
}
