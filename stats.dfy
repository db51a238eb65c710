/** Sums, means, extremes and the population variance of a list of prices, as the services
    compute them with `reduce`, `Math.min(...xs)` and `Math.max(...xs)`. */
module Stats {

  /** `xs.reduce((sum, x) => sum + x, 0)` */
  function Sum(xs: seq<real>): real
  {
    if |xs| == 0 then 0.0 else Sum(xs[..|xs| - 1]) + xs[|xs| - 1]
  }

  function Mean(xs: seq<real>): real
    requires |xs| > 0
  {
    Sum(xs) / |xs| as real
  }

  /** `Math.min(...xs)` */
  function Min(xs: seq<real>): (m: real)
    requires |xs| > 0
    ensures forall i :: 0 <= i < |xs| ==> m <= xs[i]
    ensures exists i :: 0 <= i < |xs| && m == xs[i]
  {
    if |xs| == 1 then xs[0]
    else
      var m := Min(xs[..|xs| - 1]);
      assert forall i :: 0 <= i < |xs| - 1 ==> xs[..|xs| - 1][i] == xs[i];
      if xs[|xs| - 1] < m then xs[|xs| - 1] else m
  }

  /** `Math.max(...xs)` */
  function Max(xs: seq<real>): (m: real)
    requires |xs| > 0
    ensures forall i :: 0 <= i < |xs| ==> xs[i] <= m
    ensures exists i :: 0 <= i < |xs| && m == xs[i]
  {
    if |xs| == 1 then xs[0]
    else
      var m := Max(xs[..|xs| - 1]);
      assert forall i :: 0 <= i < |xs| - 1 ==> xs[..|xs| - 1][i] == xs[i];
      if xs[|xs| - 1] > m then xs[|xs| - 1] else m
  }

  /** The sum of the squared deviations of `xs` from `m`. */
  function SquaredDeviations(xs: seq<real>, m: real): real
  {
    if |xs| == 0 then 0.0
    else SquaredDeviations(xs[..|xs| - 1], m) + (xs[|xs| - 1] - m) * (xs[|xs| - 1] - m)
  }

  /** The population variance: the mean squared deviation from the mean. */
  function Variance(xs: seq<real>): real
    requires |xs| > 0
  {
    SquaredDeviations(xs, Mean(xs)) / |xs| as real
  }

  /** Every value lies between the minimum and the maximum, so the sum lies between |xs| times
      each of them. */
  lemma {:induction false} SumBounds(xs: seq<real>, lo: real, hi: real)
    requires forall i :: 0 <= i < |xs| ==> lo <= xs[i] <= hi
    ensures |xs| as real * lo <= Sum(xs) <= |xs| as real * hi
  {
    if |xs| > 0 {
      var init := xs[..|xs| - 1];
      assert forall i :: 0 <= i < |init| ==> init[i] == xs[i];
      SumBounds(init, lo, hi);
    }
  }

  /** The mean lies between the minimum and the maximum. */
  lemma MeanBetweenMinAndMax(xs: seq<real>)
    requires |xs| > 0
    ensures Min(xs) <= Mean(xs) <= Max(xs)
  {
    MeanBounds(xs, Min(xs), Max(xs));
  }

  /** Bounds on every value bound the mean. */
  lemma MeanBounds(xs: seq<real>, lo: real, hi: real)
    requires |xs| > 0
    requires forall i :: 0 <= i < |xs| ==> lo <= xs[i] <= hi
    ensures lo <= Mean(xs) <= hi
  {
    SumBounds(xs, lo, hi);
    DivBounds(Sum(xs), |xs| as real, lo, hi);
  }

  lemma DivBounds(s: real, n: real, lo: real, hi: real)
    requires n > 0.0 && n * lo <= s <= n * hi
    ensures lo <= s / n <= hi
  {
  }

  lemma {:induction false} SquaredDeviationsNonNegative(xs: seq<real>, m: real)
    ensures SquaredDeviations(xs, m) >= 0.0
  {
    if |xs| > 0 {
      SquaredDeviationsNonNegative(xs[..|xs| - 1], m);
      var d := xs[|xs| - 1] - m;
      assert d * d >= 0.0;
    }
  }

  /** The variance is never negative. */
  lemma VarianceNonNegative(xs: seq<real>)
    requires |xs| > 0
    ensures Variance(xs) >= 0.0
  {
    SquaredDeviationsNonNegative(xs, Mean(xs));
  }

  /** Each single deviation is bounded by the sum of all of them. */
  lemma {:induction false} SquaredDeviationsAtLeastOne(xs: seq<real>, m: real, k: nat)
    requires k < |xs|
    ensures (xs[k] - m) * (xs[k] - m) <= SquaredDeviations(xs, m)
  {
    var init, x := xs[..|xs| - 1], xs[|xs| - 1];
    assert SquaredDeviations(xs, m) == SquaredDeviations(init, m) + (x - m) * (x - m);
    assert (x - m) * (x - m) >= 0.0;
    if k < |xs| - 1 {
      assert init[k] == xs[k];
      SquaredDeviationsAtLeastOne(init, m, k);
    } else {
      SquaredDeviationsNonNegative(init, m);
    }
  }

  /** A list of equal values has no deviation from that value. */
  lemma {:induction false} SquaredDeviationsOfConstant(xs: seq<real>, c: real)
    requires forall i :: 0 <= i < |xs| ==> xs[i] == c
    ensures SquaredDeviations(xs, c) == 0.0
  {
    if |xs| > 0 {
      var init := xs[..|xs| - 1];
      assert forall i :: 0 <= i < |init| ==> init[i] == xs[i];
      SquaredDeviationsOfConstant(init, c);
    }
  }

  lemma {:induction false} SumOfConstant(xs: seq<real>, c: real)
    requires forall i :: 0 <= i < |xs| ==> xs[i] == c
    ensures Sum(xs) == |xs| as real * c
  {
    if |xs| > 0 {
      var init := xs[..|xs| - 1];
      assert forall i :: 0 <= i < |init| ==> init[i] == xs[i];
      SumOfConstant(init, c);
    }
  }

  /** The mean of equal values is that value. */
  lemma MeanOfConstant(xs: seq<real>, c: real)
    requires |xs| > 0
    requires forall i :: 0 <= i < |xs| ==> xs[i] == c
    ensures Mean(xs) == c
  {
    SumOfConstant(xs, c);
  }

  /** The sum of the squared values, `xs.reduce((sum, x) => sum + x * x, 0)`. */
  function SumOfSquares(xs: seq<real>): real
  {
    if |xs| == 0 then 0.0 else SumOfSquares(xs[..|xs| - 1]) + xs[|xs| - 1] * xs[|xs| - 1]
  }

  /** `d` is Σx² − 2mΣx + n·m² for the sum of squares `q`, the sum `s` and the count `n`. */
  predicate Expanded(d: real, q: real, s: real, n: real, m: real)
  {
    d == q - 2.0 * m * s + n * m * m
  }

  /** The expansion of the squared deviations: Σ(x − m)² = Σx² − 2mΣx + n·m². */
  lemma {:induction false} SquaredDeviationsExpand(xs: seq<real>, m: real)
    ensures Expanded(SquaredDeviations(xs, m), SumOfSquares(xs), Sum(xs), |xs| as real, m)
  {
    if |xs| > 0 {
      var init := xs[..|xs| - 1];
      SumsOfAppended(xs, m);
      SquaredDeviationsExpand(init, m);
      ExpandedStep(SquaredDeviations(init, m), SumOfSquares(init), Sum(init), |init| as real, m, xs[|xs| - 1],
                   SquaredDeviations(xs, m), SumOfSquares(xs), Sum(xs), |xs| as real);
    }
  }

  /** One more value `x` extends the expansion. */
  lemma ExpandedStep(d: real, q: real, s: real, n: real, m: real, x: real, d': real, q': real, s': real, n': real)
    requires Expanded(d, q, s, n, m)
    requires d' == d + (x - m) * (x - m) && q' == q + x * x && s' == s + x && n' == n + 1.0
    ensures Expanded(d', q', s', n', m)
  {
    assert (x - m) * (x - m) == x * x - 2.0 * m * x + m * m;
    assert 2.0 * m * (s + x) == 2.0 * m * s + 2.0 * m * x;
    assert (n + 1.0) * m * m == n * m * m + m * m;
  }

  /** Each sum over `xs` is the sum over all but the last value plus the last value's term. */
  lemma SumsOfAppended(xs: seq<real>, m: real)
    requires |xs| > 0
    ensures var init, x := xs[..|xs| - 1], xs[|xs| - 1];
            && SquaredDeviations(xs, m) == SquaredDeviations(init, m) + (x - m) * (x - m)
            && SumOfSquares(xs) == SumOfSquares(init) + x * x
            && Sum(xs) == Sum(init) + x
  {
  }

  /** The sum of the products of paired values, `xs.reduce((sum, x, i) => sum + x * ys[i], 0)`. */
  function SumOfProducts(xs: seq<real>, ys: seq<real>): real
    requires |xs| == |ys|
  {
    if |xs| == 0 then 0.0
    else SumOfProducts(xs[..|xs| - 1], ys[..|ys| - 1]) + xs[|xs| - 1] * ys[|ys| - 1]
  }

  predicate AllEqual(xs: seq<real>)
  {
    forall i, j :: 0 <= i < |xs| && 0 <= j < |xs| ==> xs[i] == xs[j]
  }

  /** Pairing with a constant left side sums the right side, scaled. */
  lemma {:induction false} SumOfProductsConstantLeft(xs: seq<real>, ys: seq<real>, c: real)
    requires |xs| == |ys|
    requires forall i :: 0 <= i < |xs| ==> xs[i] == c
    ensures SumOfProducts(xs, ys) == c * Sum(ys)
  {
    if |xs| > 0 {
      var xi, yi := xs[..|xs| - 1], ys[..|ys| - 1];
      assert forall i :: 0 <= i < |xi| ==> xi[i] == xs[i];
      SumOfProductsConstantLeft(xi, yi, c);
    }
  }

  /** Pairing with a constant right side sums the left side, scaled. */
  lemma {:induction false} SumOfProductsConstantRight(xs: seq<real>, ys: seq<real>, c: real)
    requires |xs| == |ys|
    requires forall i :: 0 <= i < |ys| ==> ys[i] == c
    ensures SumOfProducts(xs, ys) == c * Sum(xs)
  {
    if |xs| > 0 {
      var xi, yi := xs[..|xs| - 1], ys[..|ys| - 1];
      assert forall i :: 0 <= i < |yi| ==> yi[i] == ys[i];
      SumOfProductsConstantRight(xi, yi, c);
    }
  }

  /** A list of equal values has |xs|·c² as its sum of squares. */
  lemma {:induction false} SumOfSquaresOfConstant(xs: seq<real>, c: real)
    requires forall i :: 0 <= i < |xs| ==> xs[i] == c
    ensures SumOfSquares(xs) == |xs| as real * c * c
  {
    if |xs| > 0 {
      var init := xs[..|xs| - 1];
      assert forall i :: 0 <= i < |init| ==> init[i] == xs[i];
      SumOfSquaresOfConstant(init, c);
      assert |xs| as real * c * c == |init| as real * c * c + c * c;
    }
  }

  lemma MeanTimesCount(xs: seq<real>)
    requires |xs| > 0
    ensures |xs| as real * Mean(xs) == Sum(xs)
  {
    DivMul(Sum(xs), |xs| as real);
  }

  lemma DivMul(s: real, n: real)
    requires n != 0.0
    ensures n * (s / n) == s
  {
  }

  /** `x` is positive; a fact about a square is kept in this form so that it can be passed on. */
  predicate Positive(x: real)
  {
    x > 0.0
  }

  /** A non-zero number has a positive square. */
  lemma SquarePositive(e: real)
    requires e != 0.0
    ensures Positive(e * e)
  {
    if e < 0.0 {
      assert e * e == (-e) * (-e);
    }
  }

  lemma PositiveBelow(a: real, y: real)
    requires Positive(a) && a <= y
    ensures Positive(y)
  {
  }

  /** A value away from `m` makes the squared deviations from `m` positive. */
  lemma SquaredDeviationsPositive(xs: seq<real>, m: real, k: nat)
    requires k < |xs| && xs[k] != m
    ensures Positive(SquaredDeviations(xs, m))
  {
    SquaredDeviationsAtLeastOne(xs, m, k);
    SquareBelowPositive(xs[k] - m, SquaredDeviations(xs, m));
  }

  lemma SquareBelowPositive(e: real, y: real)
    requires e != 0.0 && e * e <= y
    ensures Positive(y)
  {
    SquarePositive(e);
    PositiveBelow(e * e, y);
  }

  /** The spread of a list: the squared deviations of every value from each value before it. It
      is n·Σx² − (Σx)², the denominator of a least-squares slope. */
  function Spread(xs: seq<real>): real
  {
    if |xs| == 0 then 0.0 else Spread(xs[..|xs| - 1]) + SquaredDeviations(xs[..|xs| - 1], xs[|xs| - 1])
  }

  /** `p` is n·Σx² − (Σx)² for the count `n`, the sum of squares `q` and the sum `s`. */
  predicate SpreadIs(p: real, n: real, q: real, s: real)
  {
    p == n * q - s * s
  }

  /** The spread has the closed form n·Σx² − (Σx)². */
  lemma {:induction false} SpreadFormula(xs: seq<real>)
    ensures SpreadIs(Spread(xs), |xs| as real, SumOfSquares(xs), Sum(xs))
  {
    if |xs| == 0 {
      assert Spread(xs) == 0.0 && Sum(xs) == 0.0 && SumOfSquares(xs) == 0.0;
    } else {
      var init, x := xs[..|xs| - 1], xs[|xs| - 1];
      SpreadFormula(init);
      SquaredDeviationsExpand(init, x);
      SpreadStep(|init| as real, SumOfSquares(init), Sum(init), x, SquaredDeviations(init, x),
                 |xs| as real, SumOfSquares(xs), Sum(xs), Spread(init), Spread(xs));
    }
  }

  /** One more value `x` extends the closed form. */
  lemma SpreadStep(n: real, q: real, s: real, x: real, d: real, n': real, q': real, s': real, p: real, p': real)
    requires Expanded(d, q, s, n, x)
    requires n' == n + 1.0 && q' == q + x * x && s' == s + x
    requires SpreadIs(p, n, q, s) && p' == p + d
    ensures SpreadIs(p', n', q', s')
  {
  }

  /** The spread is never negative; it is zero when all the values are equal and positive
      otherwise. */
  lemma {:induction false} SpreadZeroIffAllEqual(xs: seq<real>)
    ensures Spread(xs) >= 0.0
    ensures AllEqual(xs) ==> Spread(xs) == 0.0
    ensures !AllEqual(xs) ==> Positive(Spread(xs))
  {
    if |xs| > 0 {
      var init, x := xs[..|xs| - 1], xs[|xs| - 1];
      SpreadZeroIffAllEqual(init);
      SquaredDeviationsNonNegative(init, x);
      assert forall i :: 0 <= i < |init| ==> init[i] == xs[i];
      if AllEqual(xs) {
        assert forall i, j :: 0 <= i < |init| && 0 <= j < |init| ==> init[i] == init[j];
        assert forall i :: 0 <= i < |init| ==> init[i] == x;
        SquaredDeviationsOfConstant(init, x);
      } else if !AllEqual(init) {
        PositiveBelow(Spread(init), Spread(xs));
      } else if k :| 0 <= k < |init| && init[k] != x {
        SquaredDeviationsPositive(init, x, k);
        PositiveBelow(SquaredDeviations(init, x), Spread(xs));
      } else {
        assert forall i :: 0 <= i < |xs| ==> xs[i] == x;
        assert false;
      }
    }
  }

  /** For values that are not all equal, n·Σx² − (Σx)² is positive. */
  lemma SpreadPositive(xs: seq<real>)
    requires !AllEqual(xs)
    ensures Positive(|xs| as real * SumOfSquares(xs) - Sum(xs) * Sum(xs))
  {
    SpreadFormula(xs);
    SpreadZeroIffAllEqual(xs);
    PositiveSpreadIs(Spread(xs), |xs| as real, SumOfSquares(xs), Sum(xs));
  }

  lemma PositiveSpreadIs(p: real, n: real, q: real, s: real)
    requires SpreadIs(p, n, q, s) && Positive(p)
    ensures Positive(n * q - s * s)
  {
  }
}
