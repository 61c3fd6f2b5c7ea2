/**
 * The indicator engine of `MarketAnalyzer`: the `calculate_*` series
 * transforms and `populate_indicators`, which adds their columns to a candle
 * frame.
 *
 * A frame column is a `seq<real>`. A column that pandas may fill with NaN is a
 * `seq<Option<real>>`, `None` standing for NaN. Both infinities that a pandas
 * division by zero can produce, and the NaN of 0/0, are `None` here, except
 * where the source's formula turns an infinity back into a finite number
 * (`100 - 100 / (1 + inf) == 100`), which is kept.
 *
 * Rolling windows follow pandas' `rolling(window=p)`: the trailing window
 * `xs[i + 1 - p .. i + 1]`, undefined until it is full and whenever it holds a
 * NaN.
 */
module Indicators {
  import opened Wrappers

  // ---------------------------------------------------------------------------
  // Candles and columns
  // ---------------------------------------------------------------------------

  datatype Candle = Candle(open: real, high: real, low: real, close: real, volume: real)

  /** A candle as an exchange reports it: positive prices, `low <= open, close <= high`, volume not negative. */
  predicate WellFormed(c: Candle) {
    0.0 < c.low && c.low <= c.open <= c.high && c.low <= c.close <= c.high && 0.0 <= c.volume
  }

  predicate AllWellFormed(df: seq<Candle>) {
    forall i :: 0 <= i < |df| ==> WellFormed(df[i])
  }

  function Highs(df: seq<Candle>): (r: seq<real>)
    ensures |r| == |df| && forall i :: 0 <= i < |df| ==> r[i] == df[i].high
  {
    seq(|df|, i requires 0 <= i < |df| => df[i].high)
  }

  function Lows(df: seq<Candle>): (r: seq<real>)
    ensures |r| == |df| && forall i :: 0 <= i < |df| ==> r[i] == df[i].low
  {
    seq(|df|, i requires 0 <= i < |df| => df[i].low)
  }

  function Closes(df: seq<Candle>): (r: seq<real>)
    ensures |r| == |df| && forall i :: 0 <= i < |df| ==> r[i] == df[i].close
  {
    seq(|df|, i requires 0 <= i < |df| => df[i].close)
  }

  function Volumes(df: seq<Candle>): (r: seq<real>)
    ensures |r| == |df| && forall i :: 0 <= i < |df| ==> r[i] == df[i].volume
  {
    seq(|df|, i requires 0 <= i < |df| => df[i].volume)
  }

  predicate Within(xs: seq<real>, lo: real, hi: real) {
    forall k :: 0 <= k < |xs| ==> lo <= xs[k] <= hi
  }

  predicate Constant(xs: seq<real>, c: real) {
    forall k :: 0 <= k < |xs| ==> xs[k] == c
  }

  function Abs(x: real): (r: real)
    ensures 0.0 <= r && (r == x || r == -x)
  {
    if x < 0.0 then -x else x
  }

  function Max(x: real, y: real): (r: real)
    ensures x <= r && y <= r && (r == x || r == y)
  {
    if x < y then y else x
  }

  /** Division by a positive number keeps bounds: `lo·d <= n <= hi·d` gives `lo <= n / d <= hi`. */
  lemma DivWithin(n: real, d: real, lo: real, hi: real)
    requires 0.0 < d && lo * d <= n <= hi * d
    ensures lo <= n / d <= hi
  {
    var q := n / d;
    assert q * d == n;
  }

  // ---------------------------------------------------------------------------
  // Sums and trailing windows
  // ---------------------------------------------------------------------------

  function Sum(xs: seq<real>): real {
    if xs == [] then 0.0 else Sum(xs[..|xs| - 1]) + xs[|xs| - 1]
  }

  /** A sum of values in `[lo, hi]` lies between `|xs|·lo` and `|xs|·hi`. */
  lemma {:induction false} SumWithin(xs: seq<real>, lo: real, hi: real)
    requires Within(xs, lo, hi)
    ensures |xs| as real * lo <= Sum(xs) <= |xs| as real * hi
  {
    if xs != [] {
      var init := xs[..|xs| - 1];
      assert Within(init, lo, hi);
      SumWithin(init, lo, hi);
      assert (|init| as real) * lo + lo == |xs| as real * lo;
      assert (|init| as real) * hi + hi == |xs| as real * hi;
    }
  }

  /** The trailing window of length `p` that ends at row `i`. */
  function Window<T>(xs: seq<T>, p: nat, i: nat): (w: seq<T>)
    requires 1 <= p <= i + 1 <= |xs|
    ensures |w| == p
  {
    xs[i + 1 - p..i + 1]
  }

  /** `xs.rolling(window=p).sum()`. */
  function RollingSum(xs: seq<real>, p: nat): (r: seq<Option<real>>)
    requires 1 <= p
    ensures |r| == |xs|
    ensures forall i :: 0 <= i < |r| ==> (r[i].Some? <==> p <= i + 1)
  {
    seq(|xs|, i requires 0 <= i < |xs| => if p <= i + 1 then Some(Sum(Window(xs, p, i))) else None)
  }

  /** `xs.rolling(window=p).mean()` over a column without NaN. */
  function RollingMean(xs: seq<real>, p: nat): (r: seq<Option<real>>)
    requires 1 <= p
    ensures |r| == |xs|
    ensures forall i :: 0 <= i < |r| ==> (r[i].Some? <==> p <= i + 1)
  {
    seq(|xs|, i requires 0 <= i < |xs| => if p <= i + 1 then Some(Sum(Window(xs, p, i)) / p as real) else None)
  }

  /** A rolling mean of values in `[lo, hi]` stays in `[lo, hi]`. */
  lemma RollingMeanWithin(xs: seq<real>, p: nat, i: nat, lo: real, hi: real)
    requires 1 <= p <= i + 1 <= |xs|
    requires Within(Window(xs, p, i), lo, hi)
    ensures lo <= RollingMean(xs, p)[i].value <= hi
  {
    SumWithin(Window(xs, p, i), lo, hi);
    var n := p as real;
    var s := Sum(Window(xs, p, i));
    assert RollingMean(xs, p)[i].value == s / n;
    DivWithin(s, n, lo, hi);
  }

  predicate AllSome(xs: seq<Option<real>>) {
    forall k :: 0 <= k < |xs| ==> xs[k].Some?
  }

  function Values(xs: seq<Option<real>>): (r: seq<real>)
    requires AllSome(xs)
    ensures |r| == |xs| && forall k :: 0 <= k < |xs| ==> r[k] == xs[k].value
  {
    seq(|xs|, k requires 0 <= k < |xs| && AllSome(xs) => xs[k].value)
  }

  /** `xs.rolling(window=p).mean()` over a column that may hold NaN: undefined if the window holds one. */
  function RollingMeanOpt(xs: seq<Option<real>>, p: nat): (r: seq<Option<real>>)
    requires 1 <= p
    ensures |r| == |xs|
    ensures forall i :: 0 <= i < |r| ==> (r[i].Some? <==> p <= i + 1 && AllSome(Window(xs, p, i)))
  {
    seq(|xs|, i requires 0 <= i < |xs| =>
      if p <= i + 1 && AllSome(Window(xs, p, i)) then Some(Sum(Values(Window(xs, p, i))) / p as real) else None)
  }

  lemma RollingMeanOptWithin(xs: seq<Option<real>>, p: nat, i: nat, lo: real, hi: real)
    requires 1 <= p <= i + 1 <= |xs|
    requires RollingMeanOpt(xs, p)[i].Some?
    requires forall k :: 0 <= k < |xs| && xs[k].Some? ==> lo <= xs[k].value <= hi
    ensures lo <= RollingMeanOpt(xs, p)[i].value <= hi
  {
    var w := Values(Window(xs, p, i));
    assert Within(w, lo, hi) by {
      forall k | 0 <= k < |w| ensures lo <= w[k] <= hi {
        assert w[k] == xs[i + 1 - p + k].value;
      }
    }
    SumWithin(w, lo, hi);
    var n := p as real;
    assert RollingMeanOpt(xs, p)[i].value == Sum(w) / n;
    DivWithin(Sum(w), n, lo, hi);
  }

  /** The smallest element (pandas' rolling `min` of one window). */
  function MinOf(xs: seq<real>): (m: real)
    requires |xs| > 0
    ensures forall k :: 0 <= k < |xs| ==> m <= xs[k]
    ensures exists k :: 0 <= k < |xs| && m == xs[k]
  {
    if |xs| == 1 then xs[0]
    else
      var m := MinOf(xs[..|xs| - 1]);
      if xs[|xs| - 1] < m then xs[|xs| - 1] else m
  }

  /** The largest element (pandas' rolling `max` of one window). */
  function MaxOf(xs: seq<real>): (m: real)
    requires |xs| > 0
    ensures forall k :: 0 <= k < |xs| ==> xs[k] <= m
    ensures exists k :: 0 <= k < |xs| && m == xs[k]
  {
    if |xs| == 1 then xs[0]
    else
      var m := MaxOf(xs[..|xs| - 1]);
      if m < xs[|xs| - 1] then xs[|xs| - 1] else m
  }

  // ---------------------------------------------------------------------------
  // Oscillators built on `100 - 100 / (1 + up / down)` (RSI and MFI)
  // ---------------------------------------------------------------------------

  /**
   * `100 - 100 / (1 + up / down)` with pandas' division: `down == 0` gives an
   * infinite ratio, hence 100, unless `up == 0` too (NaN).
   */
  function RatioIndex(up: real, down: real): (r: Option<real>)
    ensures down == 0.0 ==> r == (if up == 0.0 then None else Some(100.0))
  {
    if down == 0.0 then (if up == 0.0 then None else Some(100.0))
    else if 1.0 + up / down == 0.0 then None
    else Some(100.0 - 100.0 / (1.0 + up / down))
  }

  /** With non-negative flows the index is a percentage, 0 exactly when `up` is 0. */
  lemma RatioIndexBounds(up: real, down: real)
    requires 0.0 <= up && 0.0 <= down
    requires RatioIndex(up, down).Some?
    ensures 0.0 <= RatioIndex(up, down).value <= 100.0
    ensures RatioIndex(up, down).value == 0.0 <==> up == 0.0
  {
    if down != 0.0 {
      var q := up / down;
      assert 0.0 <= q;
      assert 100.0 / (1.0 + q) <= 100.0;
      assert 0.0 < 100.0 / (1.0 + q);
      assert 100.0 / (1.0 + q) == 100.0 <==> q == 0.0;
    }
  }

  /** The positive part of each close-to-close change; the first row, with no change (NaN), gives 0. */
  function Gains(xs: seq<real>): (r: seq<real>)
    ensures |r| == |xs| && forall i :: 0 <= i < |r| ==> 0.0 <= r[i]
  {
    seq(|xs|, i requires 0 <= i < |xs| => if 0 < i && xs[i] - xs[i - 1] > 0.0 then xs[i] - xs[i - 1] else 0.0)
  }

  /** The size of each close-to-close fall; the first row gives 0. */
  function Losses(xs: seq<real>): (r: seq<real>)
    ensures |r| == |xs| && forall i :: 0 <= i < |r| ==> 0.0 <= r[i]
  {
    seq(|xs|, i requires 0 <= i < |xs| => if 0 < i && xs[i] - xs[i - 1] < 0.0 then -(xs[i] - xs[i - 1]) else 0.0)
  }

  /** `calculate_rsi`: the rolling-mean RSI. */
  function Rsi(xs: seq<real>, p: nat): (r: seq<Option<real>>)
    requires 1 <= p
    ensures |r| == |xs|
    ensures forall i :: 0 <= i < |r| && r[i].Some? ==> p <= i + 1
  {
    var gain := RollingMean(Gains(xs), p);
    var loss := RollingMean(Losses(xs), p);
    seq(|xs|, i requires 0 <= i < |xs| =>
      if gain[i].Some? && loss[i].Some? then RatioIndex(gain[i].value, loss[i].value) else None)
  }

  /** RSI is a percentage wherever it is defined. */
  lemma RsiBounds(xs: seq<real>, p: nat, i: nat)
    requires 1 <= p && i < |xs|
    requires Rsi(xs, p)[i].Some?
    ensures 0.0 <= Rsi(xs, p)[i].value <= 100.0
  {
    var g, l := Gains(xs), Losses(xs);
    assert Within(Window(g, p, i), 0.0, 0.0 + MaxOf(Window(g, p, i)));
    assert Within(Window(l, p, i), 0.0, 0.0 + MaxOf(Window(l, p, i)));
    RollingMeanWithin(g, p, i, 0.0, MaxOf(Window(g, p, i)));
    RollingMeanWithin(l, p, i, 0.0, MaxOf(Window(l, p, i)));
    RatioIndexBounds(RollingMean(g, p)[i].value, RollingMean(l, p)[i].value);
  }

  /** With non-negative flows the index is undefined exactly when both flows are 0. */
  lemma RatioIndexDefined(up: real, down: real)
    requires 0.0 <= up && 0.0 <= down
    ensures RatioIndex(up, down).None? <==> up == 0.0 && down == 0.0
  {
    if down != 0.0 {
      assert 0.0 <= up / down;
    }
  }

  /** Some close in the window of row `i` differs from the close before it. */
  predicate Moved(xs: seq<real>, p: nat, i: nat)
    requires i < |xs|
  {
    exists k | i + 1 - p <= k <= i :: 0 < k && xs[k] != xs[k - 1]
  }

  lemma {:induction false} SumPositive(xs: seq<real>, j: nat)
    requires j < |xs| && forall k :: 0 <= k < |xs| ==> 0.0 <= xs[k]
    ensures 0.0 <= Sum(xs)
    ensures 0.0 < xs[j] ==> 0.0 < Sum(xs)
  {
    var init := xs[..|xs| - 1];
    if j < |init| {
      SumPositive(init, j);
    } else if init != [] {
      SumPositive(init, 0);
    }
  }

  /** Division by a positive number keeps the sign. */
  lemma DivSign(n: real, d: real)
    requires 0.0 < d
    ensures 0.0 <= n ==> 0.0 <= n / d
    ensures 0.0 < n ==> 0.0 < n / d
    ensures n == 0.0 ==> n / d == 0.0
  {
    assert n / d * d == n;
  }

  lemma RsiAt(xs: seq<real>, p: nat, i: nat)
    requires 1 <= p <= i + 1 <= |xs|
    ensures Rsi(xs, p)[i]
      == RatioIndex(Sum(Window(Gains(xs), p, i)) / p as real, Sum(Window(Losses(xs), p, i)) / p as real)
  {
  }

  /** A change of close inside the window leaves a positive gain or loss in it. */
  lemma MovedWindow(xs: seq<real>, p: nat, i: nat)
    requires 1 <= p <= i + 1 <= |xs| && Moved(xs, p, i)
    ensures 0.0 < Sum(Window(Gains(xs), p, i)) || 0.0 < Sum(Window(Losses(xs), p, i))
  {
    var g, l := Gains(xs), Losses(xs);
    var wg, wl := Window(g, p, i), Window(l, p, i);
    var k :| i + 1 - p <= k <= i && 0 < k && xs[k] != xs[k - 1];
    var j := k - (i + 1 - p);
    assert wg[j] == g[k] && wl[j] == l[k];
    SumPositive(wg, j);
    SumPositive(wl, j);
  }

  /** A window without a change of close has no gain and no loss. */
  lemma StillWindow(xs: seq<real>, p: nat, i: nat)
    requires 1 <= p <= i + 1 <= |xs| && !Moved(xs, p, i)
    ensures Sum(Window(Gains(xs), p, i)) == 0.0 && Sum(Window(Losses(xs), p, i)) == 0.0
  {
    var g, l := Gains(xs), Losses(xs);
    var wg, wl := Window(g, p, i), Window(l, p, i);
    forall t | 0 <= t < p ensures wg[t] == 0.0 && wl[t] == 0.0 {
      assert wg[t] == g[i + 1 - p + t] && wl[t] == l[i + 1 - p + t];
    }
    SumWithin(wg, 0.0, 0.0);
    SumWithin(wl, 0.0, 0.0);
  }

  /**
   * RSI is defined exactly from row `p - 1` on (the first row's NaN change
   * counts as no change), on the rows whose window saw a change of close.
   */
  lemma RsiDefinedIff(xs: seq<real>, p: nat, i: nat)
    requires 1 <= p && i < |xs|
    ensures Rsi(xs, p)[i].Some? <==> p <= i + 1 && Moved(xs, p, i)
  {
    if p <= i + 1 {
      var sg, sl := Sum(Window(Gains(xs), p, i)), Sum(Window(Losses(xs), p, i));
      var n := p as real;
      RsiAt(xs, p, i);
      SumPositive(Window(Gains(xs), p, i), 0);
      SumPositive(Window(Losses(xs), p, i), 0);
      DivSign(sg, n);
      DivSign(sl, n);
      RatioIndexDefined(sg / n, sl / n);
      if Moved(xs, p, i) {
        MovedWindow(xs, p, i);
      } else {
        StillWindow(xs, p, i);
      }
    }
  }

  /** On a flat close series RSI is undefined everywhere: no gain and no loss is the NaN of 0/0. */
  lemma RsiFlatUndefined(xs: seq<real>, c: real, p: nat, i: nat)
    requires 1 <= p && i < |xs| && Constant(xs, c)
    ensures Rsi(xs, p)[i].None?
  {
    RsiDefinedIff(xs, p, i);
  }

  // ---------------------------------------------------------------------------
  // Moving averages
  // ---------------------------------------------------------------------------

  /** `calculate_sma`. */
  function Sma(xs: seq<real>, p: nat): (r: seq<Option<real>>)
    requires 1 <= p
    ensures |r| == |xs|
    ensures forall i :: 0 <= i < |r| ==> (r[i].Some? <==> p <= i + 1)
  {
    RollingMean(xs, p)
  }

  /** The smoothing factor of `ewm(span=n)`. */
  function Alpha(span: nat): (a: real)
    requires 1 <= span
    ensures 0.0 < a <= 1.0
  {
    2.0 / (span as real + 1.0)
  }

  /** Row `i` of `ewm(span, adjust=False).mean()`: seeded with the first value, then `a·x + (1 - a)·previous`. */
  function EmaAt(xs: seq<real>, a: real, i: nat): real
    requires i < |xs|
  {
    if i == 0 then xs[0] else a * xs[i] + (1.0 - a) * EmaAt(xs, a, i - 1)
  }

  /** `calculate_ema`, defined on every row. */
  function Ema(xs: seq<real>, span: nat): (r: seq<real>)
    requires 1 <= span
    ensures |r| == |xs|
    ensures |xs| > 0 ==> r[0] == xs[0]
  {
    seq(|xs|, i requires 0 <= i < |xs| => EmaAt(xs, Alpha(span), i))
  }

  /** A weighted mean of two values in `[lo, hi]` stays in `[lo, hi]`. */
  lemma MixWithin(a: real, x: real, y: real, lo: real, hi: real)
    requires 0.0 <= a <= 1.0 && lo <= x <= hi && lo <= y <= hi
    ensures lo <= a * x + (1.0 - a) * y <= hi
  {
    assert a * x + (1.0 - a) * y - lo == a * (x - lo) + (1.0 - a) * (y - lo);
    assert hi - (a * x + (1.0 - a) * y) == a * (hi - x) + (1.0 - a) * (hi - y);
    ProductNonNegative(a, x - lo);
    ProductNonNegative(1.0 - a, y - lo);
    ProductNonNegative(a, hi - x);
    ProductNonNegative(1.0 - a, hi - y);
  }

  lemma {:induction false} EmaAtWithin(xs: seq<real>, a: real, i: nat, lo: real, hi: real)
    requires i < |xs| && 0.0 <= a <= 1.0 && Within(xs, lo, hi)
    ensures lo <= EmaAt(xs, a, i) <= hi
  {
    if i > 0 {
      EmaAtWithin(xs, a, i - 1, lo, hi);
      MixWithin(a, xs[i], EmaAt(xs, a, i - 1), lo, hi);
    }
  }

  /** An EMA never leaves the range of its input; on a constant series it is that constant. */
  lemma EmaWithin(xs: seq<real>, span: nat, lo: real, hi: real)
    requires 1 <= span && Within(xs, lo, hi)
    ensures Within(Ema(xs, span), lo, hi)
  {
    forall i | 0 <= i < |xs| ensures lo <= Ema(xs, span)[i] <= hi {
      EmaAtWithin(xs, Alpha(span), i, lo, hi);
    }
  }

  function Minus(xs: seq<real>, ys: seq<real>): (r: seq<real>)
    requires |xs| == |ys|
    ensures |r| == |xs| && forall i :: 0 <= i < |r| ==> r[i] == xs[i] - ys[i]
  {
    seq(|xs|, i requires 0 <= i < |xs| && |xs| == |ys| => xs[i] - ys[i])
  }

  datatype Macd = Macd(macd: seq<real>, signal: seq<real>, hist: seq<real>)

  /** `calculate_macd(fast=12, slow=26, signal=9)`. */
  function CalculateMacd(xs: seq<real>): (r: Macd)
    ensures |r.macd| == |r.signal| == |r.hist| == |xs|
    ensures forall i :: 0 <= i < |xs| ==> r.hist[i] == r.macd[i] - r.signal[i]
  {
    var fast := Ema(xs, 12);
    var slow := Ema(xs, 26);
    var macd := Minus(fast, slow);
    var signal := Ema(macd, 9);
    Macd(macd, signal, Minus(macd, signal))
  }

  /** A flat close series has MACD line, signal line and histogram all 0. */
  lemma MacdFlat(xs: seq<real>, c: real)
    requires Constant(xs, c)
    ensures Constant(CalculateMacd(xs).macd, 0.0)
    ensures Constant(CalculateMacd(xs).signal, 0.0)
    ensures Constant(CalculateMacd(xs).hist, 0.0)
  {
    EmaWithin(xs, 12, c, c);
    EmaWithin(xs, 26, c, c);
    var macd := Minus(Ema(xs, 12), Ema(xs, 26));
    assert Within(macd, 0.0, 0.0);
    EmaWithin(macd, 9, 0.0, 0.0);
  }

  /** TEMA(9): `3·e1 - 3·e2 + e3` with e2 = EMA(e1) and e3 = EMA(e2). */
  function Tema(xs: seq<real>): (r: seq<real>)
    ensures |r| == |xs|
  {
    var e1 := Ema(xs, 9);
    var e2 := Ema(e1, 9);
    var e3 := Ema(e2, 9);
    seq(|xs|, i requires 0 <= i < |xs| => 3.0 * e1[i] - 3.0 * e2[i] + e3[i])
  }

  /** On a flat series the triple EMA is the series itself. */
  lemma TemaFlat(xs: seq<real>, c: real)
    requires Constant(xs, c)
    ensures Constant(Tema(xs), c)
  {
    var e1 := Ema(xs, 9);
    EmaWithin(xs, 9, c, c);
    var e2 := Ema(e1, 9);
    EmaWithin(e1, 9, c, c);
    EmaWithin(e2, 9, c, c);
  }

  // ---------------------------------------------------------------------------
  // Bollinger bands
  // ---------------------------------------------------------------------------

  function Mean(xs: seq<real>): real
    requires |xs| > 0
  {
    Sum(xs) / |xs| as real
  }

  function Square(x: real): (r: real)
    ensures 0.0 <= r
  {
    if x < 0.0 then assert 0.0 < (-x) * (-x); x * x else x * x
  }

  function SquaredDeviations(xs: seq<real>, m: real): (r: seq<real>)
    ensures |r| == |xs| && forall k :: 0 <= k < |r| ==> 0.0 <= r[k]
  {
    seq(|xs|, k requires 0 <= k < |xs| => Square(xs[k] - m))
  }

  /** pandas' `std()` squared: the sample variance, with `n - 1` in the denominator. */
  function SampleVariance(xs: seq<real>): (v: real)
    requires |xs| >= 2
    ensures 0.0 <= v
  {
    var s := Sum(SquaredDeviations(xs, Mean(xs)));
    SumPositive(SquaredDeviations(xs, Mean(xs)), 0);
    s / (|xs| - 1) as real
  }

  /** What `sqrt` must satisfy: Dafny has no square root, so the model takes one as a parameter. */
  ghost predicate IsSqrt(sqrt: real -> real) {
    forall x :: 0.0 <= x ==> 0.0 <= sqrt(x) && sqrt(x) * sqrt(x) == x
  }

  datatype Bands = Bands(upper: seq<Option<real>>, middle: seq<Option<real>>, lower: seq<Option<real>>)

  /** `calculate_bollinger_bands(period, std=k)`: the rolling mean plus and minus `k` rolling standard deviations. */
  function BollingerBands(xs: seq<real>, p: nat, k: real, sqrt: real -> real): (r: Bands)
    requires 2 <= p
    ensures |r.upper| == |r.middle| == |r.lower| == |xs|
    ensures forall i :: 0 <= i < |xs| ==> r.upper[i].Some? == r.middle[i].Some? == r.lower[i].Some? == (p <= i + 1)
  {
    var middle := RollingMean(xs, p);
    var sd := seq(|xs|, i requires 0 <= i < |xs| => if p <= i + 1 then sqrt(SampleVariance(Window(xs, p, i))) else 0.0);
    Bands(
      seq(|xs|, i requires 0 <= i < |xs| => if middle[i].Some? then Some(middle[i].value + sd[i] * k) else None),
      middle,
      seq(|xs|, i requires 0 <= i < |xs| => if middle[i].Some? then Some(middle[i].value - sd[i] * k) else None))
  }

  /** With a true square root and `k >= 0`: `lower <= middle <= upper` on every defined row. */
  lemma BandsOrdered(xs: seq<real>, p: nat, k: real, sqrt: real -> real, i: nat)
    requires 2 <= p && 0.0 <= k && IsSqrt(sqrt) && i < |xs|
    requires BollingerBands(xs, p, k, sqrt).middle[i].Some?
    ensures BollingerBands(xs, p, k, sqrt).lower[i].value <= BollingerBands(xs, p, k, sqrt).middle[i].value
    ensures BollingerBands(xs, p, k, sqrt).middle[i].value <= BollingerBands(xs, p, k, sqrt).upper[i].value
  {
    var v := SampleVariance(Window(xs, p, i));
    assert 0.0 <= sqrt(v);
    assert 0.0 <= sqrt(v) * k;
  }

  /** `bb_percent`: where the close sits between the bands; undefined when they coincide. */
  function BandPercent(close: real, upper: Option<real>, lower: Option<real>): Option<real> {
    if upper.None? || lower.None? || upper.value - lower.value == 0.0 then None
    else Some((close - lower.value) / (upper.value - lower.value))
  }

  /** `bb_width`: band distance relative to the middle band; undefined when the middle is 0. */
  function BandWidth(upper: Option<real>, middle: Option<real>, lower: Option<real>): Option<real> {
    if upper.None? || middle.None? || lower.None? || middle.value == 0.0 then None
    else Some((upper.value - lower.value) / middle.value)
  }

  // ---------------------------------------------------------------------------
  // Stochastic, ATR, ADX, MFI
  // ---------------------------------------------------------------------------

  /** `fastk` of `calculate_stochastic`: `100·(close - lowest low) / (highest high - lowest low)`. */
  function FastK(high: seq<real>, low: seq<real>, close: seq<real>, p: nat): (r: seq<Option<real>>)
    requires 1 <= p && |high| == |low| == |close|
    ensures |r| == |close|
    ensures forall i :: 0 <= i < |r| && r[i].Some? ==> p <= i + 1
  {
    seq(|close|, i requires 0 <= i < |close| => FastKAt(high, low, close, p, i))
  }

  /** Row `i` of `%K`: where the close sits in the window's high-low range, in percent. */
  function FastKAt(high: seq<real>, low: seq<real>, close: seq<real>, p: nat, i: nat): Option<real>
    requires 1 <= p && |high| == |low| == |close| && i < |close|
  {
    if p <= i + 1 then
      var ll := MinOf(Window(low, p, i));
      var hh := MaxOf(Window(high, p, i));
      if hh - ll == 0.0 then None else Some(Percent(close[i], ll, hh))
    else None
  }

  /** Where `x` sits between `lo` and `hi`, in percent. */
  function Percent(x: real, lo: real, hi: real): real
    requires hi - lo != 0.0
  {
    100.0 * (x - lo) / (hi - lo)
  }

  lemma PercentWithin(x: real, lo: real, hi: real)
    requires lo <= x <= hi && hi - lo != 0.0
    ensures 0.0 <= Percent(x, lo, hi) <= 100.0
  {
    DivWithin(100.0 * (x - lo), hi - lo, 0.0, 100.0);
  }

  /** On well-formed candles `%K` is a percentage. */
  lemma FastKBounds(df: seq<Candle>, p: nat, i: nat)
    requires 1 <= p && i < |df| && AllWellFormed(df)
    requires FastK(Highs(df), Lows(df), Closes(df), p)[i].Some?
    ensures 0.0 <= FastK(Highs(df), Lows(df), Closes(df), p)[i].value <= 100.0
  {
    var high, low, close := Highs(df), Lows(df), Closes(df);
    var k := FastKAt(high, low, close, p, i);
    assert FastK(high, low, close, p)[i] == k;
    var wl, wh := Window(low, p, i), Window(high, p, i);
    var ll, hh := MinOf(wl), MaxOf(wh);
    assert wl[p - 1] == df[i].low && wh[p - 1] == df[i].high;
    assert ll <= close[i] <= hh;
    assert k == Some(Percent(close[i], ll, hh));
    PercentWithin(close[i], ll, hh);
  }

  datatype Stochastic = Stochastic(fastk: seq<Option<real>>, fastd: seq<Option<real>>)

  /** `calculate_stochastic`: `%K` and its 3-row mean `%D`. */
  function CalculateStochastic(high: seq<real>, low: seq<real>, close: seq<real>, p: nat): (r: Stochastic)
    requires 1 <= p && |high| == |low| == |close|
    ensures |r.fastk| == |r.fastd| == |close|
  {
    var k := FastK(high, low, close, p);
    Stochastic(k, RollingMeanOpt(k, 3))
  }

  /** True range; on the first row the two terms with the previous close are NaN and `max` skips them. */
  function TrueRange(high: seq<real>, low: seq<real>, close: seq<real>): (r: seq<real>)
    requires |high| == |low| == |close|
    ensures |r| == |close|
    ensures forall i :: 0 < i < |r| ==> 0.0 <= r[i]
    ensures forall i :: 0 <= i < |r| ==> high[i] - low[i] <= r[i]
  {
    seq(|close|, i requires 0 <= i < |close| =>
      if i == 0 then high[i] - low[i]
      else Max(high[i] - low[i], Max(Abs(high[i] - close[i - 1]), Abs(low[i] - close[i - 1]))))
  }

  /** `calculate_atr`. */
  function Atr(high: seq<real>, low: seq<real>, close: seq<real>, p: nat): (r: seq<Option<real>>)
    requires 1 <= p && |high| == |low| == |close|
    ensures |r| == |close|
    ensures forall i :: 0 <= i < |r| ==> (r[i].Some? <==> p <= i + 1)
  {
    RollingMean(TrueRange(high, low, close), p)
  }

  /** On well-formed candles every true range, hence the ATR, is non-negative. */
  lemma AtrNonNegative(df: seq<Candle>, p: nat, i: nat)
    requires 1 <= p <= i + 1 <= |df| && AllWellFormed(df)
    ensures 0.0 <= Atr(Highs(df), Lows(df), Closes(df), p)[i].value
  {
    var tr := TrueRange(Highs(df), Lows(df), Closes(df));
    var w := Window(tr, p, i);
    assert Within(w, 0.0, MaxOf(w)) by {
      forall k | 0 <= k < |w| ensures 0.0 <= w[k] {
        assert w[k] == tr[i + 1 - p + k];
        assert df[i + 1 - p + k].low <= df[i + 1 - p + k].high;
      }
    }
    RollingMeanWithin(tr, p, i, 0.0, MaxOf(w));
  }

  /** `+DM`: the rise of the high when it beats the fall of the low and is positive (0 on the first row). */
  function PlusDm(high: seq<real>, low: seq<real>): (r: seq<real>)
    requires |high| == |low|
    ensures |r| == |high| && forall i :: 0 <= i < |r| ==> 0.0 <= r[i]
  {
    seq(|high|, i requires 0 <= i < |high| =>
      if 0 < i && high[i] - high[i - 1] > low[i - 1] - low[i] && high[i] - high[i - 1] > 0.0
      then high[i] - high[i - 1] else 0.0)
  }

  /** `-DM`: the fall of the low when it beats the rise of the high and is positive (0 on the first row). */
  function MinusDm(high: seq<real>, low: seq<real>): (r: seq<real>)
    requires |high| == |low|
    ensures |r| == |high| && forall i :: 0 <= i < |r| ==> 0.0 <= r[i]
  {
    seq(|high|, i requires 0 <= i < |high| =>
      if 0 < i && low[i - 1] - low[i] > high[i] - high[i - 1] && low[i - 1] - low[i] > 0.0
      then low[i - 1] - low[i] else 0.0)
  }

  /** `100·(mean DM / ATR)`: undefined while either mean is, and when the ATR is 0. */
  function DirectionalIndex(dm: seq<real>, atr: seq<Option<real>>, p: nat): (r: seq<Option<real>>)
    requires 1 <= p && |dm| == |atr|
    ensures |r| == |dm|
  {
    var m := RollingMean(dm, p);
    seq(|dm|, i requires 0 <= i < |dm| =>
      if m[i].Some? && atr[i].Some? && atr[i].value != 0.0 then Some(100.0 * (m[i].value / atr[i].value)) else None)
  }

  /** DX: `100·|+DI - -DI| / (+DI + -DI)`, undefined when the sum is 0. */
  function Dx(plusDi: seq<Option<real>>, minusDi: seq<Option<real>>): (r: seq<Option<real>>)
    requires |plusDi| == |minusDi|
    ensures |r| == |plusDi|
    ensures forall i :: 0 <= i < |r| && r[i].Some? ==> plusDi[i].Some? && minusDi[i].Some?
  {
    seq(|plusDi|, i requires 0 <= i < |plusDi| =>
      if plusDi[i].Some? && minusDi[i].Some? && plusDi[i].value + minusDi[i].value != 0.0
      then Some(100.0 * Abs(plusDi[i].value - minusDi[i].value) / (plusDi[i].value + minusDi[i].value))
      else None)
  }

  /** The DX column of `calculate_adx`, before its final rolling mean. */
  function DxSeries(high: seq<real>, low: seq<real>, close: seq<real>, p: nat): (r: seq<Option<real>>)
    requires 1 <= p && |high| == |low| == |close|
    ensures |r| == |close|
  {
    var atr := RollingMean(TrueRange(high, low, close), p);
    Dx(DirectionalIndex(PlusDm(high, low), atr, p), DirectionalIndex(MinusDm(high, low), atr, p))
  }

  /** `calculate_adx`. */
  function Adx(high: seq<real>, low: seq<real>, close: seq<real>, p: nat): (r: seq<Option<real>>)
    requires 1 <= p && |high| == |low| == |close|
    ensures |r| == |close|
  {
    RollingMeanOpt(DxSeries(high, low, close, p), p)
  }

  /** ADX averages a DX that itself needs a full window, so it is undefined before row `2·(p - 1)`. */
  lemma AdxLateStart(high: seq<real>, low: seq<real>, close: seq<real>, p: nat, i: nat)
    requires 1 <= p && |high| == |low| == |close| && i < |close|
    requires Adx(high, low, close, p)[i].Some?
    ensures 2 * (p - 1) <= i
  {
    var atr := RollingMean(TrueRange(high, low, close), p);
    var dx := DxSeries(high, low, close, p);
    var w := Window(dx, p, i);
    assert w[0] == dx[i + 1 - p];
    assert atr[i + 1 - p].Some?;
  }

  /** On well-formed candles every defined DX is a percentage. */
  lemma DxSeriesBounds(df: seq<Candle>, p: nat, k: nat)
    requires 1 <= p && k < |df| && AllWellFormed(df)
    requires DxSeries(Highs(df), Lows(df), Closes(df), p)[k].Some?
    ensures 0.0 <= DxSeries(Highs(df), Lows(df), Closes(df), p)[k].value <= 100.0
  {
    var high, low, close := Highs(df), Lows(df), Closes(df);
    var atr := RollingMean(TrueRange(high, low, close), p);
    forall j | 0 <= j < |atr| && atr[j].Some? ensures 0.0 <= atr[j].value {
      AtrNonNegative(df, p, j);
    }
    var plusDi := DirectionalIndex(PlusDm(high, low), atr, p);
    var minusDi := DirectionalIndex(MinusDm(high, low), atr, p);
    DirectionalIndexNonNegative(PlusDm(high, low), atr, p);
    DirectionalIndexNonNegative(MinusDm(high, low), atr, p);
    DxWithin(plusDi, minusDi, k);
  }

  lemma DxWithin(plusDi: seq<Option<real>>, minusDi: seq<Option<real>>, k: nat)
    requires |plusDi| == |minusDi| && k < |plusDi|
    requires forall j :: 0 <= j < |plusDi| && plusDi[j].Some? ==> 0.0 <= plusDi[j].value
    requires forall j :: 0 <= j < |minusDi| && minusDi[j].Some? ==> 0.0 <= minusDi[j].value
    requires Dx(plusDi, minusDi)[k].Some?
    ensures 0.0 <= Dx(plusDi, minusDi)[k].value <= 100.0
  {
    DxBounds(plusDi[k].value, minusDi[k].value);
  }

  /** On well-formed candles ADX is a percentage. */
  lemma AdxBounds(df: seq<Candle>, p: nat, i: nat)
    requires 1 <= p && i < |df| && AllWellFormed(df)
    requires Adx(Highs(df), Lows(df), Closes(df), p)[i].Some?
    ensures 0.0 <= Adx(Highs(df), Lows(df), Closes(df), p)[i].value <= 100.0
  {
    var dx := DxSeries(Highs(df), Lows(df), Closes(df), p);
    forall k | 0 <= k < |dx| && dx[k].Some? ensures 0.0 <= dx[k].value <= 100.0 {
      DxSeriesBounds(df, p, k);
    }
    RollingMeanOptWithin(dx, p, i, 0.0, 100.0);
  }

  lemma DirectionalIndexNonNegative(dm: seq<real>, atr: seq<Option<real>>, p: nat)
    requires 1 <= p && |dm| == |atr|
    requires forall j :: 0 <= j < |dm| ==> 0.0 <= dm[j]
    requires forall j :: 0 <= j < |atr| && atr[j].Some? ==> 0.0 <= atr[j].value
    ensures forall k :: 0 <= k < |dm| && DirectionalIndex(dm, atr, p)[k].Some? ==>
      0.0 <= DirectionalIndex(dm, atr, p)[k].value
  {
    forall k | 0 <= k < |dm| && DirectionalIndex(dm, atr, p)[k].Some?
      ensures 0.0 <= DirectionalIndex(dm, atr, p)[k].value
    {
      var w := Window(dm, p, k);
      assert Within(w, 0.0, MaxOf(w));
      RollingMeanWithin(dm, p, k, 0.0, MaxOf(w));
      DivSign(RollingMean(dm, p)[k].value, atr[k].value);
    }
  }

  lemma DxBounds(a: real, b: real)
    requires 0.0 <= a && 0.0 <= b && a + b != 0.0
    ensures 0.0 <= 100.0 * Abs(a - b) / (a + b) <= 100.0
  {
    assert Abs(a - b) <= a + b;
    DivWithin(100.0 * Abs(a - b), a + b, 0.0, 100.0);
  }

  function TypicalPrice(high: seq<real>, low: seq<real>, close: seq<real>): (r: seq<real>)
    requires |high| == |low| == |close|
    ensures |r| == |close|
  {
    seq(|close|, i requires 0 <= i < |close| => (high[i] + low[i] + close[i]) / 3.0)
  }

  /** The money flow of the rows whose typical price rose (`up`) or fell (`!up`) from the row before; 0 elsewhere. */
  function DirectedFlow(tp: seq<real>, volume: seq<real>, up: bool): (r: seq<real>)
    requires |tp| == |volume|
    ensures |r| == |tp|
  {
    seq(|tp|, i requires 0 <= i < |tp| =>
      if 0 < i && (if up then tp[i] > tp[i - 1] else tp[i] < tp[i - 1]) then tp[i] * volume[i] else 0.0)
  }

  /** Flows of non-negative prices and volumes are non-negative. */
  lemma DirectedFlowNonNegative(tp: seq<real>, volume: seq<real>, up: bool)
    requires |tp| == |volume|
    requires forall k :: 0 <= k < |tp| ==> 0.0 <= tp[k] && 0.0 <= volume[k]
    ensures forall k :: 0 <= k < |tp| ==> 0.0 <= DirectedFlow(tp, volume, up)[k]
  {
    forall k | 0 <= k < |tp| ensures 0.0 <= DirectedFlow(tp, volume, up)[k] {
      ProductNonNegative(tp[k], volume[k]);
    }
  }

  lemma ProductNonNegative(a: real, b: real)
    requires 0.0 <= a && 0.0 <= b
    ensures 0.0 <= a * b
  {
  }

  /** `calculate_mfi`. */
  function Mfi(high: seq<real>, low: seq<real>, close: seq<real>, volume: seq<real>, p: nat): (r: seq<Option<real>>)
    requires 1 <= p && |high| == |low| == |close| == |volume|
    ensures |r| == |close|
    ensures forall i :: 0 <= i < |r| && r[i].Some? ==> p <= i + 1
  {
    var tp := TypicalPrice(high, low, close);
    var pos := RollingSum(DirectedFlow(tp, volume, true), p);
    var neg := RollingSum(DirectedFlow(tp, volume, false), p);
    seq(|close|, i requires 0 <= i < |close| =>
      if pos[i].Some? && neg[i].Some? then RatioIndex(pos[i].value, neg[i].value) else None)
  }

  /** On well-formed candles MFI is a percentage. */
  lemma MfiBounds(df: seq<Candle>, p: nat, i: nat)
    requires 1 <= p && i < |df| && AllWellFormed(df)
    requires Mfi(Highs(df), Lows(df), Closes(df), Volumes(df), p)[i].Some?
    ensures 0.0 <= Mfi(Highs(df), Lows(df), Closes(df), Volumes(df), p)[i].value <= 100.0
  {
    var tp := TypicalPrice(Highs(df), Lows(df), Closes(df));
    var vol := Volumes(df);
    forall k | 0 <= k < |df| ensures 0.0 <= tp[k] && 0.0 <= vol[k] {
      assert WellFormed(df[k]);
    }
    var up, down := DirectedFlow(tp, vol, true), DirectedFlow(tp, vol, false);
    DirectedFlowNonNegative(tp, vol, true);
    DirectedFlowNonNegative(tp, vol, false);
    SumPositive(Window(up, p, i), 0);
    SumPositive(Window(down, p, i), 0);
    RatioIndexBounds(Sum(Window(up, p, i)), Sum(Window(down, p, i)));
  }

  // ---------------------------------------------------------------------------
  // Running series: SAR, OBV, AD
  // ---------------------------------------------------------------------------

  const SarAcceleration: real := 0.02

  /** Row `i` of the simplified SAR: seeded with the first low, then moved 2% of the way to the previous high. */
  function SarAt(high: seq<real>, low: seq<real>, i: nat): real
    requires |high| == |low| && i < |high|
  {
    if i == 0 then low[0]
    else SarAt(high, low, i - 1) + SarAcceleration * (high[i - 1] - SarAt(high, low, i - 1))
  }

  /** `calculate_sar`; the source indexes row 0, so it needs a non-empty frame. */
  function Sar(high: seq<real>, low: seq<real>): (r: seq<real>)
    requires |high| == |low|
    ensures |r| == |high|
    ensures |r| > 0 ==> r[0] == low[0]
  {
    seq(|high|, i requires 0 <= i < |high| => SarAt(high, low, i))
  }

  /** The loop of `calculate_sar`, filling the series in place. */
  method CalculateSar(high: seq<real>, low: seq<real>) returns (sar: seq<real>)
    requires |high| == |low| && |high| > 0
    ensures sar == Sar(high, low)
  {
    var a := new real[|high|];
    a[0] := low[0];
    for i := 1 to |high|
      invariant forall k :: 0 <= k < i ==> a[k] == SarAt(high, low, k)
    {
      a[i] := a[i - 1] + SarAcceleration * (high[i - 1] - a[i - 1]);
    }
    sar := a[..];
  }

  /** SAR never leaves a range that holds the first low and every high. */
  lemma {:induction false} SarWithin(high: seq<real>, low: seq<real>, i: nat, lo: real, hi: real)
    requires |high| == |low| && i < |high|
    requires lo <= low[0] <= hi && Within(high, lo, hi)
    ensures lo <= SarAt(high, low, i) <= hi
  {
    if i > 0 {
      var prev := SarAt(high, low, i - 1);
      SarWithin(high, low, i - 1, lo, hi);
      assert SarAt(high, low, i) == SarAcceleration * high[i - 1] + (1.0 - SarAcceleration) * prev;
      MixWithin(SarAcceleration, high[i - 1], prev, lo, hi);
    }
  }

  /** The OBV change at row `i > 0`: plus the volume on a higher close, minus it on a lower one, else nothing. */
  function ObvStep(close: seq<real>, volume: seq<real>, i: nat): real
    requires |close| == |volume| && 0 < i < |close|
  {
    if close[i] > close[i - 1] then volume[i]
    else if close[i] < close[i - 1] then -volume[i]
    else 0.0
  }

  function ObvAt(close: seq<real>, volume: seq<real>, i: nat): real
    requires |close| == |volume| && i < |close|
  {
    if i == 0 then 0.0 else ObvAt(close, volume, i - 1) + ObvStep(close, volume, i)
  }

  /** On-balance volume, as a column. */
  function Obv(close: seq<real>, volume: seq<real>): (r: seq<real>)
    requires |close| == |volume|
    ensures |r| == |close|
    ensures |r| > 0 ==> r[0] == 0.0
  {
    seq(|close|, i requires 0 <= i < |close| => ObvAt(close, volume, i))
  }

  /** The OBV loop of `populate_indicators`, appending to a list that starts as `[0]`. */
  method CalculateObv(close: seq<real>, volume: seq<real>) returns (obv: seq<real>)
    requires |close| == |volume| && |close| > 0
    ensures obv == Obv(close, volume)
  {
    obv := [0.0];
    for i := 1 to |close|
      invariant |obv| == i
      invariant forall k :: 0 <= k < i ==> obv[k] == ObvAt(close, volume, k)
    {
      if close[i] > close[i - 1] {
        obv := obv + [obv[|obv| - 1] + volume[i]];
      } else if close[i] < close[i - 1] {
        obv := obv + [obv[|obv| - 1] - volume[i]];
      } else {
        obv := obv + [obv[|obv| - 1]];
      }
    }
  }

  /** OBV moves at most by the volume traded since the first row; a flat close keeps it at 0. */
  lemma {:induction false} ObvBounded(close: seq<real>, volume: seq<real>, i: nat)
    requires |close| == |volume| && i < |close|
    requires forall k :: 0 <= k < |volume| ==> 0.0 <= volume[k]
    ensures Abs(ObvAt(close, volume, i)) <= Sum(volume[1..i + 1])
  {
    if i > 0 {
      ObvBounded(close, volume, i - 1);
      assert volume[1..i + 1][..i - 1] == volume[1..i];
    }
  }

  lemma {:induction false} ObvFlat(close: seq<real>, volume: seq<real>, c: real, i: nat)
    requires |close| == |volume| && i < |close| && Constant(close, c)
    ensures ObvAt(close, volume, i) == 0.0
  {
    if i > 0 {
      ObvFlat(close, volume, c, i - 1);
    }
  }

  /** The close location value; forced to 0 (`fillna(0)`) when the candle has no range. */
  function Clv(c: Candle): real {
    if c.high - c.low == 0.0 then 0.0 else ((c.close - c.low) - (c.high - c.close)) / (c.high - c.low)
  }

  lemma ClvBounds(c: Candle)
    requires WellFormed(c)
    ensures -1.0 <= Clv(c) <= 1.0
  {
    if c.high - c.low != 0.0 {
      DivWithin((c.close - c.low) - (c.high - c.close), c.high - c.low, -1.0, 1.0);
    }
  }

  function AdAt(df: seq<Candle>, i: nat): real
    requires i < |df|
  {
    (if i == 0 then 0.0 else AdAt(df, i - 1)) + FlowVolume(df[i])
  }

  /** Accumulation/distribution: the running sum of `CLV·volume`. */
  function Ad(df: seq<Candle>): (r: seq<real>)
    ensures |r| == |df|
  {
    seq(|df|, i requires 0 <= i < |df| => AdAt(df, i))
  }

  /** The volume a candle adds to AD, weighted by where it closed in its range. */
  function FlowVolume(c: Candle): real {
    Clv(c) * c.volume
  }

  lemma FlowVolumeBounds(c: Candle)
    requires WellFormed(c)
    ensures -c.volume <= FlowVolume(c) <= c.volume
  {
    ClvBounds(c);
    var k := Clv(c);
    ProductNonNegative(1.0 - k, c.volume);
    ProductNonNegative(1.0 + k, c.volume);
    assert (1.0 - k) * c.volume == c.volume - k * c.volume;
    assert (1.0 + k) * c.volume == c.volume + k * c.volume;
  }

  lemma AbsStep(prev: real, s: real, t: real, v: real)
    requires Abs(prev) <= s && -v <= t <= v
    ensures Abs(prev + t) <= s + v
  {
  }

  /** On well-formed candles AD moves at most by the volume traded so far. */
  lemma {:induction false} AdBounded(df: seq<Candle>, i: nat)
    requires i < |df| && AllWellFormed(df)
    ensures Abs(AdAt(df, i)) <= Sum(Volumes(df)[..i + 1])
  {
    var vs := Volumes(df);
    FlowVolumeBounds(df[i]);
    var prev := if i == 0 then 0.0 else AdAt(df, i - 1);
    if i > 0 {
      AdBounded(df, i - 1);
    } else {
      assert vs[..i] == [];
    }
    assert vs[..i + 1][..i] == vs[..i];
    assert Sum(vs[..i + 1]) == Sum(vs[..i]) + df[i].volume;
    AbsStep(prev, Sum(vs[..i]), FlowVolume(df[i]), df[i].volume);
  }

  /** NATR: the ATR as a percentage of the close; undefined on a zero close. */
  function Natr(atr: seq<Option<real>>, close: seq<real>): (r: seq<Option<real>>)
    requires |atr| == |close|
    ensures |r| == |close|
    ensures forall i :: 0 <= i < |r| ==> (r[i].Some? <==> atr[i].Some? && close[i] != 0.0)
    ensures forall i :: 0 <= i < |r| && r[i].Some? && 0.0 <= atr[i].value && 0.0 < close[i] ==> 0.0 <= r[i].value
  {
    seq(|close|, i requires 0 <= i < |close| =>
      if atr[i].Some? && close[i] != 0.0 then Some(atr[i].value / close[i] * 100.0) else None)
  }

  // ---------------------------------------------------------------------------
  // populate_indicators
  // ---------------------------------------------------------------------------

  /** One row of the enriched frame: the candle and every indicator column. */
  datatype Row = Row(
    candle: Candle,
    rsi: Option<real>, fastk: Option<real>, fastd: Option<real>,
    macd: Option<real>, macdsignal: Option<real>, macdhist: Option<real>,
    mfi: Option<real>, adx: Option<real>,
    bbUpper: Option<real>, bbMiddle: Option<real>, bbLower: Option<real>,
    bbPercent: Option<real>, bbWidth: Option<real>,
    ema9: Option<real>, ema21: Option<real>, ema50: Option<real>, ema200: Option<real>,
    sma20: Option<real>, sma50: Option<real>, sma200: Option<real>,
    sar: Option<real>, tema: Option<real>, obv: Option<real>, ad: Option<real>,
    atr: Option<real>, natr: Option<real>)

  /** The indicator columns of a non-empty frame, row by row. */
  function Enrich(df: seq<Candle>, sqrt: real -> real): (r: seq<Row>)
    ensures |r| == |df|
    ensures forall i :: 0 <= i < |df| ==> r[i].candle == df[i]
  {
    var high, low, close, volume := Highs(df), Lows(df), Closes(df), Volumes(df);
    var rsi := Rsi(close, 14);
    var stoch := CalculateStochastic(high, low, close, 14);
    var macd := CalculateMacd(close);
    var mfi := Mfi(high, low, close, volume, 14);
    var adx := Adx(high, low, close, 14);
    var bb := BollingerBands(close, 20, 2.0, sqrt);
    var ema9, ema21, ema50, ema200 := Ema(close, 9), Ema(close, 21), Ema(close, 50), Ema(close, 200);
    var sma20, sma50, sma200 := Sma(close, 20), Sma(close, 50), Sma(close, 200);
    var sar := Sar(high, low);
    var tema := Tema(close);
    var obv := Obv(close, volume);
    var ad := Ad(df);
    var atr := Atr(high, low, close, 14);
    var natr := Natr(atr, close);
    seq(|df|, i requires 0 <= i < |df| =>
      Row(df[i], rsi[i], stoch.fastk[i], stoch.fastd[i],
          Some(macd.macd[i]), Some(macd.signal[i]), Some(macd.hist[i]),
          mfi[i], adx[i],
          bb.upper[i], bb.middle[i], bb.lower[i],
          BandPercent(close[i], bb.upper[i], bb.lower[i]), BandWidth(bb.upper[i], bb.middle[i], bb.lower[i]),
          Some(ema9[i]), Some(ema21[i]), Some(ema50[i]), Some(ema200[i]),
          sma20[i], sma50[i], sma200[i],
          Some(sar[i]), Some(tema[i]), Some(obv[i]), Some(ad[i]),
          atr[i], natr[i]))
  }

  /**
   * `populate_indicators`: a missing or empty frame comes back as it is;
   * otherwise a new frame whose candle columns are the input's.
   */
  function PopulateIndicators(df: Option<seq<Candle>>, sqrt: real -> real): (r: Option<seq<Row>>)
    ensures r.None? <==> df.None?
    ensures df.Some? ==> |r.value| == |df.value|
    ensures df.Some? ==> forall i :: 0 <= i < |df.value| ==> r.value[i].candle == df.value[i]
  {
    if df.None? then None
    else if |df.value| == 0 then Some([])
    else Some(Enrich(df.value, sqrt))
  }
}
