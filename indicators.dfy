/** The indicator engine (`calc_indicators`): each derived column of the frame
    as a function of the bar series and a bar index. A value still inside its
    rolling warm-up window, or produced by a zero denominator, is `None` (NaN). */
module Indicators {
  import opened Floats
  import opened Common

  /** One OHLCV row as returned by the exchange: `[ts, open, high, low, close, vol]`. */
  datatype Bar = Bar(ts: int, open: real, high: real, low: real, close: real, vol: real)

  function Sum(s: seq<real>): real
  {
    if s == [] then 0.0 else Sum(s[..|s| - 1]) + s[|s| - 1]
  }

  lemma {:induction false} SumNonNegative(s: seq<real>)
    requires forall i :: 0 <= i < |s| ==> s[i] >= 0.0
    ensures Sum(s) >= 0.0
  {
    if s != [] {
      SumNonNegative(s[..|s| - 1]);
    }
  }

  /** A sum of non-negative terms is zero only when every term is. */
  lemma {:induction false} SumZeroAllZero(s: seq<real>)
    requires forall i :: 0 <= i < |s| ==> s[i] >= 0.0
    requires Sum(s) == 0.0
    ensures forall i :: 0 <= i < |s| ==> s[i] == 0.0
  {
    if s != [] {
      SumNonNegative(s[..|s| - 1]);
      SumZeroAllZero(s[..|s| - 1]);
    }
  }

  lemma {:induction false} SumConstant(s: seq<real>, c: real)
    requires forall i :: 0 <= i < |s| ==> s[i] == c
    ensures Sum(s) == |s| as real * c
  {
    if s != [] {
      SumConstant(s[..|s| - 1], c);
    }
  }

  /** Sums are monotone in their terms. */
  lemma {:induction false} SumMonotone(a: seq<real>, b: seq<real>)
    requires |a| == |b|
    requires forall i :: 0 <= i < |a| ==> a[i] <= b[i]
    ensures Sum(a) <= Sum(b)
  {
    if a != [] {
      SumMonotone(a[..|a| - 1], b[..|b| - 1]);
    }
  }

  /** Sums are linear: a term-wise multiple sums to the multiple of the sum. */
  lemma {:induction false} SumScaled(a: seq<real>, b: seq<real>, c: real)
    requires |a| == |b|
    requires forall i :: 0 <= i < |a| ==> a[i] == c * b[i]
    ensures Sum(a) == c * Sum(b)
  {
    if a != [] {
      SumScaled(a[..|a| - 1], b[..|b| - 1], c);
    }
  }

  /** The `n` values ending at index `t`, the window `rolling(n)` reads at `t`. */
  function Window(s: seq<real>, t: nat, n: nat): seq<real>
    requires n <= t + 1 && t < |s|
  {
    s[t + 1 - n..t + 1]
  }

  /** `rolling(n).mean()` at index `t`: NaN until `n` values are available. */
  function RollingMean(s: seq<real>, t: nat, n: nat): (m: Float)
    requires 1 <= n && t < |s|
    ensures m.Some? <==> t + 1 >= n
  {
    if t + 1 < n then None else Some(Sum(Window(s, t, n)) / n as real)
  }

  function Closes(bars: seq<Bar>): (c: seq<real>)
    ensures |c| == |bars| && forall i :: 0 <= i < |bars| ==> c[i] == bars[i].close
  {
    seq(|bars|, i requires 0 <= i < |bars| => bars[i].close)
  }

  function Volumes(bars: seq<Bar>): (v: seq<real>)
    ensures |v| == |bars| && forall i :: 0 <= i < |bars| ==> v[i] == bars[i].vol
  {
    seq(|bars|, i requires 0 <= i < |bars| => bars[i].vol)
  }

  // ---------------------------------------------------------------- RSI (14)

  function Max0(x: real): real { if x > 0.0 then x else 0.0 }

  /** `delta.where(delta > 0, 0)`: the first delta is NaN, which fails the test
      and so becomes 0 rather than staying NaN. */
  function Gains(c: seq<real>): (g: seq<real>)
    ensures |g| == |c|
  {
    seq(|c|, i requires 0 <= i < |c| => GainAt(c, i))
  }

  function GainAt(c: seq<real>, i: nat): real
    requires i < |c|
  {
    if i == 0 then 0.0 else Max0(c[i] - c[i - 1])
  }

  /** `-delta.where(delta < 0, 0)`, with the same treatment of the first delta. */
  function Losses(c: seq<real>): (l: seq<real>)
    ensures |l| == |c|
  {
    seq(|c|, i requires 0 <= i < |c| => LossAt(c, i))
  }

  function LossAt(c: seq<real>, i: nat): real
    requires i < |c|
  {
    if i == 0 then 0.0 else Max0(c[i - 1] - c[i])
  }

  function AvgGain(c: seq<real>, t: nat): Float
    requires t < |c|
  {
    RollingMean(Gains(c), t, 14)
  }

  function AvgLoss(c: seq<real>, t: nat): Float
    requires t < |c|
  {
    RollingMean(Losses(c), t, 14)
  }

  lemma AveragesNonNegative(c: seq<real>, t: nat)
    requires 13 <= t < |c|
    ensures AvgGain(c, t).Some? && AvgGain(c, t).value >= 0.0
    ensures AvgLoss(c, t).Some? && AvgLoss(c, t).value >= 0.0
  {
    var g, l := Gains(c), Losses(c);
    var wg, wl := Window(g, t, 14), Window(l, t, 14);
    forall i | 0 <= i < 14 ensures wg[i] >= 0.0 && wl[i] >= 0.0 {
      assert wg[i] == g[t - 13 + i] && wl[i] == l[t - 13 + i];
    }
    SumNonNegative(wg);
    SumNonNegative(wl);
  }

  /** `rsi` at bar `t`: NaN during the 14-bar warm-up and when the price did
      not move at all over the window. */
  function Rsi(c: seq<real>, t: nat): (r: Float)
    requires t < |c|
    ensures r.Some? <==> t >= 13 && AvgGain(c, t).value + AvgLoss(c, t).value != 0.0
  {
    if t < 13 then None
    else
      AveragesNonNegative(c, t);
      RsiOf(AvgGain(c, t).value, AvgLoss(c, t).value)
  }

  /** Wherever it is defined, past the warm-up, the RSI lies in [0, 100]. */
  lemma RsiBounded(c: seq<real>, t: nat)
    requires t < |c| && Rsi(c, t).Some?
    ensures 0.0 <= Rsi(c, t).value <= 100.0
  {
    AveragesNonNegative(c, t);
  }

  /** `100 - 100 / (1 + rs)` with `rs = gain / loss`, read as IEEE arithmetic:
      a zero loss makes `rs` infinite and the RSI exactly 100, unless the gain
      is zero too and `0 / 0` is NaN. Whenever it is defined it is the gains'
      share of all movement, `100 * gain / (gain + loss)`. */
  function RsiOf(g: real, l: real): (r: Float)
    requires g >= 0.0 && l >= 0.0
    ensures r.Some? <==> g + l != 0.0
    ensures r.Some? ==> 0.0 <= r.value <= 100.0 && r.value * (g + l) == 100.0 * g
  {
    if l == 0.0 then (if g == 0.0 then None else Some(100.0))
    else
      RsiShare(g, l);
      Some(100.0 - 100.0 / (1.0 + g / l))
  }

  lemma RsiShare(g: real, l: real)
    requires g >= 0.0 && l > 0.0
    ensures 100.0 - 100.0 / (1.0 + g / l) == 100.0 * g / (g + l)
    ensures 0.0 <= 100.0 * g / (g + l) < 100.0
    ensures (100.0 * g / (g + l)) * (g + l) == 100.0 * g
  {
    var q := g / l;
    assert q * l == g;
    var d := 1.0 + q;
    assert d * l == l + g;
    var x := 100.0 / d;
    assert x * d == 100.0;
    assert x * (l + g) == x * d * l == 100.0 * l;
    assert x == 100.0 * l / (g + l);
    var r := g / (g + l);
    assert r * (g + l) == g;
    assert (100.0 - x) * (g + l) == (100.0 * r) * (g + l);
    Cancel(100.0 - x, 100.0 * r, g + l);
    assert 100.0 * g / (g + l) == 100.0 * r;
    MulNonNegative(r, g + l);
  }

  lemma Cancel(a: real, b: real, c: real)
    requires c != 0.0 && a * c == b * c
    ensures a == b
  {
    assert (a - b) * c == 0.0;
  }

  lemma MulNonNegative(a: real, b: real)
    requires b > 0.0
    ensures a * b >= 0.0 ==> a >= 0.0
    ensures a * b < b ==> a < 1.0
  {
  }

  // ---------------------------------------------------------------- CCI (20)

  /** Typical price `(high + low + close) / 3`. */
  function TypicalPrices(bars: seq<Bar>): (tp: seq<real>)
    ensures |tp| == |bars|
    ensures forall i :: 0 <= i < |bars| ==> tp[i] == (bars[i].high + bars[i].low + bars[i].close) / 3.0
  {
    seq(|bars|, i requires 0 <= i < |bars| => (bars[i].high + bars[i].low + bars[i].close) / 3.0)
  }

  /** `tp.rolling(20).mean()` at an index past its warm-up. */
  function Sma20(tp: seq<real>, j: nat): real
    requires 19 <= j < |tp|
  {
    Sum(Window(tp, j, 20)) / 20.0
  }

  /** `(tp - sma).abs()` for the indices `lo .. hi - 1`. */
  function AbsDeviations(tp: seq<real>, lo: nat, hi: nat): (d: seq<real>)
    requires 19 <= lo <= hi <= |tp|
    ensures |d| == hi - lo
    ensures forall k :: 0 <= k < hi - lo ==> d[k] == Abs(tp[lo + k] - Sma20(tp, lo + k)) && d[k] >= 0.0
  {
    seq(hi - lo, k requires 0 <= k < hi - lo => Abs(tp[lo + k] - Sma20(tp, lo + k)))
  }

  /** `(tp - sma).abs().rolling(20).mean()`: the deviation column is NaN for its
      first 19 rows, so this mean is NaN until index 38. */
  function Mad(tp: seq<real>, t: nat): (m: Float)
    requires t < |tp|
    ensures m.Some? <==> t >= 38
    ensures m.Some? ==> m.value >= 0.0
  {
    if t < 38 then None
    else
      SumNonNegative(AbsDeviations(tp, t - 19, t + 1));
      Some(Sum(AbsDeviations(tp, t - 19, t + 1)) / 20.0)
  }

  /** A zero mean deviation means the last deviation is zero too, so the CCI
      quotient is `0 / 0`, NaN (never an infinity). */
  lemma MadZeroDeviationZero(tp: seq<real>, t: nat)
    requires 38 <= t < |tp| && Mad(tp, t).value == 0.0
    ensures tp[t] == Sma20(tp, t)
  {
    var d := AbsDeviations(tp, t - 19, t + 1);
    SumZeroAllZero(d);
    assert d[19] == 0.0;
  }

  /** `(tp - sma) / (0.015 * mad)`. */
  function Cci(tp: seq<real>, t: nat): (r: Float)
    requires t < |tp|
    ensures r.Some? <==> t >= 38 && Mad(tp, t).value != 0.0
    ensures r.Some? ==> r.value * 0.015 * Mad(tp, t).value == tp[t] - Sma20(tp, t)
  {
    if t < 38 then None
    else
      var mad := Mad(tp, t).value;
      if mad == 0.0 then None else Some((tp[t] - Sma20(tp, t)) / (0.015 * mad))
  }

  /** A typical price that stays flat over the 39 bars the CCI reads leaves it
      undefined: every deviation, and so the mean deviation, is zero. */
  lemma {:induction false} FlatTypicalPriceHasNoCci(tp: seq<real>, t: nat, p: real)
    requires 38 <= t < |tp|
    requires forall j :: t - 38 <= j <= t ==> tp[j] == p
    ensures Cci(tp, t) == None
  {
    var d := AbsDeviations(tp, t - 19, t + 1);
    forall k | 0 <= k < 20 ensures d[k] == 0.0 {
      var w := Window(tp, t - 19 + k, 20);
      assert forall i :: 0 <= i < 20 ==> w[i] == tp[t - 38 + k + i];
      SumConstant(w, p);
    }
    SumConstant(d, 0.0);
  }

  // ---------------------------------------------------------------- MACD

  /** `ewm(span, adjust=False).mean()` with `alpha = 2 / (span + 1)`:
      `e[0] = x[0]`, `e[t] = alpha * x[t] + (1 - alpha) * e[t-1]`. */
  function Ema(s: seq<real>, alpha: real, t: nat): real
    requires t < |s|
  {
    if t == 0 then s[0] else alpha * s[t] + (1.0 - alpha) * Ema(s, alpha, t - 1)
  }

  function Alpha(span: nat): real { 2.0 / (span as real + 1.0) }

  /** Each EMA value is a weighted mean of the inputs so far, so it stays inside
      any band the inputs stay inside. */
  lemma {:induction false} EmaWithinBand(s: seq<real>, alpha: real, t: nat, lo: real, hi: real)
    requires t < |s| && 0.0 <= alpha <= 1.0
    requires forall i :: 0 <= i <= t ==> lo <= s[i] <= hi
    ensures lo <= Ema(s, alpha, t) <= hi
  {
    if t > 0 {
      EmaWithinBand(s, alpha, t - 1, lo, hi);
      Convex(alpha, s[t], Ema(s, alpha, t - 1), lo, hi);
    }
  }

  lemma Convex(alpha: real, x: real, y: real, lo: real, hi: real)
    requires 0.0 <= alpha <= 1.0 && lo <= x <= hi && lo <= y <= hi
    ensures lo <= alpha * x + (1.0 - alpha) * y <= hi
  {
    var beta := 1.0 - alpha;
    assert alpha * x + beta * y - lo == alpha * (x - lo) + beta * (y - lo);
    assert hi - (alpha * x + beta * y) == alpha * (hi - x) + beta * (hi - y);
    ProductNonNegative(alpha, x - lo);
    ProductNonNegative(beta, y - lo);
    ProductNonNegative(alpha, hi - x);
    ProductNonNegative(beta, hi - y);
  }

  lemma ProductNonNegative(a: real, b: real)
    requires a >= 0.0 && b >= 0.0
    ensures a * b >= 0.0
  {
  }

  /** `macd = ema12 - ema26`, defined from the first bar on. */
  function Macd(c: seq<real>, t: nat): real
    requires t < |c|
  {
    Ema(c, Alpha(12), t) - Ema(c, Alpha(26), t)
  }

  function MacdLine(c: seq<real>): (m: seq<real>)
    ensures |m| == |c| && forall i :: 0 <= i < |c| ==> m[i] == Macd(c, i)
  {
    seq(|c|, i requires 0 <= i < |c| => Macd(c, i))
  }

  /** `macd_sig = macd.ewm(span=9, adjust=False).mean()`. */
  function MacdSignal(c: seq<real>, t: nat): real
    requires t < |c|
  {
    Ema(MacdLine(c), Alpha(9), t)
  }

  /** On a flat close series both MACD lines are zero at every bar. */
  lemma FlatCloseMacdZero(c: seq<real>, t: nat, p: real)
    requires t < |c|
    requires forall i :: 0 <= i < |c| ==> c[i] == p
    ensures Macd(c, t) == 0.0 && MacdSignal(c, t) == 0.0
  {
    EmaWithinBand(c, Alpha(12), t, p, p);
    EmaWithinBand(c, Alpha(26), t, p, p);
    forall i | 0 <= i <= t ensures MacdLine(c)[i] == 0.0 {
      EmaWithinBand(c, Alpha(12), i, p, p);
      EmaWithinBand(c, Alpha(26), i, p, p);
    }
    EmaWithinBand(MacdLine(c), Alpha(9), t, 0.0, 0.0);
  }

  // ---------------------------------------------------------------- volume

  /** `vol.rolling(20).mean()`. */
  function VolumeMa(bars: seq<Bar>, t: nat): Float
    requires t < |bars|
  {
    RollingMean(Volumes(bars), t, 20)
  }

  function PriceVolumes(bars: seq<Bar>): (pv: seq<real>)
    ensures |pv| == |bars|
  {
    seq(|bars|, i requires 0 <= i < |bars| => bars[i].close * bars[i].vol)
  }

  /** `pv.rolling(100).sum() / vol.rolling(100).sum()`. A zero volume sum is
      NaN or an infinity; both fail every test the evaluator applies to it
      (`close >= vwma` is false for NaN and for +inf, and for -inf the gap
      `(close + inf) / -inf` is NaN), so both are `None` here. */
  function Vwma(bars: seq<Bar>, t: nat): (v: Float)
    requires t < |bars|
    ensures v.Some? <==> t >= 99 && Sum(Window(Volumes(bars), t, 100)) != 0.0
  {
    if t < 99 then None
    else Div(Sum(Window(PriceVolumes(bars), t, 100)), Sum(Window(Volumes(bars), t, 100)))
  }

  /** With non-negative volumes the VWMA is a weighted mean of the last 100
      closes: it lies between their lowest and highest value. */
  lemma VwmaWithinCloses(bars: seq<Bar>, t: nat, lo: real, hi: real)
    requires 99 <= t < |bars|
    requires forall j :: t - 99 <= j <= t ==> bars[j].vol >= 0.0 && lo <= bars[j].close <= hi
    requires Vwma(bars, t).Some?
    ensures lo <= Vwma(bars, t).value <= hi
  {
    WindowBounds(bars, t, lo, hi);
    QuotientWithin(Vwma(bars, t).value, Sum(Window(PriceVolumes(bars), t, 100)), Sum(Window(Volumes(bars), t, 100)), lo, hi);
  }

  /** The price-volume sum of the last 100 bars between `lo` and `hi` times
      their volume sum. */
  lemma WindowBounds(bars: seq<Bar>, t: nat, lo: real, hi: real)
    requires 99 <= t < |bars|
    requires forall j :: t - 99 <= j <= t ==> bars[j].vol >= 0.0 && lo <= bars[j].close <= hi
    ensures var v, pv := Sum(Window(Volumes(bars), t, 100)), Sum(Window(PriceVolumes(bars), t, 100));
            v >= 0.0 && lo * v <= pv <= hi * v
  {
    WindowTerms(bars, t, lo, hi);
    WeightedSumWithin(Window(Volumes(bars), t, 100), Window(Closes(bars), t, 100), Window(PriceVolumes(bars), t, 100), lo, hi);
  }

  /** The last 100 bars as weights, values and weighted terms. */
  lemma WindowTerms(bars: seq<Bar>, t: nat, lo: real, hi: real)
    requires 99 <= t < |bars|
    requires forall j :: t - 99 <= j <= t ==> bars[j].vol >= 0.0 && lo <= bars[j].close <= hi
    ensures WeightedTerms(Window(Volumes(bars), t, 100), Window(Closes(bars), t, 100), Window(PriceVolumes(bars), t, 100), lo, hi)
  {
    var v, c, pv := Window(Volumes(bars), t, 100), Window(Closes(bars), t, 100), Window(PriceVolumes(bars), t, 100);
    forall k | 0 <= k < 100 ensures v[k] >= 0.0 && lo <= c[k] <= hi && pv[k] == c[k] * v[k] {
      assert pv[k] == PriceVolumes(bars)[t - 99 + k];
      assert v[k] == Volumes(bars)[t - 99 + k];
      assert c[k] == Closes(bars)[t - 99 + k];
    }
  }

  /** Weights `v`, values `c` inside `[lo, hi]` and the weighted terms `p`. */
  predicate WeightedTerms(v: seq<real>, c: seq<real>, p: seq<real>, lo: real, hi: real)
  {
    |v| == |c| == |p| && forall j :: 0 <= j < |v| ==> v[j] >= 0.0 && lo <= c[j] <= hi && p[j] == c[j] * v[j]
  }

  /** Bounds on a sum of weighted terms `p[j] = c[j] * v[j]` with
      non-negative weights `v` and values `c` inside `[lo, hi]`. */
  lemma WeightedSumWithin(v: seq<real>, c: seq<real>, p: seq<real>, lo: real, hi: real)
    requires WeightedTerms(v, c, p, lo, hi)
    ensures Sum(v) >= 0.0
    ensures lo * Sum(v) <= Sum(p) <= hi * Sum(v)
  {
    SumNonNegative(v);
    TermBounds(v, c, p, lo, hi);
    SumMonotone(Scaled(v, lo), p);
    SumMonotone(p, Scaled(v, hi));
    ScaledSum(v, lo);
    ScaledSum(v, hi);
  }

  /** Each term `k * v[j]`. */
  function Scaled(v: seq<real>, k: real): (r: seq<real>)
    ensures |r| == |v|
  {
    seq(|v|, j requires 0 <= j < |v| => k * v[j])
  }

  lemma ScaledSum(v: seq<real>, k: real)
    ensures Sum(Scaled(v, k)) == k * Sum(v)
  {
    SumScaled(Scaled(v, k), v, k);
  }

  lemma TermBounds(v: seq<real>, c: seq<real>, p: seq<real>, lo: real, hi: real)
    requires WeightedTerms(v, c, p, lo, hi)
    ensures forall j :: 0 <= j < |v| ==> Scaled(v, lo)[j] <= p[j] <= Scaled(v, hi)[j]
  {
    forall j | 0 <= j < |v| ensures Scaled(v, lo)[j] <= p[j] <= Scaled(v, hi)[j] {
      TermBound(v[j], c[j], p[j], lo, hi);
    }
  }

  lemma TermBound(w: real, x: real, px: real, lo: real, hi: real)
    requires w >= 0.0 && lo <= x <= hi && px == x * w
    ensures lo * w <= px <= hi * w
  {
    ProductNonNegative(w, x - lo);
    ProductNonNegative(w, hi - x);
  }

  lemma QuotientWithin(q: real, a: real, b: real, lo: real, hi: real)
    requires b > 0.0
    requires q * b == a
    requires lo * b <= a <= hi * b
    ensures lo <= q <= hi
  {
    assert (q - lo) * b >= 0.0;
    assert (hi - q) * b >= 0.0;
  }

  // ---------------------------------------------------------------- the frame

  /** The fields of one frame row that the signal evaluator reads. */
  datatype Reading = Reading(close: real, vol: real, rsi: Float, cci: Float,
                             macd: Float, macdSig: Float, volMa: Float, vwma: Float)

  /** Row `t` of the indicator frame. Past the 100-bar minimum the MACD lines and
      the volume average are always defined; RSI, CCI and VWMA can still be NaN
      through a zero denominator. */
  function ReadingAt(bars: seq<Bar>, t: nat): (r: Reading)
    requires t < |bars|
    ensures r.close == bars[t].close && r.vol == bars[t].vol
    ensures t >= 99 ==> r.macd.Some? && r.macdSig.Some? && r.volMa.Some?
    ensures t >= 99 ==> (r.vwma.Some? <==> Sum(Window(Volumes(bars), t, 100)) != 0.0)
  {
    var c := Closes(bars);
    Reading(bars[t].close, bars[t].vol, Rsi(c, t), Cci(TypicalPrices(bars), t),
            Some(Macd(c, t)), Some(MacdSignal(c, t)), VolumeMa(bars, t), Vwma(bars, t))
  }
}
