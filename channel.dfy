/** The linear-regression channel (`check_channel`): a least-squares trend line
    through the closes, a lower band two residual standard deviations below it,
    and the test whether the last close sits near that band. The fit itself
    (`np.polyfit`, `np.std`) is an input; `IsLeastSquaresFit` states what a
    correct fit satisfies, and nothing imposes it on the input. */
module Channel {
  import opened Floats
  import Indicators

  datatype ChannelFit = ChannelFit(slope: real, intercept: real, stdDev: real)

  /** The outcome of `check_channel`: `(is_bottom, gap)`. */
  datatype ChannelCheck = ChannelCheck(isBottom: bool, gap: Float)

  const BandLow: real := -2.0
  const BandHigh: real := 3.0

  /** The lower band at the last bar: the fitted value at index n-1 less 2 std. */
  function LowerLast(fit: ChannelFit, n: nat): real
    requires n >= 1
  {
    fit.slope * (n - 1) as real + fit.intercept - 2.0 * fit.stdDev
  }

  /** `gap = (price - lower) / lower * 100` and `is_bottom = -2.0 <= gap <= 3.0`.
      A zero `lower` makes the gap NaN or an infinity (`(price - 0) / 0`: +inf
      for a positive price, -inf for a negative one); each of them fails the
      band test, so all three are `None` here. */
  function CheckChannel(closes: seq<real>, fit: ChannelFit): (c: ChannelCheck)
    requires |closes| >= 1
    ensures var lower := LowerLast(fit, |closes|);
            var price := closes[|closes| - 1];
            && (c.gap.Some? <==> lower != 0.0)
            && (c.isBottom <==> lower != 0.0 && -2.0 <= (price - lower) / lower * 100.0 <= 3.0)
  {
    var lower := LowerLast(fit, |closes|);
    var gap := Percent(closes[|closes| - 1] - lower, lower);
    ChannelCheck(Le(Some(BandLow), gap) && Le(gap, Some(BandHigh)), gap)
  }

  /** For a positive lower band the test reads on the price itself: the close
      is at most 2 % below the band and at most 3 % above it. */
  lemma BottomBand(closes: seq<real>, fit: ChannelFit)
    requires |closes| >= 1 && LowerLast(fit, |closes|) > 0.0
    ensures CheckChannel(closes, fit).isBottom <==>
              0.98 * LowerLast(fit, |closes|) <= closes[|closes| - 1] <= 1.03 * LowerLast(fit, |closes|)
  {
    var lower := LowerLast(fit, |closes|);
    var price := closes[|closes| - 1];
    var g := (price - lower) / lower * 100.0;
    assert g * lower == (price - lower) * 100.0;
    if -2.0 <= g <= 3.0 {
      Indicators.ProductNonNegative(g + 2.0, lower);
      Indicators.ProductNonNegative(3.0 - g, lower);
      assert (g + 2.0) * lower == g * lower + 2.0 * lower;
      assert (3.0 - g) * lower == 3.0 * lower - g * lower;
    }
    if 0.98 * lower <= price <= 1.03 * lower {
      SignOfQuotient(g + 2.0, lower);
      SignOfQuotient(3.0 - g, lower);
    }
  }

  // ------------------------------------------------ what the fit stands for

  function Residuals(ys: seq<real>, fit: ChannelFit): (r: seq<real>)
    ensures |r| == |ys|
    ensures forall i :: 0 <= i < |ys| ==> r[i] == ys[i] - (fit.slope * i as real + fit.intercept)
  {
    seq(|ys|, i requires 0 <= i < |ys| => ys[i] - (fit.slope * i as real + fit.intercept))
  }

  function IndexWeighted(r: seq<real>): (w: seq<real>)
    ensures |w| == |r| && forall i :: 0 <= i < |r| ==> w[i] == i as real * r[i]
  {
    seq(|r|, i requires 0 <= i < |r| => i as real * r[i])
  }

  function Squares(r: seq<real>): (q: seq<real>)
    ensures |q| == |r| && forall i :: 0 <= i < |r| ==> q[i] == r[i] * r[i]
  {
    seq(|r|, i requires 0 <= i < |r| => r[i] * r[i])
  }

  /** Degree-1 `np.polyfit` over indices `0 .. n-1` and `np.std` of the
      residuals: the normal equations of least squares (residuals sum to zero
      and are uncorrelated with the index) and the population variance,
      stated without a square root. */
  ghost predicate IsLeastSquaresFit(ys: seq<real>, fit: ChannelFit)
  {
    var r := Residuals(ys, fit);
    && Indicators.Sum(r) == 0.0
    && Indicators.Sum(IndexWeighted(r)) == 0.0
    && fit.stdDev >= 0.0
    && fit.stdDev * fit.stdDev * |ys| as real == Indicators.Sum(Squares(r))
  }

  /** A flat series is fitted exactly by a flat line with no spread, and its
      last close then sits on the lower band (gap 0), which counts as a bottom. */
  lemma FlatSeriesIsAtBottom(ys: seq<real>, p: real)
    requires |ys| >= 1 && p != 0.0
    requires forall i :: 0 <= i < |ys| ==> ys[i] == p
    ensures IsLeastSquaresFit(ys, ChannelFit(0.0, p, 0.0))
    ensures CheckChannel(ys, ChannelFit(0.0, p, 0.0)) == ChannelCheck(true, Some(0.0))
  {
    var fit := ChannelFit(0.0, p, 0.0);
    var r := Residuals(ys, fit);
    Indicators.SumConstant(r, 0.0);
    Indicators.SumConstant(IndexWeighted(r), 0.0);
    Indicators.SumConstant(Squares(r), 0.0);
  }
}
