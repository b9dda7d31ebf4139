/** The signal evaluator: the three independent rules `run()` applies to the last
    two rows of the indicator frame. */
module Signals {
  import opened Floats
  import opened Common
  import opened Indicators

  /** VWMA support needs the close at most this many percent above the VWMA. */
  const VwmaGapLimit: real := 3.5
  /** The composite score's support bonus uses a tighter, strict VWMA gap. */
  const SupportGapLimit: real := 3.0
  /** A composite score of at least this much is a "best" pick. */
  const BestScore: int := 5

  /** `gap_v = (price - vwma) / vwma * 100`, which the source only computes once
      `price >= vwma` holds. A zero VWMA then gives +inf (positive price) or
      NaN (zero price); neither passes `<= 3.5` or `< 3`, so both are `None`. */
  function VwmaGap(r: Reading): (g: Float)
    ensures g.Some? <==> r.vwma.Some? && r.close >= r.vwma.value && r.vwma.value != 0.0
  {
    if Ge(Some(r.close), r.vwma) then Percent(r.close - r.vwma.value, r.vwma.value) else None
  }

  /** Rule 1, VWMA-100 support: `close >= vwma` and `gap_v <= 3.5`. */
  predicate VwmaSupport(r: Reading)
  {
    Ge(Some(r.close), r.vwma) && Le(VwmaGap(r), Some(VwmaGapLimit))
  }

  /** For a positive VWMA, support means the close lies in `[vwma, 1.035 * vwma]`. */
  lemma VwmaSupportBand(r: Reading)
    requires r.vwma.Some? && r.vwma.value > 0.0
    ensures VwmaSupport(r) <==> r.vwma.value <= r.close <= 1.035 * r.vwma.value
  {
    var v := r.vwma.value;
    if r.close >= v {
      var g := (r.close - v) / v * 100.0;
      assert g * v == (r.close - v) * 100.0;
      if g <= 3.5 {
        ProductNonNegative(3.5 - g, v);
      }
      if r.close <= 1.035 * v {
        assert (3.5 - g) * v >= 0.0;
        SignOfQuotient(3.5 - g, v);
      }
    }
  }

  /** The shared support bonus of the composite score (line 192). */
  predicate SupportHit(r: Reading, isBottom: bool)
  {
    (Ge(Some(r.close), r.vwma) && Lt(VwmaGap(r), Some(SupportGapLimit))) || isBottom
  }

  /** A VWMA match whose gap lies in [3, 3.5] earns no support bonus unless the
      channel test also holds: the two thresholds differ and one is strict. */
  lemma SupportGapHole(r: Reading)
    requires VwmaSupport(r) && VwmaGap(r).value >= SupportGapLimit
    ensures !SupportHit(r, false)
    ensures SupportHit(r, true)
  {
  }

  /** A close under the 3 % bound always earns the bonus, with or without the channel. */
  lemma SupportFromVwma(r: Reading, isBottom: bool)
    requires VwmaSupport(r) && VwmaGap(r).value < SupportGapLimit
    ensures SupportHit(r, isBottom)
  {
  }

  // ------------------------------------------------------------ the score

  /** The reason labels, in the order the evaluator appends them. */
  datatype Reason = RsiOversold(level: int) | CciSlump | MacdGoldenCross | VolumeSpike | SupportReached

  function Rank(x: Reason): nat
  {
    match x
    case RsiOversold(_) => 0
    case CciSlump => 1
    case MacdGoldenCross => 2
    case VolumeSpike => 3
    case SupportReached => 4
  }

  /** The points the evaluator awards with each label. */
  function Weight(x: Reason): int
  {
    match x
    case RsiOversold(_) => 2
    case CciSlump => 1
    case MacdGoldenCross => 3
    case VolumeSpike => 2
    case SupportReached => 2
  }

  predicate Oversold(r: Reading) { Lt(r.rsi, Some(30.0)) }
  predicate Weak(r: Reading) { Lt(r.rsi, Some(40.0)) }
  predicate CciSlumped(r: Reading) { Lt(r.cci, Some(-100.0)) }
  predicate MacdAbove(r: Reading) { Gt(r.macd, r.macdSig) }

  /** `macd > sig` now and `macd <= sig` on the previous bar. */
  predicate FreshCross(curr: Reading, prev: Reading) { MacdAbove(curr) && Le(prev.macd, prev.macdSig) }

  /** `vol > vol_ma * 2`. */
  predicate Spike(r: Reading) { r.volMa.Some? && r.vol > r.volMa.value * 2.0 }

  function RsiPoints(r: Reading): int { if Oversold(r) then 2 else if Weak(r) then 1 else 0 }
  function CciPoints(r: Reading): int { if CciSlumped(r) then 1 else 0 }
  function MacdPoints(curr: Reading, prev: Reading): int
  {
    if FreshCross(curr, prev) then 3 else if MacdAbove(curr) then 1 else 0
  }
  function VolumePoints(r: Reading): int { if Spike(r) then 2 else 0 }
  function SupportPoints(r: Reading, isBottom: bool): int { if SupportHit(r, isBottom) then 2 else 0 }

  /** The composite score: the sum of five independent contributions. */
  function Score(curr: Reading, prev: Reading, isBottom: bool): (s: int)
    ensures 0 <= s <= 10
  {
    RsiPoints(curr) + CciPoints(curr) + MacdPoints(curr, prev) + VolumePoints(curr) + SupportPoints(curr, isBottom)
  }


  /** The RSI label, showing `int(rsi)`, truncated toward zero. */
  function RsiLabel(r: Reading): seq<Reason>
  {
    if Oversold(r) then [RsiOversold(Trunc(r.rsi.value))] else []
  }

  /** The labels of the triggered contributions, in evaluation order. */
  function Reasons(curr: Reading, prev: Reading, isBottom: bool): seq<Reason>
  {
    RsiLabel(curr)
    + Opt(CciSlumped(curr), CciSlump)
    + Opt(FreshCross(curr, prev), MacdGoldenCross)
    + Opt(Spike(curr), VolumeSpike)
    + Opt(SupportHit(curr, isBottom), SupportReached)
  }

  /** The accumulation at lines 170-193: `score` and `reasons` built step by step. */
  method Evaluate(curr: Reading, prev: Reading, isBottom: bool) returns (score: int, reasons: seq<Reason>)
    ensures score == Score(curr, prev, isBottom)
    ensures reasons == Reasons(curr, prev, isBottom)
  {
    score := 0;
    reasons := [];
    if Oversold(curr) {
      score := score + 2;
      reasons := reasons + [RsiOversold(Trunc(curr.rsi.value))];
    } else if Weak(curr) {
      score := score + 1;
    }
    assert score == RsiPoints(curr);
    ghost var a := reasons;
    assert a == RsiLabel(curr);
    if CciSlumped(curr) {
      score := score + 1;
      reasons := reasons + [CciSlump];
    }
    assert score == RsiPoints(curr) + CciPoints(curr);
    assert reasons == a + Opt(CciSlumped(curr), CciSlump);
    ghost var b := reasons;
    if FreshCross(curr, prev) {
      score := score + 3;
      reasons := reasons + [MacdGoldenCross];
    } else if MacdAbove(curr) {
      score := score + 1;
    }
    assert score == RsiPoints(curr) + CciPoints(curr) + MacdPoints(curr, prev);
    assert reasons == b + Opt(FreshCross(curr, prev), MacdGoldenCross);
    ghost var c := reasons;
    if Spike(curr) {
      score := score + 2;
      reasons := reasons + [VolumeSpike];
    }
    assert reasons == c + Opt(Spike(curr), VolumeSpike);
    ghost var d := reasons;
    if SupportHit(curr, isBottom) {
      score := score + 2;
      reasons := reasons + [SupportReached];
    }
    assert reasons == d + Opt(SupportHit(curr, isBottom), SupportReached);
    Chain(a, Opt(CciSlumped(curr), CciSlump), Opt(FreshCross(curr, prev), MacdGoldenCross),
          Opt(Spike(curr), VolumeSpike), Opt(SupportHit(curr, isBottom), SupportReached), b, c, d, reasons);
  }

  /** Five runs of labels appended one after the other. */
  lemma Chain(a: seq<Reason>, b: seq<Reason>, c: seq<Reason>, d: seq<Reason>, e: seq<Reason>,
              ab: seq<Reason>, abc: seq<Reason>, abcd: seq<Reason>, all: seq<Reason>)
    requires ab == a + b && abc == ab + c && abcd == abc + d && all == abcd + e
    ensures all == a + b + c + d + e
  {
  }

  // ------------------------------------------------------------ properties

  /** The two RSI bonuses exclude each other, as do the two MACD bonuses:
      RSI gives 2 exactly below 30 and 1 exactly in [30, 40); MACD gives 3
      exactly on a fresh cross and 1 exactly when above without one. */
  lemma ExclusiveBonuses(curr: Reading, prev: Reading)
    ensures RsiPoints(curr) == 2 <==> curr.rsi.Some? && curr.rsi.value < 30.0
    ensures RsiPoints(curr) == 1 <==> curr.rsi.Some? && 30.0 <= curr.rsi.value < 40.0
    ensures RsiPoints(curr) == 0 <==> curr.rsi.None? || curr.rsi.value >= 40.0
    ensures MacdPoints(curr, prev) == 3 <==> FreshCross(curr, prev)
    ensures MacdPoints(curr, prev) == 1 <==> MacdAbove(curr) && !FreshCross(curr, prev)
    ensures MacdPoints(curr, prev) == 0 <==> !MacdAbove(curr)
  {
  }

  /** Indicators that are NaN earn no points and no labels. */
  lemma NanEarnsNothing(curr: Reading, prev: Reading, isBottom: bool)
    requires curr.rsi.None? && curr.cci.None? && curr.macd.None?
    ensures RsiPoints(curr) == 0 && CciPoints(curr) == 0 && MacdPoints(curr, prev) == 0
    ensures forall x :: x in Reasons(curr, prev, isBottom) ==> Rank(x) >= 3
  {
  }

  function WeightSum(xs: seq<Reason>): int
  {
    if xs == [] then 0 else WeightSum(xs[..|xs| - 1]) + Weight(xs[|xs| - 1])
  }

  lemma {:induction false} WeightSumAppend(a: seq<Reason>, b: seq<Reason>)
    ensures WeightSum(a + b) == WeightSum(a) + WeightSum(b)
  {
    if b == [] {
      assert a + b == a;
    } else {
      assert (a + b)[..|a + b| - 1] == a + b[..|b| - 1];
      WeightSumAppend(a, b[..|b| - 1]);
    }
  }

  lemma {:induction false} WeightSumAtMostThree(xs: seq<Reason>)
    ensures WeightSum(xs) <= 3 * |xs|
  {
    if xs != [] {
      WeightSumAtMostThree(xs[..|xs| - 1]);
    }
  }

  /** The points that come without a label: RSI in [30, 40) and a MACD line
      above its signal without a fresh cross. */
  function Unlabelled(curr: Reading, prev: Reading): int
  {
    (if !Oversold(curr) && Weak(curr) then 1 else 0)
    + (if !FreshCross(curr, prev) && MacdAbove(curr) then 1 else 0)
  }

  /** The score is the weight of the labels shown plus the unlabelled points. */
  lemma ScoreFromReasons(curr: Reading, prev: Reading, isBottom: bool)
    ensures Score(curr, prev, isBottom) == WeightSum(Reasons(curr, prev, isBottom)) + Unlabelled(curr, prev)
  {
    WeightSumOfFive(RsiLabel(curr), Opt(CciSlumped(curr), CciSlump), Opt(FreshCross(curr, prev), MacdGoldenCross),
                    Opt(Spike(curr), VolumeSpike), Opt(SupportHit(curr, isBottom), SupportReached));
    RsiWeight(curr);
    MacdWeight(curr, prev);
    FlagWeights(curr, isBottom);
  }

  /** The CCI, volume and support points are the weights of their labels. */
  lemma FlagWeights(r: Reading, isBottom: bool)
    ensures CciPoints(r) == WeightSum(Opt(CciSlumped(r), CciSlump))
    ensures VolumePoints(r) == WeightSum(Opt(Spike(r), VolumeSpike))
    ensures SupportPoints(r, isBottom) == WeightSum(Opt(SupportHit(r, isBottom), SupportReached))
  {
    OptWeight(CciSlumped(r), CciSlump);
    OptWeight(Spike(r), VolumeSpike);
    OptWeight(SupportHit(r, isBottom), SupportReached);
  }

  /** The RSI points are the RSI label's weight, or 1 without a label in [30, 40). */
  lemma RsiWeight(r: Reading)
    ensures RsiPoints(r) == WeightSum(RsiLabel(r)) + (if !Oversold(r) && Weak(r) then 1 else 0)
  {
    if Oversold(r) {
      OptWeight(true, RsiOversold(Trunc(r.rsi.value)));
      assert RsiLabel(r) == Opt(true, RsiOversold(Trunc(r.rsi.value)));
    }
  }

  /** The MACD points are the cross label's weight, or 1 without a label when above. */
  lemma MacdWeight(curr: Reading, prev: Reading)
    ensures MacdPoints(curr, prev) == WeightSum(Opt(FreshCross(curr, prev), MacdGoldenCross))
                                      + (if !FreshCross(curr, prev) && MacdAbove(curr) then 1 else 0)
  {
    OptWeight(FreshCross(curr, prev), MacdGoldenCross);
  }

  lemma WeightSumOfFive(a: seq<Reason>, b: seq<Reason>, c: seq<Reason>, d: seq<Reason>, e: seq<Reason>)
    ensures WeightSum(a + b + c + d + e) == WeightSum(a) + WeightSum(b) + WeightSum(c) + WeightSum(d) + WeightSum(e)
  {
    WeightSumAppend(a, b);
    WeightSumAppend(a + b, c);
    WeightSumAppend(a + b + c, d);
    WeightSumAppend(a + b + c + d, e);
  }

  lemma OptWeight(b: bool, x: Reason)
    ensures WeightSum(Opt(b, x)) == if b then Weight(x) else 0
  {
    if b {
      assert Opt(b, x)[..0] == [];
    }
  }

  predicate Increasing(rs: seq<Reason>)
  {
    forall i, j :: 0 <= i < j < |rs| ==> Rank(rs[i]) < Rank(rs[j])
  }

  predicate Below(rs: seq<Reason>, k: nat)
  {
    forall x :: x in rs ==> Rank(x) < k
  }

  /** Appending a label of higher rank keeps the labels strictly ordered. */
  lemma AppendHigher(rs: seq<Reason>, k: nat, extra: seq<Reason>, k': nat)
    requires Increasing(rs) && Below(rs, k)
    requires |extra| <= 1 && (forall x :: x in extra ==> Rank(x) == k) && k < k'
    ensures Increasing(rs + extra) && Below(rs + extra, k')
  {
    if extra != [] {
      forall i, j | 0 <= i < j < |rs + extra| ensures Rank((rs + extra)[i]) < Rank((rs + extra)[j]) {
        if j == |rs| {
          assert (rs + extra)[i] == rs[i] && rs[i] in rs;
          assert (rs + extra)[j] == extra[0] && extra[0] in extra;
        }
      }
    }
  }

  /** At most five labels, strictly in the order RSI, CCI, MACD, volume, support. */
  lemma ReasonsInOrder(curr: Reading, prev: Reading, isBottom: bool)
    ensures |Reasons(curr, prev, isBottom)| <= 5
    ensures Increasing(Reasons(curr, prev, isBottom))
  {
    var level := if Oversold(curr) then Trunc(curr.rsi.value) else 0;
    assert RsiLabel(curr) == Opt(Oversold(curr), RsiOversold(level));
    LabelsInOrder(level, Oversold(curr), CciSlumped(curr), FreshCross(curr, prev), Spike(curr), SupportHit(curr, isBottom));
  }

  /** Five optional labels, one of each kind in rank order, are strictly ordered. */
  lemma LabelsInOrder(level: int, p1: bool, p2: bool, p3: bool, p4: bool, p5: bool)
    ensures var rs := Opt(p1, RsiOversold(level)) + Opt(p2, CciSlump) + Opt(p3, MacdGoldenCross)
                      + Opt(p4, VolumeSpike) + Opt(p5, SupportReached);
            |rs| <= 5 && Increasing(rs)
  {
    var a, b, c, d, e := Opt(p1, RsiOversold(level)), Opt(p2, CciSlump), Opt(p3, MacdGoldenCross),
                         Opt(p4, VolumeSpike), Opt(p5, SupportReached);
    AppendHigher([], 0, a, 1);
    assert [] + a == a;
    AppendHigher(a, 1, b, 2);
    AppendHigher(a + b, 2, c, 3);
    AppendHigher(a + b + c, 3, d, 4);
    AppendHigher(a + b + c + d, 4, e, 5);
  }

  /** Each label is present exactly when its condition holds, and the RSI
      label, when present, comes first and shows the truncated RSI. */
  lemma ReasonsPresent(curr: Reading, prev: Reading, isBottom: bool)
    ensures var rs := Reasons(curr, prev, isBottom);
            && ((exists k :: RsiOversold(k) in rs) <==> Oversold(curr))
            && (Oversold(curr) ==> rs[0] == RsiOversold(Trunc(curr.rsi.value)))
            && (CciSlump in rs <==> CciSlumped(curr))
            && (MacdGoldenCross in rs <==> FreshCross(curr, prev))
            && (VolumeSpike in rs <==> Spike(curr))
            && (SupportReached in rs <==> SupportHit(curr, isBottom))
  {
    var level := if Oversold(curr) then Trunc(curr.rsi.value) else 0;
    assert RsiLabel(curr) == Opt(Oversold(curr), RsiOversold(level));
    LabelsPresent(level, Oversold(curr), CciSlumped(curr), FreshCross(curr, prev), Spike(curr), SupportHit(curr, isBottom));
  }

  /** The labels present in a run of five optional labels, one of each kind. */
  lemma LabelsPresent(level: int, p1: bool, p2: bool, p3: bool, p4: bool, p5: bool)
    ensures var rs := Opt(p1, RsiOversold(level)) + Opt(p2, CciSlump) + Opt(p3, MacdGoldenCross)
                      + Opt(p4, VolumeSpike) + Opt(p5, SupportReached);
            && ((exists k :: RsiOversold(k) in rs) <==> p1)
            && (p1 ==> rs[0] == RsiOversold(level))
            && (CciSlump in rs <==> p2)
            && (MacdGoldenCross in rs <==> p3)
            && (VolumeSpike in rs <==> p4)
            && (SupportReached in rs <==> p5)
  {
    var a, b, c, d, e := Opt(p1, RsiOversold(level)), Opt(p2, CciSlump), Opt(p3, MacdGoldenCross),
                         Opt(p4, VolumeSpike), Opt(p5, SupportReached);
    MemberOfFive(a, b, c, d, e);
    if p1 {
      assert RsiOversold(level) in a + b + c + d + e;
    }
  }

  lemma MemberOfFive(a: seq<Reason>, b: seq<Reason>, c: seq<Reason>, d: seq<Reason>, e: seq<Reason>)
    ensures forall x :: x in a + b + c + d + e <==> x in a || x in b || x in c || x in d || x in e
  {
  }

  /** Additivity: a volume spike on an otherwise identical bar adds exactly 2
      points and the volume label, and changes nothing else. */
  lemma VolumeSpikeAddsTwo(curr: Reading, prev: Reading, isBottom: bool, spikeVol: real)
    requires !Spike(curr) && Spike(curr.(vol := spikeVol))
    ensures Score(curr.(vol := spikeVol), prev, isBottom) == Score(curr, prev, isBottom) + 2
    ensures var before := Reasons(curr, prev, isBottom);
            exists k :: 0 <= k <= |before| &&
              Reasons(curr.(vol := spikeVol), prev, isBottom) == before[..k] + [VolumeSpike] + before[k..]
  {
    var after := curr.(vol := spikeVol);
    var a := RsiLabel(curr);
    var b := Opt(CciSlumped(curr), CciSlump);
    var c := Opt(FreshCross(curr, prev), MacdGoldenCross);
    var e := Opt(SupportHit(curr, isBottom), SupportReached);
    assert Reasons(curr, prev, isBottom) == a + b + c + e;
    assert Reasons(after, prev, isBottom) == a + b + c + [VolumeSpike] + e;
    var before := a + b + c + e;
    var k := |a + b + c|;
    assert before[..k] == a + b + c;
    assert before[k..] == e;
    assert Reasons(after, prev, isBottom) == before[..k] + [VolumeSpike] + before[k..];
  }

  /** A best pick is made exactly when the composite score reaches 5. */
  predicate IsBest(curr: Reading, prev: Reading, isBottom: bool)
  {
    Score(curr, prev, isBottom) >= BestScore
  }

  /** No single contribution makes a best pick: at least two must fire. */
  lemma BestNeedsTwoContributions(curr: Reading, prev: Reading, isBottom: bool)
    requires IsBest(curr, prev, isBottom)
    ensures |Reasons(curr, prev, isBottom)| >= 1
    ensures |Reasons(curr, prev, isBottom)| + Unlabelled(curr, prev) >= 2
  {
    ScoreFromReasons(curr, prev, isBottom);
    WeightSumAtMostThree(Reasons(curr, prev, isBottom));
  }

  /** A worked scenario: RSI 25, a fresh MACD cross
      and volume three times its average, no CCI slump and no support, score
      2 + 3 + 2 = 7 with the three labels in order. */
  lemma OversoldCrossSpikeScenario(prev: Reading)
    requires Le(prev.macd, prev.macdSig)
    ensures var curr := Reading(100.0, 30.0, Some(25.0), Some(0.0), Some(1.0), Some(0.5), Some(10.0), Some(50.0));
            && Score(curr, prev, false) == 7
            && IsBest(curr, prev, false)
            && Reasons(curr, prev, false) == [RsiOversold(25), MacdGoldenCross, VolumeSpike]
  {
    var curr := Reading(100.0, 30.0, Some(25.0), Some(0.0), Some(1.0), Some(0.5), Some(10.0), Some(50.0));
    assert VwmaGap(curr) == Some(100.0);
    assert Trunc(25.0) == 25;
  }
}
