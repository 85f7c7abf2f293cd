/**
  Wilder-smoothed Relative Strength Index (RSICalculator.calculate_rsi).

  Prices are exact reals, so the arithmetic below is the mathematical
  recurrence rather than IEEE floating point.  The specification functions
  are folds over the oldest-to-newest order in which the source walks the
  series; the method CalculateRsi is the source's loop, proved against them.
*/
module RsiEngine {
  import opened Wrappers

  /** Upward part of a price change: `delta.where(delta > 0, 0.0)`. */
  function Gain(d: real): (g: real)
    ensures g >= 0.0 && g >= d
    ensures g == d || g == 0.0
  {
    if d > 0.0 then d else 0.0
  }

  /** Downward part of a price change: `(-delta).where(delta < 0, 0.0)`. */
  function Loss(d: real): (l: real)
    ensures l >= 0.0 && l >= -d
    ensures l == -d || l == 0.0
  {
    if d < 0.0 then -d else 0.0
  }

  /** A change splits into a gain and a loss, at most one of them non-zero. */
  lemma GainLossSplit(d: real)
    ensures Gain(d) >= 0.0 && Loss(d) >= 0.0
    ensures Gain(d) == 0.0 || Loss(d) == 0.0
    ensures Gain(d) - Loss(d) == d
  {
  }

  /** First differences of a series with the leading NaN dropped: `prices.diff()[1:]`. */
  function Deltas(prices: seq<real>): (ds: seq<real>)
    ensures |prices| > 0 ==> |ds| == |prices| - 1
    ensures |prices| == 0 ==> ds == []
    ensures forall i :: 0 <= i < |ds| ==> ds[i] == prices[i + 1] - prices[i]
  {
    if |prices| <= 1 then []
    else seq(|prices| - 1, i requires 0 <= i < |prices| - 1 => prices[i + 1] - prices[i])
  }

  function Gains(ds: seq<real>): (gs: seq<real>)
    ensures |gs| == |ds|
    ensures forall i :: 0 <= i < |ds| ==> gs[i] == Gain(ds[i])
  {
    seq(|ds|, i requires 0 <= i < |ds| => Gain(ds[i]))
  }

  function Losses(ds: seq<real>): (ls: seq<real>)
    ensures |ls| == |ds|
    ensures forall i :: 0 <= i < |ds| ==> ls[i] == Loss(ds[i])
  {
    seq(|ds|, i requires 0 <= i < |ds| => Loss(ds[i]))
  }

  ghost predicate AllNonNegative(s: seq<real>)
  {
    forall i :: 0 <= i < |s| ==> s[i] >= 0.0
  }

  ghost predicate AllZero(s: seq<real>)
  {
    forall i :: 0 <= i < |s| ==> s[i] == 0.0
  }

  /** Sum of a sequence, accumulated oldest to newest. */
  function Sum(s: seq<real>): real
  {
    if s == [] then 0.0 else Sum(s[..|s| - 1]) + s[|s| - 1]
  }

  /** A sum of non-negative values is non-negative, and a sum of zeros is zero. */
  lemma {:induction false} SumSigns(s: seq<real>)
    ensures AllNonNegative(s) ==> Sum(s) >= 0.0
    ensures AllZero(s) ==> Sum(s) == 0.0
  {
    if s != [] {
      var init := s[..|s| - 1];
      assert AllNonNegative(s) ==> AllNonNegative(init);
      assert AllZero(s) ==> AllZero(init);
      SumSigns(init);
    }
  }

  /** Adding the changes of a series to its first price gives back every later price. */
  lemma {:induction false} DeltasTelescope(prices: seq<real>, k: nat)
    requires k < |prices|
    ensures prices[0] + Sum(Deltas(prices)[..k]) == prices[k]
  {
    if k > 0 {
      DeltasTelescope(prices, k - 1);
      var ds := Deltas(prices);
      assert ds[..k][..k - 1] == ds[..k - 1];
    }
  }

  /** Arithmetic mean, as pandas `Series.mean` on a non-empty slice. */
  function Mean(s: seq<real>): (m: real)
    requires |s| > 0
    ensures m * |s| as real == Sum(s)
    ensures Sum(s) > 0.0 ==> m > 0.0
    ensures Sum(s) >= 0.0 ==> m >= 0.0
    ensures Sum(s) == 0.0 ==> m == 0.0
  {
    Sum(s) / |s| as real
  }

  /** One step of Wilder's recurrence: `(avg * (period - 1) + x) / period`. */
  function Smooth(avg: real, x: real, period: int): (r: real)
    requires period >= 1
    ensures avg >= 0.0 && x >= 0.0 ==> r >= 0.0
    ensures avg == 0.0 && x == 0.0 ==> r == 0.0
    ensures (avg <= x ==> avg <= r <= x) && (x <= avg ==> x <= r <= avg)
  {
    var p := period as real;
    var r := (avg * (p - 1.0) + x) / p;
    assert r * p == avg * (p - 1.0) + x;
    r
  }

  /** The recurrence run over `xs` oldest to newest, starting from `seed`. */
  function Wilder(seed: real, xs: seq<real>, period: int): real
    requires period >= 1
  {
    if xs == [] then seed
    else Smooth(Wilder(seed, xs[..|xs| - 1], period), xs[|xs| - 1], period)
  }

  /** Extending the smoothed window by one value is one more recurrence step. */
  lemma WilderStep(seed: real, xs: seq<real>, period: int, i: int)
    requires 1 <= period <= i < |xs|
    ensures Wilder(seed, xs[period..i + 1], period) == Smooth(Wilder(seed, xs[period..i], period), xs[i], period)
  {
    assert xs[period..i + 1][..i - period] == xs[period..i];
  }

  /** Every intermediate average of the recurrence, the seed first: the source's history lists. */
  function Trajectory(seed: real, xs: seq<real>, period: int): (h: seq<real>)
    requires period >= 1
    ensures |h| == |xs| + 1
  {
    if xs == [] then [seed]
    else Trajectory(seed, xs[..|xs| - 1], period) + [Wilder(seed, xs, period)]
  }

  /** Entry `k` of the trajectory is the average after the first `k` values. */
  lemma {:induction false} TrajectoryAt(seed: real, xs: seq<real>, period: int, k: int)
    requires period >= 1 && 0 <= k <= |xs|
    ensures Trajectory(seed, xs, period)[k] == Wilder(seed, xs[..k], period)
  {
    if k == |xs| {
      assert xs[..k] == xs;
    } else {
      var init := xs[..|xs| - 1];
      TrajectoryAt(seed, init, period, k);
      assert init[..k] == xs[..k];
    }
  }

  lemma TrajectoryStep(seed: real, xs: seq<real>, period: int, i: int)
    requires 1 <= period <= i < |xs|
    ensures Trajectory(seed, xs[period..i + 1], period)
         == Trajectory(seed, xs[period..i], period) + [Wilder(seed, xs[period..i + 1], period)]
  {
    assert xs[period..i + 1][..i - period] == xs[period..i];
  }

  /** One loop iteration keeps the running average and its history in step with the recurrence. */
  lemma SmoothingAdvance(seed: real, xs: seq<real>, period: int, i: int, avg: real, history: seq<real>)
    requires 1 <= period <= i < |xs|
    requires avg == Wilder(seed, xs[period..i], period)
    requires history == Trajectory(seed, xs[period..i], period)
    ensures Smooth(avg, xs[i], period) == Wilder(seed, xs[period..i + 1], period)
    ensures history + [Smooth(avg, xs[i], period)] == Trajectory(seed, xs[period..i + 1], period)
  {
    WilderStep(seed, xs, period, i);
    TrajectoryStep(seed, xs, period, i);
  }

  /** Once the loop has consumed every value, its average and history are the series' smoothed average and history. */
  lemma SmoothingComplete(xs: seq<real>, period: int, i: int, avg: real, history: seq<real>)
    requires 1 <= period <= i == |xs|
    requires avg == Wilder(Mean(xs[..period]), xs[period..i], period)
    requires history == Trajectory(Mean(xs[..period]), xs[period..i], period)
    ensures avg == SmoothedAverage(xs, period)
    ensures history == SmoothingHistory(xs, period)
  {
    assert xs[period..i] == xs[period..];
  }

  /** Smoothing non-negative values from a non-negative seed stays non-negative; zeros from a zero seed stay zero. */
  lemma {:induction false} WilderSigns(seed: real, xs: seq<real>, period: int)
    requires period >= 1
    ensures seed >= 0.0 && AllNonNegative(xs) ==> Wilder(seed, xs, period) >= 0.0
    ensures seed == 0.0 && AllZero(xs) ==> Wilder(seed, xs, period) == 0.0
  {
    if xs != [] {
      var init := xs[..|xs| - 1];
      assert AllNonNegative(xs) ==> AllNonNegative(init);
      assert AllZero(xs) ==> AllZero(init);
      WilderSigns(seed, init, period);
    }
  }

  /** The smoothed average never leaves a band holding the seed and every input. */
  lemma {:induction false} WilderBounded(seed: real, xs: seq<real>, period: int, lo: real, hi: real)
    requires period >= 1
    requires lo <= seed <= hi
    requires forall i :: 0 <= i < |xs| ==> lo <= xs[i] <= hi
    ensures lo <= Wilder(seed, xs, period) <= hi
  {
    if xs != [] {
      WilderBounded(seed, xs[..|xs| - 1], period, lo, hi);
    }
  }

  /** Seed with the mean of the first `period` values, then smooth the rest. */
  function SmoothedAverage(xs: seq<real>, period: int): real
    requires 1 <= period <= |xs|
  {
    Wilder(Mean(xs[..period]), xs[period..], period)
  }

  /** The smoothed average of non-negative values is non-negative, and that of zeros is zero. */
  lemma SmoothedSigns(xs: seq<real>, period: int)
    requires 1 <= period <= |xs|
    ensures AllNonNegative(xs) ==> SmoothedAverage(xs, period) >= 0.0
    ensures AllZero(xs) ==> SmoothedAverage(xs, period) == 0.0
  {
    var seed, tail := xs[..period], xs[period..];
    assert AllNonNegative(xs) ==> AllNonNegative(seed) && AllNonNegative(tail);
    assert AllZero(xs) ==> AllZero(seed) && AllZero(tail);
    SumSigns(seed);
    WilderSigns(Mean(seed), tail, period);
  }

  /** Both smoothed averages of a series of changes are non-negative. */
  lemma ChangesSmoothNonNegative(ds: seq<real>, period: int)
    requires 1 <= period <= |ds|
    ensures SmoothedAverage(Gains(ds), period) >= 0.0 && SmoothedAverage(Losses(ds), period) >= 0.0
  {
    assert AllNonNegative(Gains(ds)) && AllNonNegative(Losses(ds));
    SmoothedSigns(Gains(ds), period);
    SmoothedSigns(Losses(ds), period);
  }

  /** The history lists of a series: the seed mean, then one entry per recurrence step. */
  function SmoothingHistory(xs: seq<real>, period: int): seq<real>
    requires 1 <= period <= |xs|
  {
    Trajectory(Mean(xs[..period]), xs[period..], period)
  }

  /** A history has one entry per value past the seed window plus the seed, and every entry is non-negative. */
  lemma SmoothingHistoryFacts(xs: seq<real>, period: int)
    requires 1 <= period <= |xs|
    requires AllNonNegative(xs)
    ensures |SmoothingHistory(xs, period)| == |xs| - period + 1
    ensures SmoothingHistory(xs, period)[0] == Mean(xs[..period])
    ensures SmoothingHistory(xs, period)[|xs| - period] == SmoothedAverage(xs, period)
    ensures forall k :: 0 <= k < |SmoothingHistory(xs, period)| ==> SmoothingHistory(xs, period)[k] >= 0.0
  {
    var seed, tail := Mean(xs[..period]), xs[period..];
    var h := SmoothingHistory(xs, period);
    TrajectoryAt(seed, tail, period, 0);
    TrajectoryAt(seed, tail, period, |tail|);
    assert tail[..0] == [] && tail[..|tail|] == tail;
    assert AllNonNegative(xs[..period]) && AllNonNegative(tail);
    SumSigns(xs[..period]);
    forall k | 0 <= k < |h| ensures h[k] >= 0.0 {
      TrajectoryAt(seed, tail, period, k);
      assert AllNonNegative(tail[..k]);
      WilderSigns(seed, tail[..k], period);
    }
  }

  /** The final formula, with the zero-loss ceiling: 100 - 100 / (1 + avgGain / avgLoss). */
  function RsiFromAverages(avgGain: real, avgLoss: real): (r: real)
    requires avgGain >= 0.0 && avgLoss >= 0.0
    ensures 0.0 <= r <= 100.0
    ensures r == 100.0 <==> avgLoss == 0.0
  {
    if avgLoss == 0.0 then 100.0
    else
      RatioFacts(avgGain, avgLoss);
      var q := 100.0 / (1.0 + avgGain / avgLoss);
      assert q * (1.0 + avgGain / avgLoss) == 100.0;
      100.0 - q
  }

  /** The oscillator is bounded, hits 100 exactly when there is no loss, 50 at balance and 0 without gains. */
  lemma RsiFromAveragesFacts(avgGain: real, avgLoss: real)
    requires avgGain >= 0.0 && avgLoss >= 0.0
    ensures 0.0 <= RsiFromAverages(avgGain, avgLoss) <= 100.0
    ensures RsiFromAverages(avgGain, avgLoss) == 100.0 <==> avgLoss == 0.0
    ensures avgLoss > 0.0 ==> (RsiFromAverages(avgGain, avgLoss) == 50.0 <==> avgGain == avgLoss)
    ensures avgLoss > 0.0 ==> (RsiFromAverages(avgGain, avgLoss) == 0.0 <==> avgGain == 0.0)
  {
    if avgLoss > 0.0 {
      var rs := avgGain / avgLoss;
      RatioFacts(avgGain, avgLoss);
      var q := 100.0 / (1.0 + rs);
      assert q * (1.0 + rs) == 100.0;
      assert RsiFromAverages(avgGain, avgLoss) == 100.0 - q;
      if q == 50.0 {
        assert rs == 1.0;
      }
      if rs == 1.0 {
        assert q * 2.0 == 100.0;
      }
      if q == 100.0 {
        assert rs == 0.0;
      }
    }
  }

  lemma FormulaStep(avgGain: real, avgLoss: real)
    requires avgGain >= 0.0 && avgLoss > 0.0
    ensures 1.0 + avgGain / avgLoss > 0.0
    ensures RsiFromAverages(avgGain, avgLoss) == 100.0 - 100.0 / (1.0 + avgGain / avgLoss)
  {
    RatioFacts(avgGain, avgLoss);
  }

  /** The relative strength of non-negative averages, `avgGain / avgLoss`. */
  lemma RatioFacts(avgGain: real, avgLoss: real)
    requires avgGain >= 0.0 && avgLoss > 0.0
    ensures avgGain / avgLoss >= 0.0
    ensures avgGain / avgLoss == 1.0 <==> avgGain == avgLoss
    ensures avgGain / avgLoss == 0.0 <==> avgGain == 0.0
  {
    var rs := avgGain / avgLoss;
    assert rs * avgLoss == avgGain;
    if avgGain == avgLoss {
      assert (rs - 1.0) * avgLoss == 0.0;
    }
  }

  /** The whole computation: None when fewer than `period + 1` prices are given. */
  function WilderRsi(prices: seq<real>, period: int): (r: Option<real>)
    requires period >= 1
    ensures r.Some? <==> |prices| >= period + 1
    ensures r.Some? ==> 0.0 <= r.value <= 100.0
  {
    if |prices| < period + 1 then None
    else
      var ds := Deltas(prices);
      ChangesSmoothNonNegative(ds, period);
      Some(RsiFromAverages(SmoothedAverage(Gains(ds), period), SmoothedAverage(Losses(ds), period)))
  }

  /** Final smoothed gain and loss of a series long enough to be measured. */
  function AverageGain(prices: seq<real>, period: int): real
    requires 1 <= period && period + 1 <= |prices|
  {
    SmoothedAverage(Gains(Deltas(prices)), period)
  }

  function AverageLoss(prices: seq<real>, period: int): real
    requires 1 <= period && period + 1 <= |prices|
  {
    SmoothedAverage(Losses(Deltas(prices)), period)
  }

  lemma WilderRsiIsFormula(prices: seq<real>, period: int)
    requires 1 <= period && period + 1 <= |prices|
    ensures AverageGain(prices, period) >= 0.0 && AverageLoss(prices, period) >= 0.0
    ensures WilderRsi(prices, period) == Some(RsiFromAverages(AverageGain(prices, period), AverageLoss(prices, period)))
  {
    ChangesSmoothNonNegative(Deltas(prices), period);
  }

  /** A computed RSI lies in [0, 100], and is exactly 100 precisely when the final average loss is zero. */
  lemma WilderRsiRange(prices: seq<real>, period: int)
    requires 1 <= period && period + 1 <= |prices|
    ensures 0.0 <= WilderRsi(prices, period).value <= 100.0
    ensures WilderRsi(prices, period).value == 100.0 <==> AverageLoss(prices, period) == 0.0
    ensures AverageLoss(prices, period) > 0.0 ==>
      (WilderRsi(prices, period).value == 50.0 <==> AverageGain(prices, period) == AverageLoss(prices, period))
    ensures AverageLoss(prices, period) > 0.0 ==>
      (WilderRsi(prices, period).value == 0.0 <==> AverageGain(prices, period) == 0.0)
  {
    WilderRsiIsFormula(prices, period);
    RsiFromAveragesFacts(AverageGain(prices, period), AverageLoss(prices, period));
  }

  ghost predicate NonDecreasing(prices: seq<real>)
  {
    forall i :: 0 <= i < |prices| - 1 ==> prices[i] <= prices[i + 1]
  }

  ghost predicate NonIncreasing(prices: seq<real>)
  {
    forall i :: 0 <= i < |prices| - 1 ==> prices[i + 1] <= prices[i]
  }

  /** A series that never falls (a constant one included) has RSI exactly 100. */
  lemma NonDecreasingIsHundred(prices: seq<real>, period: int)
    requires 1 <= period && period + 1 <= |prices|
    requires NonDecreasing(prices)
    ensures WilderRsi(prices, period) == Some(100.0)
  {
    var ls := Losses(Deltas(prices));
    assert AllZero(ls) by {
      forall i | 0 <= i < |ls| ensures ls[i] == 0.0 {
        assert prices[i] <= prices[i + 1];
      }
    }
    SmoothedSigns(ls, period);
    WilderRsiIsFormula(prices, period);
  }

  /** A series that never rises has no smoothed gain, so its RSI is 0, or 100 when the final loss average is zero too. */
  lemma NonIncreasingIsZeroOrHundred(prices: seq<real>, period: int)
    requires 1 <= period && period + 1 <= |prices|
    requires NonIncreasing(prices)
    ensures AverageGain(prices, period) == 0.0
    ensures WilderRsi(prices, period) == Some(if AverageLoss(prices, period) == 0.0 then 100.0 else 0.0)
  {
    var gs := Gains(Deltas(prices));
    assert AllZero(gs) by {
      forall i | 0 <= i < |gs| ensures gs[i] == 0.0 {
        assert prices[i + 1] <= prices[i];
      }
    }
    SmoothedSigns(gs, period);
    WilderRsiRange(prices, period);
  }

  /**
    With exactly `period + 1` prices no recurrence step runs; if the rises
    and falls of the window then add up to the same non-zero amount, the
    RSI is exactly 50.
  */
  lemma BalancedWindowIsFifty(prices: seq<real>, period: int)
    requires 1 <= period && |prices| == period + 1
    requires Sum(Gains(Deltas(prices))) == Sum(Losses(Deltas(prices))) > 0.0
    ensures WilderRsi(prices, period) == Some(50.0)
  {
    var gs, ls := Gains(Deltas(prices)), Losses(Deltas(prices));
    assert gs[..period] == gs && ls[..period] == ls;
    assert gs[period..] == [] && ls[period..] == [];
    assert AverageGain(prices, period) == Mean(gs) && AverageLoss(prices, period) == Mean(ls);
    assert Mean(gs) == Mean(ls);
    WilderRsiRange(prices, period);
  }

  /** One rise followed by an equal fall, measured over a period of two. */
  lemma RiseThenFallIsFifty()
    ensures WilderRsi([10.0, 11.0, 10.0], 2) == Some(50.0)
  {
    var prices := [10.0, 11.0, 10.0];
    assert Deltas(prices) == [1.0, -1.0];
    assert Gains(Deltas(prices)) == [1.0, 0.0];
    assert Losses(Deltas(prices)) == [0.0, 1.0];
    assert [1.0, 0.0][..1] == [1.0] && [0.0, 1.0][..1] == [0.0];
    BalancedWindowIsFifty(prices, 2);
  }

  /** Prices rising by one at every step: the ceiling of 100. */
  lemma RisingByOneIsHundred(prices: seq<real>)
    requires |prices| == 15
    requires forall i :: 0 <= i < 14 ==> prices[i + 1] == prices[i] + 1.0
    ensures WilderRsi(prices, 14) == Some(100.0)
  {
    NonDecreasingIsHundred(prices, 14);
  }

  /**
    The last step of the computation as the routine writes it: an early
    return of the zero-loss ceiling, else `rs` and `100 - 100 / (1 + rs)`.
  */
  method FinalRsi(avgGain: real, avgLoss: real) returns (rsi: real)
    requires avgGain >= 0.0 && avgLoss >= 0.0
    ensures rsi == RsiFromAverages(avgGain, avgLoss)
    ensures 0.0 <= rsi <= 100.0
    ensures rsi == 100.0 <==> avgLoss == 0.0
  {
    RsiFromAveragesFacts(avgGain, avgLoss);
    if avgLoss == 0.0 {
      return 100.0;
    }
    FormulaStep(avgGain, avgLoss);
    var rs := avgGain / avgLoss;
    rsi := 100.0 - 100.0 / (1.0 + rs);
  }

  /**
    The averaging part of the computation: simple-mean seeds over the first
    `period` values, then Wilder's recurrence over the rest, oldest to
    newest, recording every intermediate average as the source's `gains`
    and `losses` history lists do (built but never read, hence ghost).
  */
  method SmoothBoth(gain: seq<real>, loss: seq<real>, period: int)
    returns (avgGain: real, avgLoss: real, ghost gainHistory: seq<real>, ghost lossHistory: seq<real>)
    requires 1 <= period <= |gain| == |loss|
    ensures avgGain == SmoothedAverage(gain, period) && avgLoss == SmoothedAverage(loss, period)
    ensures gainHistory == SmoothingHistory(gain, period) && lossHistory == SmoothingHistory(loss, period)
  {
    avgGain := Mean(gain[..period]);
    avgLoss := Mean(loss[..period]);
    ghost var seedGain, seedLoss := avgGain, avgLoss;
    gainHistory, lossHistory := [avgGain], [avgLoss];
    var i := period;
    while i < |gain|
      invariant period <= i <= |gain|
      invariant avgGain == Wilder(seedGain, gain[period..i], period)
      invariant avgLoss == Wilder(seedLoss, loss[period..i], period)
      invariant gainHistory == Trajectory(seedGain, gain[period..i], period)
      invariant lossHistory == Trajectory(seedLoss, loss[period..i], period)
    {
      SmoothingAdvance(seedGain, gain, period, i, avgGain, gainHistory);
      SmoothingAdvance(seedLoss, loss, period, i, avgLoss, lossHistory);
      avgGain := Smooth(avgGain, gain[i], period);
      avgLoss := Smooth(avgLoss, loss[i], period);
      gainHistory := gainHistory + [avgGain];
      lossHistory := lossHistory + [avgLoss];
      i := i + 1;
    }
    SmoothingComplete(gain, period, i, avgGain, gainHistory);
    SmoothingComplete(loss, period, i, avgLoss, lossHistory);
  }

  /**
    Computes the RSI as the source does: length check, first differences,
    the gain/loss split, the smoothed averages, then the final formula.
    The ghost out-parameters are the source's history lists.
  */
  method CalculateRsi(prices: seq<real>, period: int)
    returns (rsi: Option<real>, ghost gainHistory: seq<real>, ghost lossHistory: seq<real>)
    requires period >= 1
    ensures rsi == WilderRsi(prices, period)
    ensures |prices| < period + 1 ==> gainHistory == [] && lossHistory == []
    ensures |prices| >= period + 1 ==>
      && gainHistory == SmoothingHistory(Gains(Deltas(prices)), period)
      && lossHistory == SmoothingHistory(Losses(Deltas(prices)), period)
      && |gainHistory| == |lossHistory| == |prices| - period
  {
    if |prices| < period + 1 {
      return None, [], [];
    }
    var delta := Deltas(prices);
    var gain := Gains(delta);
    var loss := Losses(delta);
    var avgGain, avgLoss;
    avgGain, avgLoss, gainHistory, lossHistory := SmoothBoth(gain, loss, period);
    WilderRsiIsFormula(prices, period);
    var value := FinalRsi(avgGain, avgLoss);
    rsi := Some(value);
  }
}
