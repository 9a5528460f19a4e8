/** The indicator engine: true range, exponential smoothing, the EMA trend
    filter and the ATR volatility measure (`calculate_atr` and the `ewm`
    calls of `detect_signals`), as recurrences over `real`. */
module Indicators {
  import opened Market

  /** True range of bar `k`: the largest of |high - low|, |high - previous
      close| and |low - previous close|. The first bar has no previous close,
      so only |high - low| counts there (pandas' row max skips the NaN). */
  function TrueRange(bars: seq<Bar>, k: nat): (tr: real)
    requires k < |bars|
    ensures tr >= Abs(bars[k].high - bars[k].low) >= 0.0
    ensures k == 0 ==> tr == Abs(bars[0].high - bars[0].low)
    ensures k > 0 ==> (tr >= Abs(bars[k].high - bars[k - 1].close)
                       && tr >= Abs(bars[k].low - bars[k - 1].close))
    ensures k > 0 ==> (tr == Abs(bars[k].high - bars[k].low)
                       || tr == Abs(bars[k].high - bars[k - 1].close)
                       || tr == Abs(bars[k].low - bars[k - 1].close))
  {
    var range := Abs(bars[k].high - bars[k].low);
    if k == 0 then range
    else
      var prevClose := bars[k - 1].close;
      Max(range, Max(Abs(bars[k].high - prevClose), Abs(bars[k].low - prevClose)))
  }

  /** The true-range column. */
  function TrueRanges(bars: seq<Bar>): (r: seq<real>)
    ensures |r| == |bars| && forall k :: 0 <= k < |r| ==> r[k] >= 0.0
  {
    seq(|bars|, k requires 0 <= k < |bars| => TrueRange(bars, k))
  }

  /** Entry `k` of an exponentially weighted mean without bias adjustment
      (`ewm(..., adjust=False).mean()`): seeded with the first value, then
      alpha * x[k] + (1 - alpha) * previous mean. */
  function EwmAt(xs: seq<real>, alpha: real, k: nat): real
    requires k < |xs|
    decreases k
  {
    if k == 0 then xs[0] else alpha * xs[k] + (1.0 - alpha) * EwmAt(xs, alpha, k - 1)
  }

  /** The smoothed column. */
  function Ewm(xs: seq<real>, alpha: real): seq<real> {
    seq(|xs|, k requires 0 <= k < |xs| => EwmAt(xs, alpha, k))
  }

  /** Smoothing factor of `ewm(span=period)`. */
  function EmaAlpha(period: nat): (alpha: real)
    requires period >= 1
    ensures 0.0 < alpha <= 1.0
  {
    2.0 / (period as real + 1.0)
  }

  /** Smoothing factor of `ewm(alpha=1/period)`. */
  function AtrAlpha(period: nat): (alpha: real)
    requires period >= 1
    ensures 0.0 < alpha <= 1.0
  {
    1.0 / period as real
  }

  /** The EMA of the closes. */
  function Ema(bars: seq<Bar>, period: nat): (r: seq<real>)
    requires period >= 1
    ensures |r| == |bars|
  {
    Ewm(Closes(bars), EmaAlpha(period))
  }

  /** The ATR: smoothed true range. */
  function Atr(bars: seq<Bar>, period: nat): (r: seq<real>)
    requires period >= 1
    ensures |r| == |bars|
  {
    Ewm(TrueRanges(bars), AtrAlpha(period))
  }

  /** A smoothed value is never below a lower bound of the values so far. */
  lemma {:induction false} EwmAtLeast(xs: seq<real>, alpha: real, k: nat, lo: real)
    requires 0.0 < alpha <= 1.0 && k < |xs|
    requires forall t :: 0 <= t <= k ==> lo <= xs[t]
    ensures lo <= EwmAt(xs, alpha, k)
  {
    if k > 0 {
      EwmAtLeast(xs, alpha, k - 1, lo);
      var prev := EwmAt(xs, alpha, k - 1);
      assert lo <= xs[k];
      ProductNonNegative(alpha, xs[k] - lo);
      ProductNonNegative(1.0 - alpha, prev - lo);
    }
  }

  /** A smoothed value is never above an upper bound of the values so far. */
  lemma {:induction false} EwmAtMost(xs: seq<real>, alpha: real, k: nat, hi: real)
    requires 0.0 < alpha <= 1.0 && k < |xs|
    requires forall t :: 0 <= t <= k ==> xs[t] <= hi
    ensures EwmAt(xs, alpha, k) <= hi
  {
    if k > 0 {
      EwmAtMost(xs, alpha, k - 1, hi);
      var prev := EwmAt(xs, alpha, k - 1);
      assert xs[k] <= hi;
      ProductNonNegative(alpha, hi - xs[k]);
      ProductNonNegative(1.0 - alpha, hi - prev);
    }
  }

  /** Entry `k` of a smoothed column depends only on the values up to `k`. */
  lemma {:induction false} EwmAtCausal(xs: seq<real>, ys: seq<real>, alpha: real, k: nat)
    requires k < |xs| && k < |ys|
    requires forall t :: 0 <= t <= k ==> xs[t] == ys[t]
    ensures EwmAt(xs, alpha, k) == EwmAt(ys, alpha, k)
  {
    if k > 0 {
      EwmAtCausal(xs, ys, alpha, k - 1);
    }
  }

  /** The ATR is never negative, because no true range is. */
  lemma AtrNonNegative(bars: seq<Bar>, period: nat, k: nat)
    requires period >= 1 && k < |bars|
    ensures Atr(bars, period)[k] >= 0.0
  {
    EwmAtLeast(TrueRanges(bars), AtrAlpha(period), k, 0.0);
  }

  /** The EMA at bar `k` lies between the lowest and the highest close up to `k`. */
  lemma EmaWithinCloses(bars: seq<Bar>, period: nat, k: nat, lo: real, hi: real)
    requires period >= 1 && k < |bars|
    requires forall t :: 0 <= t <= k ==> lo <= bars[t].close <= hi
    ensures lo <= Ema(bars, period)[k] <= hi
  {
    EwmAtLeast(Closes(bars), EmaAlpha(period), k, lo);
    EwmAtMost(Closes(bars), EmaAlpha(period), k, hi);
  }

  /** EMA and ATR at bar `k` depend only on bars 0..k. */
  lemma IndicatorsCausal(bars: seq<Bar>, other: seq<Bar>, emaPeriod: nat, atrPeriod: nat, k: nat)
    requires emaPeriod >= 1 && atrPeriod >= 1
    requires k < |bars| && k < |other|
    requires forall t :: 0 <= t <= k ==> bars[t] == other[t]
    ensures Ema(bars, emaPeriod)[k] == Ema(other, emaPeriod)[k]
    ensures Atr(bars, atrPeriod)[k] == Atr(other, atrPeriod)[k]
  {
    EwmAtCausal(Closes(bars), Closes(other), EmaAlpha(emaPeriod), k);
    var tr, tr' := TrueRanges(bars), TrueRanges(other);
    forall t | 0 <= t <= k ensures tr[t] == tr'[t] {
      assert TrueRange(bars, t) == TrueRange(other, t);
    }
    EwmAtCausal(tr, tr', AtrAlpha(atrPeriod), k);
  }
}
