/** The fractal detector (`detect_fractals`) and the rolling fractal levels
    (`rolling(lookback, min_periods=1).max()` / `.min()` over the shifted
    fractal prices). */
module Fractals {
  import opened Market

  /** Python's `max` of a non-empty slice. */
  function MaxOf(s: seq<real>): (m: real)
    requires |s| > 0
    ensures forall t :: 0 <= t < |s| ==> s[t] <= m
    ensures exists t :: 0 <= t < |s| && s[t] == m
  {
    if |s| == 1 then s[0]
    else
      var front := s[..|s| - 1];
      assert forall t :: 0 <= t < |front| ==> front[t] == s[t];
      Max(MaxOf(front), s[|s| - 1])
  }

  /** Python's `min` of a non-empty slice. */
  function MinOf(s: seq<real>): (m: real)
    requires |s| > 0
    ensures forall t :: 0 <= t < |s| ==> m <= s[t]
    ensures exists t :: 0 <= t < |s| && s[t] == m
  {
    if |s| == 1 then s[0]
    else
      var front := s[..|s| - 1];
      assert forall t :: 0 <= t < |front| ==> front[t] == s[t];
      Min(MinOf(front), s[|s| - 1])
  }

  /** Bar `i` is a top fractal: it has a full window [i-left, i+right] and its
      high is strictly greater than every other high in that window. */
  predicate IsHighFractal(h: seq<real>, left: nat, right: nat, i: int) {
    left <= i < |h| - right &&
    forall j :: i - left <= j <= i + right && j != i ==> h[j] < h[i]
  }

  /** Bar `i` is a bottom fractal: the mirror rule with a strict minimum. */
  predicate IsLowFractal(l: seq<real>, left: nat, right: nat, i: int) {
    left <= i < |l| - right &&
    forall j :: i - left <= j <= i + right && j != i ==> l[i] < l[j]
  }

  /** The test `detect_fractals` writes for a top fractal (the high equals
      the window max and beats both sub-window maxima) is the strict rule. */
  lemma HighTestIsStrict(h: seq<real>, left: nat, right: nat, i: nat)
    requires left >= 1 && right >= 1 && left <= i < |h| - right
    ensures (h[i] == MaxOf(h[i - left..i + right + 1]) &&
             h[i] > MaxOf(h[i - left..i]) &&
             h[i] > MaxOf(h[i + 1..i + right + 1]))
            <==> IsHighFractal(h, left, right, i)
  {
    var whole, before, after := h[i - left..i + right + 1], h[i - left..i], h[i + 1..i + right + 1];
    assert forall j :: i - left <= j <= i + right ==> whole[j - (i - left)] == h[j];
    assert forall j :: i - left <= j < i ==> before[j - (i - left)] == h[j];
    assert forall j :: i < j <= i + right ==> after[j - (i + 1)] == h[j];
    if IsHighFractal(h, left, right, i) {
      var tb :| 0 <= tb < |before| && before[tb] == MaxOf(before);
      assert h[i - left + tb] == MaxOf(before);
      var ta :| 0 <= ta < |after| && after[ta] == MaxOf(after);
      assert h[i + 1 + ta] == MaxOf(after);
      var tw :| 0 <= tw < |whole| && whole[tw] == MaxOf(whole);
      assert whole[left] == h[i];
      assert h[i - left + tw] == MaxOf(whole);
    }
  }

  /** The mirror of HighTestIsStrict for bottom fractals. */
  lemma LowTestIsStrict(l: seq<real>, left: nat, right: nat, i: nat)
    requires left >= 1 && right >= 1 && left <= i < |l| - right
    ensures (l[i] == MinOf(l[i - left..i + right + 1]) &&
             l[i] < MinOf(l[i - left..i]) &&
             l[i] < MinOf(l[i + 1..i + right + 1]))
            <==> IsLowFractal(l, left, right, i)
  {
    var whole, before, after := l[i - left..i + right + 1], l[i - left..i], l[i + 1..i + right + 1];
    assert forall j :: i - left <= j <= i + right ==> whole[j - (i - left)] == l[j];
    assert forall j :: i - left <= j < i ==> before[j - (i - left)] == l[j];
    assert forall j :: i < j <= i + right ==> after[j - (i + 1)] == l[j];
    if IsLowFractal(l, left, right, i) {
      var tb :| 0 <= tb < |before| && before[tb] == MinOf(before);
      assert l[i - left + tb] == MinOf(before);
      var ta :| 0 <= ta < |after| && after[ta] == MinOf(after);
      assert l[i + 1 + ta] == MinOf(after);
      var tw :| 0 <= tw < |whole| && whole[tw] == MinOf(whole);
      assert whole[left] == l[i];
      assert l[i - left + tw] == MinOf(whole);
    }
  }

  /** `np.where(flags, prices, nan)`. */
  function Where(flags: seq<bool>, prices: seq<real>): (r: seq<Option<real>>)
    requires |flags| == |prices|
    ensures |r| == |flags|
  {
    seq(|flags|, k requires 0 <= k < |flags| => if flags[k] then Some(prices[k]) else None)
  }

  /** pandas `shift(k)`: every entry moves `k` places later, the first `k`
      become missing. */
  function Shift(xs: seq<Option<real>>, k: nat): (r: seq<Option<real>>)
    ensures |r| == |xs|
  {
    seq(|xs|, j requires 0 <= j < |xs| => if j < k then None else xs[j - k])
  }

  function HighFlags(h: seq<real>, left: nat, right: nat): seq<bool> {
    seq(|h|, i requires 0 <= i < |h| => IsHighFractal(h, left, right, i))
  }

  function LowFlags(l: seq<real>, left: nat, right: nat): seq<bool> {
    seq(|l|, i requires 0 <= i < |l| => IsLowFractal(l, left, right, i))
  }

  /** The reported `fractal_high` column: the top-fractal highs shifted
      `right` bars later, so that a fractal shows only once it is confirmed. */
  function FractalHigh(h: seq<real>, left: nat, right: nat): (r: seq<Option<real>>)
    ensures |r| == |h|
  {
    Shift(Where(HighFlags(h, left, right), h), right)
  }

  /** The reported `fractal_low` column, the mirror of FractalHigh. */
  function FractalLow(l: seq<real>, left: nat, right: nat): (r: seq<Option<real>>)
    ensures |r| == |l|
  {
    Shift(Where(LowFlags(l, left, right), l), right)
  }

  /** Entry j of the `fractal_high` column holds high[j - right] exactly
      when bar j - right is a top fractal and is missing otherwise; nothing
      is reported before index left + right. */
  lemma FractalHighAt(h: seq<real>, left: nat, right: nat, j: nat)
    requires j < |h|
    ensures FractalHigh(h, left, right)[j] ==
            if j >= right && IsHighFractal(h, left, right, j - right) then Some(h[j - right]) else None
    ensures j < left + right ==> FractalHigh(h, left, right)[j] == None
  {
  }

  /** Entry j of the `fractal_low` column holds low[j - right] exactly when
      bar j - right is a bottom fractal; nothing is reported before index
      left + right. */
  lemma FractalLowAt(l: seq<real>, left: nat, right: nat, j: nat)
    requires j < |l|
    ensures FractalLow(l, left, right)[j] ==
            if j >= right && IsLowFractal(l, left, right, j - right) then Some(l[j - right]) else None
    ensures j < left + right ==> FractalLow(l, left, right)[j] == None
  {
  }

  /** The four columns `detect_fractals` returns. */
  datatype FractalColumns = FractalColumns(bearishFractal: seq<bool>, bullishFractal: seq<bool>,
                                           fractalHigh: seq<Option<real>>, fractalLow: seq<Option<real>>)

  /** `detect_fractals`: flags the strict local extremes of a full window
      and reports their prices `right` bars later. The source's `max`/`min`
      of an empty sub-window raises, so both window halves are non-empty. */
  method DetectFractals(bars: seq<Bar>, leftBars: nat, rightBars: nat) returns (f: FractalColumns)
    requires leftBars >= 1 && rightBars >= 1
    ensures |f.bearishFractal| == |bars| && |f.bullishFractal| == |bars|
    ensures forall i :: 0 <= i < |bars| ==>
              (f.bearishFractal[i] <==> IsHighFractal(Highs(bars), leftBars, rightBars, i))
    ensures forall i :: 0 <= i < |bars| ==>
              (f.bullishFractal[i] <==> IsLowFractal(Lows(bars), leftBars, rightBars, i))
    ensures f.fractalHigh == FractalHigh(Highs(bars), leftBars, rightBars)
    ensures f.fractalLow == FractalLow(Lows(bars), leftBars, rightBars)
  {
    var high, low := Highs(bars), Lows(bars);
    var n := |bars|;
    var bearish := new bool[n](_ => false);
    var bullish := new bool[n](_ => false);
    var i := leftBars;
    while i < n - rightBars
      invariant leftBars <= i
      invariant i <= n - rightBars || i == leftBars
      invariant forall k :: 0 <= k < n ==>
                  (bearish[k] <==> k < i && IsHighFractal(high, leftBars, rightBars, k))
      invariant forall k :: 0 <= k < n ==>
                  (bullish[k] <==> k < i && IsLowFractal(low, leftBars, rightBars, k))
    {
      var top := TopFractalTest(high, leftBars, rightBars, i);
      if top {
        bearish[i] := true;
      }
      var bottom := BottomFractalTest(low, leftBars, rightBars, i);
      if bottom {
        bullish[i] := true;
      }
      i := i + 1;
    }
    assert bearish[..] == HighFlags(high, leftBars, rightBars);
    assert bullish[..] == LowFlags(low, leftBars, rightBars);
    f := FractalColumns(bearish[..], bullish[..],
                        Shift(Where(bearish[..], high), rightBars),
                        Shift(Where(bullish[..], low), rightBars));
  }

  /** The top-fractal test of `detect_fractals` for bar i. */
  method TopFractalTest(high: seq<real>, leftBars: nat, rightBars: nat, i: nat) returns (b: bool)
    requires leftBars >= 1 && rightBars >= 1 && leftBars <= i < |high| - rightBars
    ensures b == IsHighFractal(high, leftBars, rightBars, i)
  {
    HighTestIsStrict(high, leftBars, rightBars, i);
    b := high[i] == MaxOf(high[i - leftBars..i + rightBars + 1])
         && high[i] > MaxOf(high[i - leftBars..i])
         && high[i] > MaxOf(high[i + 1..i + rightBars + 1]);
  }

  /** The bottom-fractal test of `detect_fractals` for bar i. */
  method BottomFractalTest(low: seq<real>, leftBars: nat, rightBars: nat, i: nat) returns (b: bool)
    requires leftBars >= 1 && rightBars >= 1 && leftBars <= i < |low| - rightBars
    ensures b == IsLowFractal(low, leftBars, rightBars, i)
  {
    LowTestIsStrict(low, leftBars, rightBars, i);
    b := low[i] == MinOf(low[i - leftBars..i + rightBars + 1])
         && low[i] < MinOf(low[i - leftBars..i])
         && low[i] < MinOf(low[i + 1..i + rightBars + 1]);
  }

  /** A tie with any other bar of the window means no top fractal, and no
      bottom fractal for a tie of lows. */
  lemma TieMeansNoFractal(h: seq<real>, left: nat, right: nat, i: int, j: int)
    requires i - left <= j <= i + right && j != i && 0 <= i < |h| && 0 <= j < |h|
    ensures h[j] == h[i] ==> !IsHighFractal(h, left, right, i) && !IsLowFractal(h, left, right, i)
  {
  }

  // ---------------------------------------------------------------- rolling levels

  /** First index of the trailing window of `w` bars that ends at bar `i`. */
  function WindowStart(i: nat, w: nat): nat {
    if i + 1 >= w then i + 1 - w else 0
  }

  /** Max over the non-missing entries of xs[lo..hi]; missing when all are. */
  function WindowMax(xs: seq<Option<real>>, lo: nat, hi: nat): (r: Option<real>)
    requires lo <= hi <= |xs|
    ensures r.None? <==> forall k :: lo <= k < hi ==> xs[k].None?
    ensures r.Some? ==> exists k :: lo <= k < hi && xs[k] == r
    ensures r.Some? ==> forall k :: lo <= k < hi && xs[k].Some? ==> xs[k].value <= r.value
    decreases hi - lo
  {
    if hi == lo then None
    else
      var rest := WindowMax(xs, lo, hi - 1);
      match xs[hi - 1]
      case None => rest
      case Some(x) => if rest.Some? && x <= rest.value then rest else Some(x)
  }

  /** Min over the non-missing entries of xs[lo..hi]; missing when all are. */
  function WindowMin(xs: seq<Option<real>>, lo: nat, hi: nat): (r: Option<real>)
    requires lo <= hi <= |xs|
    ensures r.None? <==> forall k :: lo <= k < hi ==> xs[k].None?
    ensures r.Some? ==> exists k :: lo <= k < hi && xs[k] == r
    ensures r.Some? ==> forall k :: lo <= k < hi && xs[k].Some? ==> r.value <= xs[k].value
    decreases hi - lo
  {
    if hi == lo then None
    else
      var rest := WindowMin(xs, lo, hi - 1);
      match xs[hi - 1]
      case None => rest
      case Some(x) => if rest.Some? && rest.value <= x then rest else Some(x)
  }

  /** `rolling(w, min_periods=1).max()`. */
  function RollingMax(xs: seq<Option<real>>, w: nat): (r: seq<Option<real>>)
    requires w >= 1
    ensures |r| == |xs|
  {
    seq(|xs|, i requires 0 <= i < |xs| => WindowMax(xs, WindowStart(i, w), i + 1))
  }

  /** `rolling(w, min_periods=1).min()`. */
  function RollingMin(xs: seq<Option<real>>, w: nat): (r: seq<Option<real>>)
    requires w >= 1
    ensures |r| == |xs|
  {
    seq(|xs|, i requires 0 <= i < |xs| => WindowMin(xs, WindowStart(i, w), i + 1))
  }

  /** The rolling fractal-high level at bar i: entry i of
      RollingMax(FractalHigh(h, left, right), w). */
  function HighLevelAt(h: seq<real>, left: nat, right: nat, w: nat, i: nat): Option<real>
    requires i < |h|
  {
    WindowMax(FractalHigh(h, left, right), WindowStart(i, w), i + 1)
  }

  /** The rolling fractal-low level at bar i: entry i of
      RollingMin(FractalLow(l, left, right), w). */
  function LowLevelAt(l: seq<real>, left: nat, right: nat, w: nat, i: nat): Option<real>
    requires i < |l|
  {
    WindowMin(FractalLow(l, left, right), WindowStart(i, w), i + 1)
  }

  /** Entry i of the rolling max of the fractal-high column is the rolling
      fractal-high level of bar i. */
  lemma RollingHighEntry(h: seq<real>, left: nat, right: nat, w: nat, i: nat)
    requires w >= 1 && i < |h|
    ensures |RollingMax(FractalHigh(h, left, right), w)| == |h|
    ensures RollingMax(FractalHigh(h, left, right), w)[i] == HighLevelAt(h, left, right, w, i)
  {
  }

  /** Entry i of the rolling min of the fractal-low column is the rolling
      fractal-low level of bar i. */
  lemma RollingLowEntry(l: seq<real>, left: nat, right: nat, w: nat, i: nat)
    requires w >= 1 && i < |l|
    ensures |RollingMin(FractalLow(l, left, right), w)| == |l|
    ensures RollingMin(FractalLow(l, left, right), w)[i] == LowLevelAt(l, left, right, w, i)
  {
  }

  /** Top fractal c was confirmed (reported at c + right) within bars lo..i. */
  predicate ConfirmedHigh(h: seq<real>, left: nat, right: nat, lo: nat, i: nat, c: int) {
    lo <= c + right <= i && IsHighFractal(h, left, right, c)
  }

  /** Bottom fractal c was confirmed (reported at c + right) within bars lo..i. */
  predicate ConfirmedLow(l: seq<real>, left: nat, right: nat, lo: nat, i: nat, c: int) {
    lo <= c + right <= i && IsLowFractal(l, left, right, c)
  }

  /** The rolling fractal-high level at bar i in terms of the raw highs: it
      is present exactly when some top fractal was confirmed within the
      trailing window, and then it is the largest such high. */
  lemma RollingHighLevel(h: seq<real>, left: nat, right: nat, w: nat, i: nat)
    requires w >= 1 && i < |h|
    ensures var r, lo := HighLevelAt(h, left, right, w, i), WindowStart(i, w);
            && (r.None? <==> forall c :: !ConfirmedHigh(h, left, right, lo, i, c))
            && (r.Some? ==> exists c :: ConfirmedHigh(h, left, right, lo, i, c) && h[c] == r.value)
            && (r.Some? ==> forall c :: ConfirmedHigh(h, left, right, lo, i, c) ==> h[c] <= r.value)
  {
    var xs := FractalHigh(h, left, right);
    var lo := WindowStart(i, w);
    var r := WindowMax(xs, lo, i + 1);
    forall c | ConfirmedHigh(h, left, right, lo, i, c)
      ensures lo <= c + right < i + 1 && xs[c + right] == Some(h[c])
    {
      ConfirmedHighReported(h, left, right, lo, i, c);
    }
    if r.Some? {
      var k :| lo <= k < i + 1 && xs[k] == r;
      ReportedHighConfirmed(h, left, right, lo, i, k);
    }
  }

  /** A confirmed top fractal c is reported at bar c + right. */
  lemma ConfirmedHighReported(h: seq<real>, left: nat, right: nat, lo: nat, i: nat, c: int)
    requires i < |h| && ConfirmedHigh(h, left, right, lo, i, c)
    ensures lo <= c + right <= i && FractalHigh(h, left, right)[c + right] == Some(h[c])
  {
    FractalHighAt(h, left, right, c + right);
  }

  /** A reported entry k of the window is a confirmed fractal k - right. */
  lemma ReportedHighConfirmed(h: seq<real>, left: nat, right: nat, lo: nat, i: nat, k: nat)
    requires lo <= k <= i < |h| && FractalHigh(h, left, right)[k].Some?
    ensures ConfirmedHigh(h, left, right, lo, i, k - right) && FractalHigh(h, left, right)[k].value == h[k - right]
  {
    FractalHighAt(h, left, right, k);
  }

  /** The mirror of RollingHighLevel for the rolling fractal-low level. */
  lemma RollingLowLevel(l: seq<real>, left: nat, right: nat, w: nat, i: nat)
    requires w >= 1 && i < |l|
    ensures var r, lo := LowLevelAt(l, left, right, w, i), WindowStart(i, w);
            && (r.None? <==> forall c :: !ConfirmedLow(l, left, right, lo, i, c))
            && (r.Some? ==> exists c :: ConfirmedLow(l, left, right, lo, i, c) && l[c] == r.value)
            && (r.Some? ==> forall c :: ConfirmedLow(l, left, right, lo, i, c) ==> r.value <= l[c])
  {
    var xs := FractalLow(l, left, right);
    var lo := WindowStart(i, w);
    var r := WindowMin(xs, lo, i + 1);
    forall c | ConfirmedLow(l, left, right, lo, i, c)
      ensures lo <= c + right < i + 1 && xs[c + right] == Some(l[c])
    {
      ConfirmedLowReported(l, left, right, lo, i, c);
    }
    if r.Some? {
      var k :| lo <= k < i + 1 && xs[k] == r;
      ReportedLowConfirmed(l, left, right, lo, i, k);
    }
  }

  /** A confirmed bottom fractal c is reported at bar c + right. */
  lemma ConfirmedLowReported(l: seq<real>, left: nat, right: nat, lo: nat, i: nat, c: int)
    requires i < |l| && ConfirmedLow(l, left, right, lo, i, c)
    ensures lo <= c + right <= i && FractalLow(l, left, right)[c + right] == Some(l[c])
  {
    FractalLowAt(l, left, right, c + right);
  }

  /** A reported entry k of the window is a confirmed fractal k - right. */
  lemma ReportedLowConfirmed(l: seq<real>, left: nat, right: nat, lo: nat, i: nat, k: nat)
    requires lo <= k <= i < |l| && FractalLow(l, left, right)[k].Some?
    ensures ConfirmedLow(l, left, right, lo, i, k - right) && FractalLow(l, left, right)[k].value == l[k - right]
  {
    FractalLowAt(l, left, right, k);
  }

  // ---------------------------------------------------------------- causality

  /** Windowed maxima agree on sequences that agree inside the window. */
  lemma WindowMaxCongruent(xs: seq<Option<real>>, ys: seq<Option<real>>, lo: nat, hi: nat)
    requires lo <= hi <= |xs| && hi <= |ys|
    requires forall k :: lo <= k < hi ==> xs[k] == ys[k]
    ensures WindowMax(xs, lo, hi) == WindowMax(ys, lo, hi)
  {
    assert xs[lo..hi] == ys[lo..hi];
    WindowMaxSliceCongruent(xs, ys, lo, hi);
  }

  /** WindowMaxCongruent over equal slices. */
  lemma {:induction false} WindowMaxSliceCongruent(xs: seq<Option<real>>, ys: seq<Option<real>>, lo: nat, hi: nat)
    requires lo <= hi <= |xs| && hi <= |ys|
    requires xs[lo..hi] == ys[lo..hi]
    ensures WindowMax(xs, lo, hi) == WindowMax(ys, lo, hi)
    decreases hi - lo
  {
    if hi > lo {
      assert xs[lo..hi - 1] == xs[lo..hi][..hi - 1 - lo];
      assert ys[lo..hi - 1] == ys[lo..hi][..hi - 1 - lo];
      WindowMaxSliceCongruent(xs, ys, lo, hi - 1);
      assert xs[hi - 1] == xs[lo..hi][hi - 1 - lo];
    }
  }

  /** Windowed minima agree on sequences that agree inside the window. */
  lemma WindowMinCongruent(xs: seq<Option<real>>, ys: seq<Option<real>>, lo: nat, hi: nat)
    requires lo <= hi <= |xs| && hi <= |ys|
    requires forall k :: lo <= k < hi ==> xs[k] == ys[k]
    ensures WindowMin(xs, lo, hi) == WindowMin(ys, lo, hi)
  {
    assert xs[lo..hi] == ys[lo..hi];
    WindowMinSliceCongruent(xs, ys, lo, hi);
  }

  /** WindowMinCongruent over equal slices. */
  lemma {:induction false} WindowMinSliceCongruent(xs: seq<Option<real>>, ys: seq<Option<real>>, lo: nat, hi: nat)
    requires lo <= hi <= |xs| && hi <= |ys|
    requires xs[lo..hi] == ys[lo..hi]
    ensures WindowMin(xs, lo, hi) == WindowMin(ys, lo, hi)
    decreases hi - lo
  {
    if hi > lo {
      assert xs[lo..hi - 1] == xs[lo..hi][..hi - 1 - lo];
      assert ys[lo..hi - 1] == ys[lo..hi][..hi - 1 - lo];
      WindowMinSliceCongruent(xs, ys, lo, hi - 1);
      assert xs[hi - 1] == xs[lo..hi][hi - 1 - lo];
    }
  }

  /** The rolling fractal-high level at bar i depends only on the highs of
      bars 0..i: a fractal is reported only once its right-hand bars have
      closed. */
  lemma HighLevelCausal(h: seq<real>, h': seq<real>, left: nat, right: nat, w: nat, i: nat)
    requires i < |h| && i < |h'|
    requires forall t :: 0 <= t <= i ==> h[t] == h'[t]
    ensures HighLevelAt(h, left, right, w, i) == HighLevelAt(h', left, right, w, i)
  {
    var fh, fh' := FractalHigh(h, left, right), FractalHigh(h', left, right);
    forall j | 0 <= j <= i
      ensures fh[j] == fh'[j]
    {
      FractalHighAt(h, left, right, j);
      FractalHighAt(h', left, right, j);
      if j >= right {
        var c := j - right;
        assert IsHighFractal(h, left, right, c) == IsHighFractal(h', left, right, c);
      }
    }
    WindowMaxCongruent(fh, fh', WindowStart(i, w), i + 1);
  }

  /** The rolling fractal-low level at bar i depends only on the lows of
      bars 0..i. */
  lemma LowLevelCausal(l: seq<real>, l': seq<real>, left: nat, right: nat, w: nat, i: nat)
    requires i < |l| && i < |l'|
    requires forall t :: 0 <= t <= i ==> l[t] == l'[t]
    ensures LowLevelAt(l, left, right, w, i) == LowLevelAt(l', left, right, w, i)
  {
    var fl, fl' := FractalLow(l, left, right), FractalLow(l', left, right);
    forall j | 0 <= j <= i
      ensures fl[j] == fl'[j]
    {
      FractalLowAt(l, left, right, j);
      FractalLowAt(l', left, right, j);
      if j >= right {
        var c := j - right;
        assert IsLowFractal(l, left, right, c) == IsLowFractal(l', left, right, c);
      }
    }
    WindowMinCongruent(fl, fl', WindowStart(i, w), i + 1);
  }
}
