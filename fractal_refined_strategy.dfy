/** The refined fractal strategy: a breakout of the rolling fractal level
    in the direction of the EMA trend, entered at the next bar's open, with
    a stop two ATRs away and a 2R target. */
module FractalRefinedStrategy {
  import opened Market
  import opened Indicators
  import opened Fractals
  import opened Columns
  import opened Exits
  import opened Backtest

  /** The profit target of `find_exit`, in R. */
  const TargetMultiple: real := 2.0

  /** The default `atr_mult_stop` of `execute_backtest`. */
  const DefaultAtrMultStop: real := 2.0

  /** The parameters of `detect_signals`. */
  datatype Params = Params(leftBars: nat, rightBars: nat, lookback: nat, emaPeriod: nat, atrPeriod: nat)

  /** The defaults of `detect_signals`. */
  const DefaultParams: Params := Params(2, 2, 20, 50, 14)

  /** Parameters the model admits: with a zero fractal window the source's
      `max` of an empty slice can raise, pandas rejects a zero lookback or
      EMA span, and an ATR period of 0 divides by zero in `1 / period`. */
  predicate ValidParams(p: Params) {
    p.leftBars >= 1 && p.rightBars >= 1 && p.lookback >= 1 && p.emaPeriod >= 1 && p.atrPeriod >= 1
  }

  /** The parameters the source's defaults give are admitted. */
  lemma DefaultParamsValid()
    ensures ValidParams(DefaultParams)
  {
  }

  /** The EMA, ATR and rolling-level columns under the parameters. */
  function Cols(bars: seq<Bar>, p: Params): (c: SignalColumns)
    requires ValidParams(p)
    ensures Aligned(c, |bars|)
  {
    ColumnsOf(bars, p.leftBars, p.rightBars, p.lookback, p.emaPeriod, p.atrPeriod)
  }

  /** The signal `detect_signals` emits at bar i >= 1, if any: Bullish when
      the previous close is above the previous EMA and above the defined
      rolling fractal-high level of the previous bar; otherwise Bearish on
      the mirror condition. The entry is this bar's open. */
  function SignalAt(bars: seq<Bar>, c: SignalColumns, i: nat): Option<Signal>
    requires Aligned(c, |bars|) && 1 <= i < |bars|
  {
    var prevClose := bars[i - 1].close;
    var emaVal := c.ema[i - 1];
    var high, low := c.highLevel[i - 1], c.lowLevel[i - 1];
    if prevClose > emaVal && high.Some? && prevClose > high.value then
      Some(Signal(Bullish, bars[i].timestamp, bars[i].open, high.value, emaVal, c.atr[i - 1]))
    else if prevClose < emaVal && low.Some? && prevClose < low.value then
      Some(Signal(Bearish, bars[i].timestamp, bars[i].open, low.value, emaVal, c.atr[i - 1]))
    else None
  }

  /** The signals of bars 1 .. m-1, in bar order. */
  function SignalsBefore(bars: seq<Bar>, c: SignalColumns, m: nat): seq<Signal>
    requires Aligned(c, |bars|) && m <= |bars|
  {
    if m <= 1 then []
    else
      var earlier := SignalsBefore(bars, c, m - 1);
      match SignalAt(bars, c, m - 1)
      case None => earlier
      case Some(s) => earlier + [s]
  }

  /** Every signal the strategy emits for a series. */
  function Signals(bars: seq<Bar>, p: Params): seq<Signal>
    requires ValidParams(p)
  {
    SignalsBefore(bars, Cols(bars, p), |bars|)
  }

  /** `detect_signals`: computes EMA, ATR, the fractals and the rolling
      levels once, then walks the bars from the second on and appends at
      most one signal per bar. */
  method DetectSignals(bars: seq<Bar>, p: Params) returns (signals: seq<Signal>)
    requires ValidParams(p)
    ensures signals == Signals(bars, p)
  {
    var ema := Ema(bars, p.emaPeriod);
    var atr := Atr(bars, p.atrPeriod);
    var fractals := DetectFractals(bars, p.leftBars, p.rightBars);
    var fractalHighs := RollingMax(fractals.fractalHigh, p.lookback);
    var fractalLows := RollingMin(fractals.fractalLow, p.lookback);
    ghost var c := Cols(bars, p);
    assert c == SignalColumns(ema, atr, fractalHighs, fractalLows);
    signals := CollectSignals(bars, SignalColumns(ema, atr, fractalHighs, fractalLows));
  }

  /** The signal loop of `detect_signals` over the computed columns. */
  method CollectSignals(bars: seq<Bar>, c: SignalColumns) returns (signals: seq<Signal>)
    requires Aligned(c, |bars|)
    ensures signals == SignalsBefore(bars, c, |bars|)
  {
    signals := [];
    if |bars| == 0 {
      return;
    }
    var i := 1;
    while i < |bars|
      invariant 1 <= i <= |bars|
      invariant signals == SignalsBefore(bars, c, i)
    {
      var prevClose := bars[i - 1].close;
      var currentOpen := bars[i].open;
      var emaVal := c.ema[i - 1];
      var high, low := c.highLevel[i - 1], c.lowLevel[i - 1];
      if prevClose > emaVal && high.Some? && prevClose > high.value {
        signals := signals + [Signal(Bullish, bars[i].timestamp, currentOpen, high.value, emaVal, c.atr[i - 1])];
      } else if prevClose < emaVal && low.Some? && prevClose < low.value {
        signals := signals + [Signal(Bearish, bars[i].timestamp, currentOpen, low.value, emaVal, c.atr[i - 1])];
      }
      i := i + 1;
    }
  }

  /** The gate of bar i over columns whose levels at the previous bar j are
      the rolling fractal levels: Bullish exactly when the close of j is
      above its EMA and breaks the recent top fractals, Bearish exactly on
      the mirror condition without the Bullish one, nothing otherwise. */
  lemma SignalGateMeaning(bars: seq<Bar>, p: Params, c: SignalColumns, i: nat)
    requires ValidParams(p) && Aligned(c, |bars|) && 1 <= i < |bars|
    requires c.highLevel[i - 1] == HighLevelAt(Highs(bars), p.leftBars, p.rightBars, p.lookback, i - 1)
    requires c.lowLevel[i - 1] == LowLevelAt(Lows(bars), p.leftBars, p.rightBars, p.lookback, i - 1)
    ensures var r, j := SignalAt(bars, c, i), i - 1;
            var bull := bars[j].close > c.ema[j] && HighBroken(bars, p.leftBars, p.rightBars, p.lookback, j);
            var bear := bars[j].close < c.ema[j] && LowBroken(bars, p.leftBars, p.rightBars, p.lookback, j);
            && (r.Some? && r.value.kind == Bullish <==> bull)
            && (r.Some? && r.value.kind == Bearish <==> !bull && bear)
            && (r.None? <==> !bull && !bear)
  {
    var j := i - 1;
    HighBrokenIff(bars, p.leftBars, p.rightBars, p.lookback, j);
    LowBrokenIff(bars, p.leftBars, p.rightBars, p.lookback, j);
    var high, low := c.highLevel[j], c.lowLevel[j];
    var close := bars[j].close;
    var r := SignalAt(bars, c, i);
    if close > c.ema[j] && high.Some? && close > high.value {
      assert r.Some? && r.value.kind == Bullish;
    } else if close < c.ema[j] && low.Some? && close < low.value {
      assert r.Some? && r.value.kind == Bearish;
    } else {
      assert r.None?;
    }
  }

  /** The fields of a signal, read off the columns of the previous bar. */
  lemma SignalShape(bars: seq<Bar>, c: SignalColumns, i: nat)
    requires Aligned(c, |bars|) && 1 <= i < |bars|
    ensures var r, j := SignalAt(bars, c, i), i - 1;
            && (r.Some? ==> r.value.signalDate == bars[i].timestamp && r.value.entryPrice == bars[i].open &&
                            r.value.emaLevel == c.ema[j] && r.value.atr == c.atr[j])
            && (r.Some? && r.value.kind == Bullish ==> c.highLevel[j] == Some(r.value.fractalLevel))
            && (r.Some? && r.value.kind == Bearish ==> c.lowLevel[j] == Some(r.value.fractalLevel))
  {
  }

  /** A signal of bar i enters at the bar's own open on the bar's date,
      carries the EMA and ATR of the previous bar j, and its level is the
      high (low) of a fractal confirmed within the lookback window of j. */
  lemma SignalFields(bars: seq<Bar>, p: Params, c: SignalColumns, i: nat)
    requires ValidParams(p) && Aligned(c, |bars|) && 1 <= i < |bars|
    requires c.highLevel[i - 1] == HighLevelAt(Highs(bars), p.leftBars, p.rightBars, p.lookback, i - 1)
    requires c.lowLevel[i - 1] == LowLevelAt(Lows(bars), p.leftBars, p.rightBars, p.lookback, i - 1)
    ensures var r, j := SignalAt(bars, c, i), i - 1;
            && (r.Some? ==> r.value.signalDate == bars[i].timestamp && r.value.entryPrice == bars[i].open &&
                            r.value.emaLevel == c.ema[j] && r.value.atr == c.atr[j])
            && (r.Some? && r.value.kind == Bullish ==>
                  exists f :: ConfirmedHigh(Highs(bars), p.leftBars, p.rightBars, WindowStart(j, p.lookback), j, f) &&
                              r.value.fractalLevel == bars[f].high)
            && (r.Some? && r.value.kind == Bearish ==>
                  exists f :: ConfirmedLow(Lows(bars), p.leftBars, p.rightBars, WindowStart(j, p.lookback), j, f) &&
                              r.value.fractalLevel == bars[f].low)
  {
    SignalShape(bars, c, i);
    var r := SignalAt(bars, c, i);
    if r.Some? && r.value.kind == Bullish {
      HighLevelIsFractal(bars, p.leftBars, p.rightBars, p.lookback, i - 1);
    } else if r.Some? {
      LowLevelIsFractal(bars, p.leftBars, p.rightBars, p.lookback, i - 1);
    }
  }

  /** The gate of bar i on the strategy's own columns, whose levels are
      the rolling fractal levels of the series. */
  lemma SignalAtMeaning(bars: seq<Bar>, p: Params, i: nat)
    requires ValidParams(p) && 1 <= i < |bars|
    ensures var c, j := Cols(bars, p), i - 1;
            var r := SignalAt(bars, c, i);
            var bull := bars[j].close > c.ema[j] && HighBroken(bars, p.leftBars, p.rightBars, p.lookback, j);
            var bear := bars[j].close < c.ema[j] && LowBroken(bars, p.leftBars, p.rightBars, p.lookback, j);
            && (r.Some? && r.value.kind == Bullish <==> bull)
            && (r.Some? && r.value.kind == Bearish <==> !bull && bear)
            && (r.None? <==> !bull && !bear)
  {
    LevelColumnsAt(bars, p.leftBars, p.rightBars, p.lookback, p.emaPeriod, p.atrPeriod, i - 1);
    SignalGateMeaning(bars, p, Cols(bars, p), i);
  }

  /** A signal at bar i reads nothing of bar i but its open and its date,
      and nothing of any later bar. */
  lemma SignalAtNoLookAhead(bars: seq<Bar>, other: seq<Bar>, p: Params, i: nat)
    requires ValidParams(p) && 1 <= i < |bars| && i < |other|
    requires forall t :: 0 <= t < i ==> bars[t] == other[t]
    requires bars[i].open == other[i].open && bars[i].timestamp == other[i].timestamp
    ensures SignalAt(bars, Cols(bars, p), i) == SignalAt(other, Cols(other, p), i)
  {
    ColumnsCausal(bars, other, p.leftBars, p.rightBars, p.lookback, p.emaPeriod, p.atrPeriod, i - 1);
  }

  /** The signals of bars before i are a prefix of the signals of bars
      before any later m: a later bar only appends. */
  lemma {:induction false} SignalsBeforePrefix(bars: seq<Bar>, c: SignalColumns, i: nat, m: nat)
    requires Aligned(c, |bars|) && i <= m <= |bars|
    ensures SignalsBefore(bars, c, i) <= SignalsBefore(bars, c, m)
    decreases m - i
  {
    if i < m {
      SignalsBeforePrefix(bars, c, i, m - 1);
    }
  }

  /** Every bar that fires has its signal in the list, at the position
      given by the number of signals of the bars before it. */
  lemma {:induction false} SignalsBeforeComplete(bars: seq<Bar>, c: SignalColumns, i: nat, m: nat)
    requires Aligned(c, |bars|) && 1 <= i < m <= |bars| && SignalAt(bars, c, i).Some?
    ensures SignalsBefore(bars, c, i) + [SignalAt(bars, c, i).value] <= SignalsBefore(bars, c, m)
    ensures |SignalsBefore(bars, c, i)| < |SignalsBefore(bars, c, m)|
    ensures SignalsBefore(bars, c, m)[|SignalsBefore(bars, c, i)|] == SignalAt(bars, c, i).value
    ensures SignalAt(bars, c, i).value in SignalsBefore(bars, c, m)
  {
    assert SignalsBefore(bars, c, i + 1) == SignalsBefore(bars, c, i) + [SignalAt(bars, c, i).value];
    SignalsBeforePrefix(bars, c, i + 1, m);
    var k := |SignalsBefore(bars, c, i)|;
    assert SignalsBefore(bars, c, m)[k] == SignalsBefore(bars, c, i + 1)[k];
  }

  /** Every signal of bars 1 .. m-1 is the signal of one of those bars. */
  lemma {:induction false} SignalsBeforeFromBars(bars: seq<Bar>, c: SignalColumns, m: nat)
    requires Aligned(c, |bars|) && m <= |bars|
    ensures forall k :: 0 <= k < |SignalsBefore(bars, c, m)| ==>
              exists i :: 1 <= i < m && SignalAt(bars, c, i) == Some(SignalsBefore(bars, c, m)[k])
  {
    if m > 1 {
      SignalsBeforeFromBars(bars, c, m - 1);
      var earlier := SignalsBefore(bars, c, m - 1);
      var s := SignalsBefore(bars, c, m);
      assert s == earlier || s == earlier + [SignalAt(bars, c, m - 1).value];
      forall k | 0 <= k < |s|
        ensures exists i :: 1 <= i < m && SignalAt(bars, c, i) == Some(s[k])
      {
        if k < |earlier| {
          var i :| 1 <= i < m - 1 && SignalAt(bars, c, i) == Some(earlier[k]);
          assert SignalAt(bars, c, i) == Some(s[k]);
        } else {
          assert SignalAt(bars, c, m - 1) == Some(s[k]);
        }
      }
      assert forall k :: 0 <= k < |s| ==> exists i :: 1 <= i < m && SignalAt(bars, c, i) == Some(s[k]);
    } else {
      assert SignalsBefore(bars, c, m) == [];
    }
  }

  /** Every signal of bars 1 .. m-1 is dated before bar m. */
  lemma SignalsBeforeDated(bars: seq<Bar>, c: SignalColumns, m: nat)
    requires Aligned(c, |bars|) && m < |bars| && StrictlyIncreasingDates(bars)
    ensures forall k :: 0 <= k < |SignalsBefore(bars, c, m)| ==>
              SignalsBefore(bars, c, m)[k].signalDate < bars[m].timestamp
  {
    SignalsBeforeFromBars(bars, c, m);
    var s := SignalsBefore(bars, c, m);
    forall k | 0 <= k < |s|
      ensures s[k].signalDate < bars[m].timestamp
    {
      var i :| 1 <= i < m && SignalAt(bars, c, i) == Some(s[k]);
    }
  }

  /** On a series with increasing dates, the signals come out in strictly
      increasing date order, so no bar emits two. */
  lemma {:induction false} SignalsInDateOrder(bars: seq<Bar>, c: SignalColumns, m: nat)
    requires Aligned(c, |bars|) && m <= |bars| && StrictlyIncreasingDates(bars)
    ensures forall a, b :: 0 <= a < b < |SignalsBefore(bars, c, m)| ==>
              SignalsBefore(bars, c, m)[a].signalDate < SignalsBefore(bars, c, m)[b].signalDate
  {
    if m > 1 {
      SignalsInDateOrder(bars, c, m - 1);
      SignalsBeforeDated(bars, c, m - 1);
      var earlier := SignalsBefore(bars, c, m - 1);
      var s := SignalsBefore(bars, c, m);
      assert s == earlier || s == earlier + [SignalAt(bars, c, m - 1).value];
      forall a, b | 0 <= a < b < |s|
        ensures s[a].signalDate < s[b].signalDate
      {
        if b == |earlier| {
          assert s == earlier + [SignalAt(bars, c, m - 1).value];
          assert s[a] == earlier[a] && s[b].signalDate == bars[m - 1].timestamp;
          assert earlier[a].signalDate < bars[m - 1].timestamp;
        } else {
          assert s[a] == earlier[a] && s[b] == earlier[b];
          assert earlier[a].signalDate < earlier[b].signalDate;
        }
      }
    }
  }

  /** `find_exit` of this strategy: 2R target. */
  method FindExit(bars: seq<Bar>, entryDate: int, entryPrice: real, stopPrice: real, kind: Direction)
    returns (outcome: real)
    ensures outcome == ExitOutcome(bars, entryDate, entryPrice, stopPrice, kind, TargetMultiple)
    ensures outcome == -1.0 || outcome == 2.0 || outcome == 0.0
  {
    outcome := Exits.FindExit(bars, entryDate, entryPrice, stopPrice, kind, TargetMultiple);
  }

  /** `execute_backtest` of this strategy, with its 2R exits. */
  method ExecuteBacktest(bars: seq<Bar>, signals: seq<Signal>, atrMultStop: real) returns (trades: seq<Trade>)
    ensures |trades| == |signals|
    ensures forall k :: 0 <= k < |signals| ==> trades[k] == TradeFor(bars, signals[k], atrMultStop, TargetMultiple)
  {
    trades := Backtest.ExecuteBacktest(bars, signals, atrMultStop, TargetMultiple);
  }

  /** The trades of the strategy's own signals at the default stop: one per
      signal with the same direction, entry and date, a risk unit of exactly
      two ATRs with the stop on the losing side, and an outcome of -1, 2 or
      0 R. */
  lemma StrategyTrades(bars: seq<Bar>, p: Params, k: nat)
    requires ValidParams(p) && k < |Signals(bars, p)|
    ensures var s := Signals(bars, p)[k];
            var t := TradeFor(bars, s, DefaultAtrMultStop, TargetMultiple);
            && t.kind == s.kind && t.entry == s.entryPrice && t.entryDate == s.signalDate
            && t.r == 2.0 * s.atr && s.atr >= 0.0
            && (t.kind == Bullish ==> t.stop <= t.entry) && (t.kind == Bearish ==> t.stop >= t.entry)
            && (t.outcomeR == -1.0 || t.outcomeR == 2.0 || t.outcomeR == 0.0)
  {
    SignalAtrNonNegative(bars, p, k);
    TradeForProperties(bars, Signals(bars, p)[k], DefaultAtrMultStop, TargetMultiple);
  }

  /** The ATR of every signal is an entry of the ATR column. */
  lemma SignalAtrFromColumn(bars: seq<Bar>, c: SignalColumns, k: nat)
    requires Aligned(c, |bars|) && k < |SignalsBefore(bars, c, |bars|)|
    ensures exists j :: 0 <= j < |bars| && SignalsBefore(bars, c, |bars|)[k].atr == c.atr[j]
  {
    SignalsBeforeFromBars(bars, c, |bars|);
    var i :| 1 <= i < |bars| && SignalAt(bars, c, i) == Some(SignalsBefore(bars, c, |bars|)[k]);
    assert SignalsBefore(bars, c, |bars|)[k].atr == c.atr[i - 1];
  }

  /** Every signal carries a non-negative ATR. */
  lemma SignalAtrNonNegative(bars: seq<Bar>, p: Params, k: nat)
    requires ValidParams(p) && k < |Signals(bars, p)|
    ensures Signals(bars, p)[k].atr >= 0.0
  {
    SignalAtrFromColumn(bars, Cols(bars, p), k);
    var j :| 0 <= j < |bars| && Signals(bars, p)[k].atr == Cols(bars, p).atr[j];
    AtrColumnNonNegative(bars, p.leftBars, p.rightBars, p.lookback, p.emaPeriod, p.atrPeriod, j);
  }

  /** The summary of a backtest of this strategy: no trades give all zeros;
      otherwise the direction counts are those of the signals and the mean
      outcome lies between -1 and 2 R. */
  lemma StrategySummary(bars: seq<Bar>, signals: seq<Signal>, trades: seq<Trade>, atrMultStop: real)
    requires |trades| == |signals|
    requires forall k :: 0 <= k < |signals| ==> trades[k] == TradeFor(bars, signals[k], atrMultStop, TargetMultiple)
    ensures var s := SummarizeResults(trades);
            && (|signals| == 0 ==> s == Summary(0, 0.0, 0.0, 0, 0))
            && s.numTrades == |signals|
            && s.bullishTrades == CountSignals(signals, Bullish)
            && s.bearishTrades == CountSignals(signals, Bearish)
            && (|signals| > 0 ==> -1.0 <= s.avgOutcomeR <= 2.0)
  {
    TradesKeepDirections(bars, signals, trades, atrMultStop, TargetMultiple, Bullish);
    TradesKeepDirections(bars, signals, trades, atrMultStop, TargetMultiple, Bearish);
    if |signals| > 0 {
      AverageOutcomeBounds(trades, TargetMultiple);
    }
  }
}
