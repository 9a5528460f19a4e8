/** The fractal + order-block strategy: the fractal breakout of the refined
    strategy, taken only when the entry open lies in the widened zone of a
    recent order block of the same direction; 2.5R target. */
module FractalObStrategy {
  import opened Market
  import opened Indicators
  import opened Fractals
  import opened Columns
  import opened OrderBlocks
  import opened Exits
  import opened Backtest

  /** The profit target of `find_exit`, in R. */
  const TargetMultiple: real := 2.5

  /** The default `atr_mult_stop` of `execute_backtest`. */
  const DefaultAtrMultStop: real := 2.0

  /** The parameters of `detect_signals`. */
  datatype Params = Params(leftBars: nat, rightBars: nat, lookback: nat, emaPeriod: nat, atrPeriod: nat,
                           impulseBars: nat, minBodyRatio: real)

  /** The defaults of `detect_signals`. */
  const DefaultParams: Params := Params(2, 2, 20, 50, 14, 3, 0.3)

  /** Parameters the model admits: with a zero fractal window the source's
      `max` of an empty slice can raise, pandas rejects a zero lookback or
      EMA span, and an ATR period of 0 divides by zero in `1 / period`. */
  predicate ValidParams(p: Params) {
    p.leftBars >= 1 && p.rightBars >= 1 && p.lookback >= 1 && p.emaPeriod >= 1 && p.atrPeriod >= 1
  }

  /** The parameters the source's defaults give are admitted. */
  lemma DefaultParamsValid()
    ensures ValidParams(DefaultParams)
  {
  }

  /** The EMA, ATR and rolling-level columns under the parameters. */
  function Cols(bars: seq<Bar>, p: Params): (c: SignalColumns)
    requires ValidParams(p)
    ensures Aligned(c, |bars|)
  {
    ColumnsOf(bars, p.leftBars, p.rightBars, p.lookback, p.emaPeriod, p.atrPeriod)
  }

  /** The order-block table `detect_signals` builds from the raw fractal
      columns. */
  function Obs(bars: seq<Bar>, p: Params): (ob: ObColumns)
    requires ValidParams(p)
    ensures WellFormed(ob, |bars|)
  {
    ObTable(bars, FractalHigh(Highs(bars), p.leftBars, p.rightBars), FractalLow(Lows(bars), p.leftBars, p.rightBars),
            p.impulseBars, p.minBodyRatio, p.lookback)
  }

  /** The zone lookup of bar i at its own open. */
  function ZoneAt(bars: seq<Bar>, ob: ObColumns, i: nat): Option<Direction>
    requires WellFormed(ob, |bars|) && i < |bars|
  {
    ObProximity(ob, |bars|, i, bars[i].open, TolerancePct)
  }

  /** The signal `detect_signals` emits at bar i >= 1, if any: Bullish when
      the previous close is above the previous EMA and above the defined
      rolling fractal-high level of the previous bar and the lookup at this
      bar's open reports a bullish zone; otherwise Bearish on the mirror
      condition with a bearish zone. The entry is this bar's open. */
  function SignalAt(bars: seq<Bar>, c: SignalColumns, ob: ObColumns, i: nat): Option<Signal>
    requires Aligned(c, |bars|) && WellFormed(ob, |bars|) && 1 <= i < |bars|
  {
    var prevClose := bars[i - 1].close;
    var emaVal := c.ema[i - 1];
    var zone := ZoneAt(bars, ob, i);
    var high, low := c.highLevel[i - 1], c.lowLevel[i - 1];
    if prevClose > emaVal && high.Some? && prevClose > high.value && zone == Some(Bullish) then
      Some(Signal(Bullish, bars[i].timestamp, bars[i].open, high.value, emaVal, c.atr[i - 1]))
    else if prevClose < emaVal && low.Some? && prevClose < low.value && zone == Some(Bearish) then
      Some(Signal(Bearish, bars[i].timestamp, bars[i].open, low.value, emaVal, c.atr[i - 1]))
    else None
  }

  /** The signals of bars 1 .. m-1, in bar order. */
  function SignalsBefore(bars: seq<Bar>, c: SignalColumns, ob: ObColumns, m: nat): seq<Signal>
    requires Aligned(c, |bars|) && WellFormed(ob, |bars|) && m <= |bars|
  {
    if m <= 1 then []
    else
      var earlier := SignalsBefore(bars, c, ob, m - 1);
      match SignalAt(bars, c, ob, m - 1)
      case None => earlier
      case Some(s) => earlier + [s]
  }

  /** Every signal the strategy emits for a series. */
  function Signals(bars: seq<Bar>, p: Params): seq<Signal>
    requires ValidParams(p)
  {
    SignalsBefore(bars, Cols(bars, p), Obs(bars, p), |bars|)
  }

  /** `detect_signals`: computes EMA, ATR, the fractals, the order blocks
      and the rolling levels once, then walks the bars from the second on
      and appends at most one signal per bar. */
  method DetectSignals(bars: seq<Bar>, p: Params) returns (signals: seq<Signal>)
    requires ValidParams(p)
    ensures signals == Signals(bars, p)
  {
    var ema := Ema(bars, p.emaPeriod);
    var atr := Atr(bars, p.atrPeriod);
    var fractals := DetectFractals(bars, p.leftBars, p.rightBars);
    var orderBlocks := FindOrderBlocks(bars, fractals.fractalHigh, fractals.fractalLow,
                                       p.impulseBars, p.minBodyRatio, p.lookback);
    var fractalHighs := RollingMax(fractals.fractalHigh, p.lookback);
    var fractalLows := RollingMin(fractals.fractalLow, p.lookback);
    ghost var c := Cols(bars, p);
    assert c == SignalColumns(ema, atr, fractalHighs, fractalLows);
    signals := CollectSignals(bars, SignalColumns(ema, atr, fractalHighs, fractalLows), orderBlocks);
  }

  /** The signal loop of `detect_signals` over the computed columns and
      order blocks, with one zone lookup per bar. */
  method CollectSignals(bars: seq<Bar>, c: SignalColumns, ob: ObColumns) returns (signals: seq<Signal>)
    requires Aligned(c, |bars|) && WellFormed(ob, |bars|)
    ensures signals == SignalsBefore(bars, c, ob, |bars|)
  {
    signals := [];
    if |bars| == 0 {
      return;
    }
    var i := 1;
    while i < |bars|
      invariant 1 <= i <= |bars|
      invariant signals == SignalsBefore(bars, c, ob, i)
    {
      var prevClose := bars[i - 1].close;
      var currentOpen := bars[i].open;
      var emaVal := c.ema[i - 1];
      var obZone := CheckObProximity(i, ob, |bars|, currentOpen, TolerancePct);
      var high, low := c.highLevel[i - 1], c.lowLevel[i - 1];
      if prevClose > emaVal && high.Some? && prevClose > high.value && obZone == Some(Bullish) {
        signals := signals + [Signal(Bullish, bars[i].timestamp, currentOpen, high.value, emaVal, c.atr[i - 1])];
      } else if prevClose < emaVal && low.Some? && prevClose < low.value && obZone == Some(Bearish) {
        signals := signals + [Signal(Bearish, bars[i].timestamp, currentOpen, low.value, emaVal, c.atr[i - 1])];
      }
      i := i + 1;
    }
  }

  /** The gate of bar i over columns whose levels at the previous bar j are
      the rolling fractal levels: Bullish exactly when the close of j is
      above its EMA, breaks the recent top fractals and the lookup reports a
      bullish zone; Bearish exactly on the mirror condition with a bearish
      zone when the Bullish one fails; nothing otherwise. */
  lemma SignalGateMeaning(bars: seq<Bar>, p: Params, c: SignalColumns, ob: ObColumns, i: nat)
    requires ValidParams(p) && Aligned(c, |bars|) && WellFormed(ob, |bars|) && 1 <= i < |bars|
    requires c.highLevel[i - 1] == HighLevelAt(Highs(bars), p.leftBars, p.rightBars, p.lookback, i - 1)
    requires c.lowLevel[i - 1] == LowLevelAt(Lows(bars), p.leftBars, p.rightBars, p.lookback, i - 1)
    ensures var r, j, zone := SignalAt(bars, c, ob, i), i - 1, ZoneAt(bars, ob, i);
            var bull := bars[j].close > c.ema[j] && HighBroken(bars, p.leftBars, p.rightBars, p.lookback, j) &&
                        zone == Some(Bullish);
            var bear := bars[j].close < c.ema[j] && LowBroken(bars, p.leftBars, p.rightBars, p.lookback, j) &&
                        zone == Some(Bearish);
            && (r.Some? && r.value.kind == Bullish <==> bull)
            && (r.Some? && r.value.kind == Bearish <==> !bull && bear)
            && (r.None? <==> !bull && !bear)
  {
    var j := i - 1;
    HighBrokenIff(bars, p.leftBars, p.rightBars, p.lookback, j);
    LowBrokenIff(bars, p.leftBars, p.rightBars, p.lookback, j);
    var high, low := c.highLevel[j], c.lowLevel[j];
    var close, zone := bars[j].close, ZoneAt(bars, ob, i);
    var r := SignalAt(bars, c, ob, i);
    if close > c.ema[j] && high.Some? && close > high.value && zone == Some(Bullish) {
      assert r.Some? && r.value.kind == Bullish;
    } else if close < c.ema[j] && low.Some? && close < low.value && zone == Some(Bearish) {
      assert r.Some? && r.value.kind == Bearish;
    } else {
      assert r.None?;
    }
  }

  /** The fields of a signal, read off the columns of the previous bar. */
  lemma SignalShape(bars: seq<Bar>, c: SignalColumns, ob: ObColumns, i: nat)
    requires Aligned(c, |bars|) && WellFormed(ob, |bars|) && 1 <= i < |bars|
    ensures var r, j := SignalAt(bars, c, ob, i), i - 1;
            && (r.Some? ==> r.value.signalDate == bars[i].timestamp && r.value.entryPrice == bars[i].open &&
                            r.value.emaLevel == c.ema[j] && r.value.atr == c.atr[j])
            && (r.Some? && r.value.kind == Bullish ==> c.highLevel[j] == Some(r.value.fractalLevel))
            && (r.Some? && r.value.kind == Bearish ==> c.lowLevel[j] == Some(r.value.fractalLevel))
  {
  }

  /** A signal of bar i enters at the bar's own open on the bar's date,
      carries the EMA and ATR of the previous bar j, and its level is the
      high (low) of a fractal confirmed within the lookback window of j. */
  lemma SignalFields(bars: seq<Bar>, p: Params, c: SignalColumns, ob: ObColumns, i: nat)
    requires ValidParams(p) && Aligned(c, |bars|) && WellFormed(ob, |bars|) && 1 <= i < |bars|
    requires c.highLevel[i - 1] == HighLevelAt(Highs(bars), p.leftBars, p.rightBars, p.lookback, i - 1)
    requires c.lowLevel[i - 1] == LowLevelAt(Lows(bars), p.leftBars, p.rightBars, p.lookback, i - 1)
    ensures var r, j := SignalAt(bars, c, ob, i), i - 1;
            && (r.Some? ==> r.value.signalDate == bars[i].timestamp && r.value.entryPrice == bars[i].open &&
                            r.value.emaLevel == c.ema[j] && r.value.atr == c.atr[j])
            && (r.Some? && r.value.kind == Bullish ==>
                  exists f :: ConfirmedHigh(Highs(bars), p.leftBars, p.rightBars, WindowStart(j, p.lookback), j, f) &&
                              r.value.fractalLevel == bars[f].high)
            && (r.Some? && r.value.kind == Bearish ==>
                  exists f :: ConfirmedLow(Lows(bars), p.leftBars, p.rightBars, WindowStart(j, p.lookback), j, f) &&
                              r.value.fractalLevel == bars[f].low)
  {
    SignalShape(bars, c, ob, i);
    var r := SignalAt(bars, c, ob, i);
    if r.Some? && r.value.kind == Bullish {
      HighLevelIsFractal(bars, p.leftBars, p.rightBars, p.lookback, i - 1);
    } else if r.Some? {
      LowLevelIsFractal(bars, p.leftBars, p.rightBars, p.lookback, i - 1);
    }
  }

  /** The gate of bar i on the strategy's own columns and order blocks,
      whose levels are the rolling fractal levels of the series. */
  lemma SignalAtMeaning(bars: seq<Bar>, p: Params, i: nat)
    requires ValidParams(p) && 1 <= i < |bars|
    ensures var c, ob, j := Cols(bars, p), Obs(bars, p), i - 1;
            var r, zone := SignalAt(bars, c, ob, i), ZoneAt(bars, ob, i);
            var bull := bars[j].close > c.ema[j] && HighBroken(bars, p.leftBars, p.rightBars, p.lookback, j) &&
                        zone == Some(Bullish);
            var bear := bars[j].close < c.ema[j] && LowBroken(bars, p.leftBars, p.rightBars, p.lookback, j) &&
                        zone == Some(Bearish);
            && (r.Some? && r.value.kind == Bullish <==> bull)
            && (r.Some? && r.value.kind == Bearish <==> !bull && bear)
            && (r.None? <==> !bull && !bear)
  {
    LevelColumnsAt(bars, p.leftBars, p.rightBars, p.lookback, p.emaPeriod, p.atrPeriod, i - 1);
    SignalGateMeaning(bars, p, Cols(bars, p), Obs(bars, p), i);
  }

  /** The order block behind a signal: a Bullish (Bearish) signal at bar i
      has, among the last ten rows up to i, a bullish (bearish) order block
      whose widened zone holds the entry open, and no older row of those ten
      holds the open in its zone. */
  lemma SignalHasOrderBlock(bars: seq<Bar>, p: Params, i: nat)
    requires ValidParams(p) && 1 <= i < |bars|
    requires SignalAt(bars, Cols(bars, p), Obs(bars, p), i).Some?
    ensures var s, lo := SignalAt(bars, Cols(bars, p), Obs(bars, p), i).value, WindowStart(i, ProximityRows);
            var fh, fl := FractalHigh(Highs(bars), p.leftBars, p.rightBars), FractalLow(Lows(bars), p.leftBars, p.rightBars);
            exists k :: && lo <= k <= i
                        && ObNear(bars, fh, fl, p.impulseBars, p.minBodyRatio, p.lookback, k, bars[i].open, TolerancePct)
                        && (s.kind == Bullish <==> IsBullishOb(bars, fh, p.impulseBars, p.minBodyRatio, p.lookback, k))
                        && (forall k' :: lo <= k' < k ==>
                              !ObNear(bars, fh, fl, p.impulseBars, p.minBodyRatio, p.lookback, k', bars[i].open, TolerancePct))
  {
    var fh, fl := FractalHigh(Highs(bars), p.leftBars, p.rightBars), FractalLow(Lows(bars), p.leftBars, p.rightBars);
    ObProximityMeaning(bars, fh, fl, p.impulseBars, p.minBodyRatio, p.lookback, i, bars[i].open, TolerancePct);
  }

  /** SignalAt reads of bar i only its open, its date and the lookup result,
      and of the columns only the entries of bar i - 1. */
  lemma SignalAtCongruent(bars: seq<Bar>, other: seq<Bar>, c: SignalColumns, c': SignalColumns,
                          ob: ObColumns, ob': ObColumns, i: nat)
    requires Aligned(c, |bars|) && WellFormed(ob, |bars|) && 1 <= i < |bars|
    requires Aligned(c', |other|) && WellFormed(ob', |other|) && i < |other|
    requires bars[i - 1] == other[i - 1]
    requires bars[i].open == other[i].open && bars[i].timestamp == other[i].timestamp
    requires c.ema[i - 1] == c'.ema[i - 1] && c.atr[i - 1] == c'.atr[i - 1]
    requires c.highLevel[i - 1] == c'.highLevel[i - 1] && c.lowLevel[i - 1] == c'.lowLevel[i - 1]
    requires ZoneAt(bars, ob, i) == ZoneAt(other, ob', i)
    ensures SignalAt(bars, c, ob, i) == SignalAt(other, c', ob', i)
  {
  }

  /** Apart from the order-block lookup, a signal at bar i reads nothing of
      bar i but its open and its date, and nothing of any later bar: over
      any two order-block tables whose lookups agree at bar i, series that
      agree before bar i give the same signal. */
  lemma SignalAtNoLookAheadButZone(bars: seq<Bar>, other: seq<Bar>, p: Params, ob: ObColumns, ob': ObColumns, i: nat)
    requires ValidParams(p) && 1 <= i < |bars| && i < |other|
    requires WellFormed(ob, |bars|) && WellFormed(ob', |other|)
    requires forall t :: 0 <= t < i ==> bars[t] == other[t]
    requires bars[i].open == other[i].open && bars[i].timestamp == other[i].timestamp
    requires ZoneAt(bars, ob, i) == ZoneAt(other, ob', i)
    ensures SignalAt(bars, Cols(bars, p), ob, i) == SignalAt(other, Cols(other, p), ob', i)
  {
    ColumnsCausal(bars, other, p.leftBars, p.rightBars, p.lookback, p.emaPeriod, p.atrPeriod, i - 1);
    SignalAtCongruent(bars, other, Cols(bars, p), Cols(other, p), ob, ob', i);
  }

  /** The signals of bars before i are a prefix of the signals of bars
      before any later m: a later bar only appends. */
  lemma {:induction false} SignalsBeforePrefix(bars: seq<Bar>, c: SignalColumns, ob: ObColumns, i: nat, m: nat)
    requires Aligned(c, |bars|) && WellFormed(ob, |bars|) && i <= m <= |bars|
    ensures SignalsBefore(bars, c, ob, i) <= SignalsBefore(bars, c, ob, m)
    decreases m - i
  {
    if i < m {
      SignalsBeforePrefix(bars, c, ob, i, m - 1);
    }
  }

  /** Every bar that fires has its signal in the list, at the position
      given by the number of signals of the bars before it. */
  lemma {:induction false} SignalsBeforeComplete(bars: seq<Bar>, c: SignalColumns, ob: ObColumns, i: nat, m: nat)
    requires Aligned(c, |bars|) && WellFormed(ob, |bars|) && 1 <= i < m <= |bars| && SignalAt(bars, c, ob, i).Some?
    ensures SignalsBefore(bars, c, ob, i) + [SignalAt(bars, c, ob, i).value] <= SignalsBefore(bars, c, ob, m)
    ensures |SignalsBefore(bars, c, ob, i)| < |SignalsBefore(bars, c, ob, m)|
    ensures SignalsBefore(bars, c, ob, m)[|SignalsBefore(bars, c, ob, i)|] == SignalAt(bars, c, ob, i).value
    ensures SignalAt(bars, c, ob, i).value in SignalsBefore(bars, c, ob, m)
  {
    assert SignalsBefore(bars, c, ob, i + 1) == SignalsBefore(bars, c, ob, i) + [SignalAt(bars, c, ob, i).value];
    SignalsBeforePrefix(bars, c, ob, i + 1, m);
    var k := |SignalsBefore(bars, c, ob, i)|;
    assert SignalsBefore(bars, c, ob, m)[k] == SignalsBefore(bars, c, ob, i + 1)[k];
  }

  /** Every signal of bars 1 .. m-1 is the signal of one of those bars. */
  lemma {:induction false} SignalsBeforeFromBars(bars: seq<Bar>, c: SignalColumns, ob: ObColumns, m: nat)
    requires Aligned(c, |bars|) && WellFormed(ob, |bars|) && m <= |bars|
    ensures forall k :: 0 <= k < |SignalsBefore(bars, c, ob, m)| ==>
              exists i :: 1 <= i < m && SignalAt(bars, c, ob, i) == Some(SignalsBefore(bars, c, ob, m)[k])
  {
    if m > 1 {
      SignalsBeforeFromBars(bars, c, ob, m - 1);
      var earlier := SignalsBefore(bars, c, ob, m - 1);
      var s := SignalsBefore(bars, c, ob, m);
      assert s == earlier || s == earlier + [SignalAt(bars, c, ob, m - 1).value];
      forall k | 0 <= k < |s|
        ensures exists i :: 1 <= i < m && SignalAt(bars, c, ob, i) == Some(s[k])
      {
        if k < |earlier| {
          var i :| 1 <= i < m - 1 && SignalAt(bars, c, ob, i) == Some(earlier[k]);
          assert SignalAt(bars, c, ob, i) == Some(s[k]);
        } else {
          assert SignalAt(bars, c, ob, m - 1) == Some(s[k]);
        }
      }
      assert forall k :: 0 <= k < |s| ==> exists i :: 1 <= i < m && SignalAt(bars, c, ob, i) == Some(s[k]);
    } else {
      assert SignalsBefore(bars, c, ob, m) == [];
    }
  }

  /** Every signal of bars 1 .. m-1 is dated before bar m. */
  lemma SignalsBeforeDated(bars: seq<Bar>, c: SignalColumns, ob: ObColumns, m: nat)
    requires Aligned(c, |bars|) && WellFormed(ob, |bars|) && m < |bars| && StrictlyIncreasingDates(bars)
    ensures forall k :: 0 <= k < |SignalsBefore(bars, c, ob, m)| ==>
              SignalsBefore(bars, c, ob, m)[k].signalDate < bars[m].timestamp
  {
    SignalsBeforeFromBars(bars, c, ob, m);
    var s := SignalsBefore(bars, c, ob, m);
    forall k | 0 <= k < |s|
      ensures s[k].signalDate < bars[m].timestamp
    {
      var i :| 1 <= i < m && SignalAt(bars, c, ob, i) == Some(s[k]);
    }
  }

  /** On a series with increasing dates, the signals come out in strictly
      increasing date order, so no bar emits two. */
  lemma {:induction false} SignalsInDateOrder(bars: seq<Bar>, c: SignalColumns, ob: ObColumns, m: nat)
    requires Aligned(c, |bars|) && WellFormed(ob, |bars|) && m <= |bars| && StrictlyIncreasingDates(bars)
    ensures forall a, b :: 0 <= a < b < |SignalsBefore(bars, c, ob, m)| ==>
              SignalsBefore(bars, c, ob, m)[a].signalDate < SignalsBefore(bars, c, ob, m)[b].signalDate
  {
    if m > 1 {
      SignalsInDateOrder(bars, c, ob, m - 1);
      SignalsBeforeDated(bars, c, ob, m - 1);
      var earlier := SignalsBefore(bars, c, ob, m - 1);
      var s := SignalsBefore(bars, c, ob, m);
      assert s == earlier || s == earlier + [SignalAt(bars, c, ob, m - 1).value];
      forall a, b | 0 <= a < b < |s|
        ensures s[a].signalDate < s[b].signalDate
      {
        if b == |earlier| {
          assert s == earlier + [SignalAt(bars, c, ob, m - 1).value];
          assert s[a] == earlier[a] && s[b].signalDate == bars[m - 1].timestamp;
          assert earlier[a].signalDate < bars[m - 1].timestamp;
        } else {
          assert s[a] == earlier[a] && s[b] == earlier[b];
          assert earlier[a].signalDate < earlier[b].signalDate;
        }
      }
    }
  }

  /** `find_exit` of this strategy: 2.5R target. */
  method FindExit(bars: seq<Bar>, entryDate: int, entryPrice: real, stopPrice: real, kind: Direction)
    returns (outcome: real)
    ensures outcome == ExitOutcome(bars, entryDate, entryPrice, stopPrice, kind, TargetMultiple)
    ensures outcome == -1.0 || outcome == 2.5 || outcome == 0.0
  {
    outcome := Exits.FindExit(bars, entryDate, entryPrice, stopPrice, kind, TargetMultiple);
  }

  /** `execute_backtest` of this strategy, with its 2.5R exits. */
  method ExecuteBacktest(bars: seq<Bar>, signals: seq<Signal>, atrMultStop: real) returns (trades: seq<Trade>)
    ensures |trades| == |signals|
    ensures forall k :: 0 <= k < |signals| ==> trades[k] == TradeFor(bars, signals[k], atrMultStop, TargetMultiple)
  {
    trades := Backtest.ExecuteBacktest(bars, signals, atrMultStop, TargetMultiple);
  }

  /** Every signal carries the ATR column entry of some bar. */
  lemma SignalAtrFromColumn(bars: seq<Bar>, c: SignalColumns, ob: ObColumns, k: nat)
    requires Aligned(c, |bars|) && WellFormed(ob, |bars|) && k < |SignalsBefore(bars, c, ob, |bars|)|
    ensures exists j :: 0 <= j < |bars| && SignalsBefore(bars, c, ob, |bars|)[k].atr == c.atr[j]
  {
    SignalsBeforeFromBars(bars, c, ob, |bars|);
    var i :| 1 <= i < |bars| && SignalAt(bars, c, ob, i) == Some(SignalsBefore(bars, c, ob, |bars|)[k]);
    assert SignalsBefore(bars, c, ob, |bars|)[k].atr == c.atr[i - 1];
  }

  /** Every signal carries a non-negative ATR. */
  lemma SignalAtrNonNegative(bars: seq<Bar>, p: Params, k: nat)
    requires ValidParams(p) && k < |Signals(bars, p)|
    ensures Signals(bars, p)[k].atr >= 0.0
  {
    SignalAtrFromColumn(bars, Cols(bars, p), Obs(bars, p), k);
    var j :| 0 <= j < |bars| && Signals(bars, p)[k].atr == Cols(bars, p).atr[j];
    AtrColumnNonNegative(bars, p.leftBars, p.rightBars, p.lookback, p.emaPeriod, p.atrPeriod, j);
  }

  /** The trades of the strategy's own signals at the default stop: one per
      signal with the same direction, entry and date, a risk unit of exactly
      two ATRs with the stop on the losing side, and an outcome of -1, 2.5
      or 0 R. */
  lemma StrategyTrades(bars: seq<Bar>, p: Params, k: nat)
    requires ValidParams(p) && k < |Signals(bars, p)|
    ensures var s := Signals(bars, p)[k];
            var t := TradeFor(bars, s, DefaultAtrMultStop, TargetMultiple);
            && t.kind == s.kind && t.entry == s.entryPrice && t.entryDate == s.signalDate
            && t.r == 2.0 * s.atr && s.atr >= 0.0
            && (t.kind == Bullish ==> t.stop <= t.entry) && (t.kind == Bearish ==> t.stop >= t.entry)
            && (t.outcomeR == -1.0 || t.outcomeR == 2.5 || t.outcomeR == 0.0)
  {
    SignalAtrNonNegative(bars, p, k);
    TradeForProperties(bars, Signals(bars, p)[k], DefaultAtrMultStop, TargetMultiple);
  }

  /** The summary of a backtest of this strategy: no trades give all zeros;
      otherwise the direction counts are those of the signals and the mean
      outcome lies between -1 and 2.5 R. */
  lemma StrategySummary(bars: seq<Bar>, signals: seq<Signal>, trades: seq<Trade>, atrMultStop: real)
    requires |trades| == |signals|
    requires forall k :: 0 <= k < |signals| ==> trades[k] == TradeFor(bars, signals[k], atrMultStop, TargetMultiple)
    ensures var s := SummarizeResults(trades);
            && (|signals| == 0 ==> s == Summary(0, 0.0, 0.0, 0, 0))
            && s.numTrades == |signals|
            && s.bullishTrades == CountSignals(signals, Bullish)
            && s.bearishTrades == CountSignals(signals, Bearish)
            && (|signals| > 0 ==> -1.0 <= s.avgOutcomeR <= 2.5)
  {
    TradesKeepDirections(bars, signals, trades, atrMultStop, TargetMultiple, Bullish);
    TradesKeepDirections(bars, signals, trades, atrMultStop, TargetMultiple, Bearish);
    if |signals| > 0 {
      AverageOutcomeBounds(trades, TargetMultiple);
    }
  }

  // ---------------------------------------------------------------- look-ahead

  /** Two series that agree on bars 0..3 and differ only in bar 4. */
  const EarlyBars: seq<Bar> := [Bar(0, 1.0, 1.0, 0.5, 1.0), Bar(1, 1.0, 5.0, 0.5, 1.0),
                                Bar(2, 1.0, 2.0, 0.5, 1.0), Bar(3, 2.0, 2.0, 0.5, 1.0)]
  const SeriesBreaking: seq<Bar> := EarlyBars + [Bar(4, 1.0, 6.0, 0.5, 6.0)]
  const SeriesHolding: seq<Bar> := EarlyBars + [Bar(4, 1.0, 2.0, 0.5, 1.0)]

  /** One-bar fractal windows and a one-bar impulse. */
  const LookAheadParams: Params := Params(1, 1, 20, 50, 14, 1, 0.3)

  /** On a five-bar series that starts with EarlyBars, the only top
      fractal is bar 1 (reported at bar 2), bar 3 is a down candle against
      that level, and the lookup at the open of bar 3 reports a bullish zone
      exactly when the close of bar 4 is above the fractal's high. */
  lemma EarlyZone(s: seq<Bar>)
    requires |s| == 5 && s[..4] == EarlyBars
    ensures ZoneAt(s, Obs(s, LookAheadParams), 3) == if s[4].close > 5.0 then Some(Bullish) else None
  {
    EarlyOrderBlocks(s);
    assert s[3] == EarlyBars[3];
    EarlyLookup(Obs(s, LookAheadParams), s[4].close > 5.0);
  }

  /** The lookup at price 2 over rows 0..3 of a five-row table whose only
      possible order block is a bullish row 3 with zone [0.5, 2]. */
  lemma EarlyLookup(ob: ObColumns, marked: bool)
    requires WellFormed(ob, 5)
    requires forall k :: 0 <= k < 3 ==> !ob.bullishOb[k] && !ob.bearishOb[k]
    requires !ob.bearishOb[3] && ob.bullishOb[3] == marked
    requires ob.obLow[3] == (if marked then Some(0.5) else None)
    requires ob.obHigh[3] == (if marked then Some(2.0) else None)
    ensures FirstZone(ob, 5, 0, 4, 2.0, TolerancePct) == if marked then Some(Bullish) else None
  {
    assert InZone(0.5, 2.0, 2.0, TolerancePct);
    assert FirstZone(ob, 5, 3, 4, 2.0, TolerancePct) == if marked then Some(Bullish) else None;
  }

  /** On such a series no bar before bar 3 is an order block, and bar 3 is
      a bullish one exactly when the close of bar 4 is above 5. */
  lemma EarlyOrderBlocks(s: seq<Bar>)
    requires |s| == 5 && s[..4] == EarlyBars
    ensures var ob := Obs(s, LookAheadParams);
            && (forall k :: 0 <= k < 3 ==> !ob.bullishOb[k] && !ob.bearishOb[k])
            && !ob.bearishOb[3] && (ob.bullishOb[3] <==> s[4].close > 5.0)
            && ob.obLow[3] == (if s[4].close > 5.0 then Some(0.5) else None)
            && ob.obHigh[3] == (if s[4].close > 5.0 then Some(2.0) else None)
  {
    assert forall k :: 0 <= k < 4 ==> s[k] == EarlyBars[k];
    EarlyFractalLevel(s);
    var ob := Obs(s, LookAheadParams);
    assert BodyRatio(s[3]) == Some(1.0 / 1.5);
    assert ob.bullishOb[3] <==> BreaksAbove(s, 3, 1, Some(5.0));
  }

  /** On such a series the rolling `fractal_high` level of bar 3 is the
      high of bar 1. */
  lemma EarlyFractalLevel(s: seq<Bar>)
    requires |s| == 5 && s[..4] == EarlyBars
    ensures WindowMax(FractalHigh(Highs(s), 1, 1), 0, 4) == Some(5.0)
  {
    assert forall k :: 0 <= k < 4 ==> s[k] == EarlyBars[k];
    var h := Highs(s);
    assert h[0] == 1.0 && h[1] == 5.0 && h[2] == 2.0 && h[3] == 2.0;
    assert IsHighFractal(h, 1, 1, 1);
    assert !IsHighFractal(h, 1, 1, 3) by { assert !(h[2] < h[3]); }
    FractalHighAt(h, 1, 1, 0);
    FractalHighAt(h, 1, 1, 1);
    FractalHighAt(h, 1, 1, 2);
    FractalHighAt(h, 1, 1, 3);
  }

  /** The order-block lookup at bar 3 depends on bar 4: bar 3 is a down
      candle whose order block is confirmed only by the close of bar 4
      above the level of the top fractal at bar 1, and the lookup does not
      wait for that confirmation. On the two series, identical up to bar 3,
      the lookup at the open of bar 3 reports a bullish zone on one and
      nothing on the other. */
  lemma ZoneLookupSeesNextBar()
    ensures SeriesBreaking[..4] == SeriesHolding[..4]
    ensures ZoneAt(SeriesBreaking, Obs(SeriesBreaking, LookAheadParams), 3) == Some(Bullish)
    ensures ZoneAt(SeriesHolding, Obs(SeriesHolding, LookAheadParams), 3) == None
  {
    EarlyZone(SeriesBreaking);
    EarlyZone(SeriesHolding);
  }
}
