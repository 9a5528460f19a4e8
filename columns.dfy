/** The per-bar columns both signal detectors read: the EMA and ATR columns
    `detect_signals` adds to the frame, and the rolling fractal levels. */
module Columns {
  import opened Market
  import opened Indicators
  import opened Fractals

  /** The indicator and level columns of a series. */
  datatype SignalColumns = SignalColumns(ema: seq<real>, atr: seq<real>,
                                         highLevel: seq<Option<real>>, lowLevel: seq<Option<real>>)

  /** Every column has one entry per bar. */
  predicate Aligned(c: SignalColumns, n: nat) {
    |c.ema| == n && |c.atr| == n && |c.highLevel| == n && |c.lowLevel| == n
  }

  /** The columns of a series: `ewm(span=emaPeriod)` of the closes, the ATR,
      and the rolling max / min over `lookback` bars of the shifted fractal
      highs / lows. */
  function ColumnsOf(bars: seq<Bar>, leftBars: nat, rightBars: nat, lookback: nat,
                     emaPeriod: nat, atrPeriod: nat): (c: SignalColumns)
    requires lookback >= 1 && emaPeriod >= 1 && atrPeriod >= 1
    ensures Aligned(c, |bars|)
  {
    SignalColumns(Ema(bars, emaPeriod), Atr(bars, atrPeriod),
                  RollingMax(FractalHigh(Highs(bars), leftBars, rightBars), lookback),
                  RollingMin(FractalLow(Lows(bars), leftBars, rightBars), lookback))
  }

  /** Entry k of the level columns: the rolling fractal levels at bar k. */
  lemma LevelColumnsAt(bars: seq<Bar>, leftBars: nat, rightBars: nat, lookback: nat,
                       emaPeriod: nat, atrPeriod: nat, k: nat)
    requires lookback >= 1 && emaPeriod >= 1 && atrPeriod >= 1 && k < |bars|
    ensures var c := ColumnsOf(bars, leftBars, rightBars, lookback, emaPeriod, atrPeriod);
            && c.highLevel[k] == HighLevelAt(Highs(bars), leftBars, rightBars, lookback, k)
            && c.lowLevel[k] == LowLevelAt(Lows(bars), leftBars, rightBars, lookback, k)
  {
    RollingHighEntry(Highs(bars), leftBars, rightBars, lookback, k);
    RollingLowEntry(Lows(bars), leftBars, rightBars, lookback, k);
  }

  /** The ATR column is never negative. */
  lemma AtrColumnNonNegative(bars: seq<Bar>, leftBars: nat, rightBars: nat, lookback: nat,
                             emaPeriod: nat, atrPeriod: nat, k: nat)
    requires lookback >= 1 && emaPeriod >= 1 && atrPeriod >= 1 && k < |bars|
    ensures ColumnsOf(bars, leftBars, rightBars, lookback, emaPeriod, atrPeriod).atr[k] >= 0.0
  {
    AtrNonNegative(bars, atrPeriod, k);
  }

  /** Entry k of every column depends only on bars 0..k. */
  lemma ColumnsCausal(bars: seq<Bar>, other: seq<Bar>, leftBars: nat, rightBars: nat, lookback: nat,
                      emaPeriod: nat, atrPeriod: nat, k: nat)
    requires lookback >= 1 && emaPeriod >= 1 && atrPeriod >= 1 && k < |bars| && k < |other|
    requires forall t :: 0 <= t <= k ==> bars[t] == other[t]
    ensures var c, c' := ColumnsOf(bars, leftBars, rightBars, lookback, emaPeriod, atrPeriod),
                         ColumnsOf(other, leftBars, rightBars, lookback, emaPeriod, atrPeriod);
            c.ema[k] == c'.ema[k] && c.atr[k] == c'.atr[k] &&
            c.highLevel[k] == c'.highLevel[k] && c.lowLevel[k] == c'.lowLevel[k]
  {
    IndicatorsCausal(bars, other, emaPeriod, atrPeriod, k);
    HighLevelCausal(Highs(bars), Highs(other), leftBars, rightBars, lookback, k);
    LowLevelCausal(Lows(bars), Lows(other), leftBars, rightBars, lookback, k);
    LevelColumnsAt(bars, leftBars, rightBars, lookback, emaPeriod, atrPeriod, k);
    LevelColumnsAt(other, leftBars, rightBars, lookback, emaPeriod, atrPeriod, k);
  }

  /** The close of bar j is above the high of some top fractal confirmed
      within its lookback window, and above every such high. */
  ghost predicate HighBroken(bars: seq<Bar>, leftBars: nat, rightBars: nat, lookback: nat, j: nat)
    requires j < |bars|
  {
    && (exists f :: ConfirmedHigh(Highs(bars), leftBars, rightBars, WindowStart(j, lookback), j, f))
    && (forall f :: ConfirmedHigh(Highs(bars), leftBars, rightBars, WindowStart(j, lookback), j, f) ==>
                      bars[j].close > Highs(bars)[f])
  }

  /** The close of bar j is below the low of some bottom fractal confirmed
      within its lookback window, and below every such low. */
  ghost predicate LowBroken(bars: seq<Bar>, leftBars: nat, rightBars: nat, lookback: nat, j: nat)
    requires j < |bars|
  {
    && (exists f :: ConfirmedLow(Lows(bars), leftBars, rightBars, WindowStart(j, lookback), j, f))
    && (forall f :: ConfirmedLow(Lows(bars), leftBars, rightBars, WindowStart(j, lookback), j, f) ==>
                      bars[j].close < Lows(bars)[f])
  }

  /** Breaking the rolling fractal-high level is breaking every recent top
      fractal, when there is one; the level is then the high of one of
      them. */
  lemma HighBrokenIff(bars: seq<Bar>, leftBars: nat, rightBars: nat, lookback: nat, j: nat)
    requires lookback >= 1 && j < |bars|
    ensures var level := HighLevelAt(Highs(bars), leftBars, rightBars, lookback, j);
            && (HighBroken(bars, leftBars, rightBars, lookback, j) <==> level.Some? && bars[j].close > level.value)
            && (level.Some? ==> exists f :: ConfirmedHigh(Highs(bars), leftBars, rightBars, WindowStart(j, lookback), j, f) &&
                                            level.value == bars[f].high)
  {
    RollingHighLevel(Highs(bars), leftBars, rightBars, lookback, j);
  }

  /** A present rolling fractal-high level is the high of a top fractal
      confirmed within the lookback window. */
  lemma HighLevelIsFractal(bars: seq<Bar>, leftBars: nat, rightBars: nat, lookback: nat, j: nat)
    requires lookback >= 1 && j < |bars|
    ensures var level := HighLevelAt(Highs(bars), leftBars, rightBars, lookback, j);
            level.Some? ==> exists f :: ConfirmedHigh(Highs(bars), leftBars, rightBars, WindowStart(j, lookback), j, f) &&
                                        level.value == bars[f].high
  {
    RollingHighLevel(Highs(bars), leftBars, rightBars, lookback, j);
  }

  /** A present rolling fractal-low level is the low of a bottom fractal
      confirmed within the lookback window. */
  lemma LowLevelIsFractal(bars: seq<Bar>, leftBars: nat, rightBars: nat, lookback: nat, j: nat)
    requires lookback >= 1 && j < |bars|
    ensures var level := LowLevelAt(Lows(bars), leftBars, rightBars, lookback, j);
            level.Some? ==> exists f :: ConfirmedLow(Lows(bars), leftBars, rightBars, WindowStart(j, lookback), j, f) &&
                                        level.value == bars[f].low
  {
    RollingLowLevel(Lows(bars), leftBars, rightBars, lookback, j);
  }

  /** The mirror of HighBrokenIff for the rolling fractal-low level. */
  lemma LowBrokenIff(bars: seq<Bar>, leftBars: nat, rightBars: nat, lookback: nat, j: nat)
    requires lookback >= 1 && j < |bars|
    ensures var level := LowLevelAt(Lows(bars), leftBars, rightBars, lookback, j);
            && (LowBroken(bars, leftBars, rightBars, lookback, j) <==> level.Some? && bars[j].close < level.value)
            && (level.Some? ==> exists f :: ConfirmedLow(Lows(bars), leftBars, rightBars, WindowStart(j, lookback), j, f) &&
                                           level.value == bars[f].low)
  {
    RollingLowLevel(Lows(bars), leftBars, rightBars, lookback, j);
  }
}
