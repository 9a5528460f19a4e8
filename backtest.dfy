/** The trade simulation (`execute_backtest`) and the summary statistics
    (`summarize_results`), shared by both strategies. */
module Backtest {
  import opened Market
  import opened Exits

  /** The stop of a signal: `atrMultStop` ATRs below a long entry, above a
      short one. */
  function StopPrice(s: Signal, atrMultStop: real): (stop: real)
    ensures Abs(s.entryPrice - stop) == Abs(atrMultStop * s.atr)
    ensures atrMultStop * s.atr >= 0.0 ==>
              (s.kind == Bullish ==> stop <= s.entryPrice) && (s.kind == Bearish ==> stop >= s.entryPrice)
  {
    match s.kind
    case Bullish => s.entryPrice - atrMultStop * s.atr
    case Bearish => s.entryPrice + atrMultStop * s.atr
  }

  /** The trade a signal becomes, with its stop, risk unit and the outcome
      the exit search finds. */
  function TradeFor(bars: seq<Bar>, s: Signal, atrMultStop: real, targetMultiple: real): Trade {
    var stop := StopPrice(s, atrMultStop);
    Trade(s.kind, s.signalDate, s.entryPrice, stop, Abs(s.entryPrice - stop),
          ExitOutcome(bars, s.signalDate, s.entryPrice, stop, s.kind, targetMultiple))
  }

  /** A trade keeps its signal's direction, date and entry; its risk unit is
      the distance to a stop on the losing side of the entry, and equals
      `atrMultStop` ATRs when both are non-negative; its outcome is -1, the
      target multiple or 0. */
  lemma TradeForProperties(bars: seq<Bar>, s: Signal, atrMultStop: real, targetMultiple: real)
    ensures var t := TradeFor(bars, s, atrMultStop, targetMultiple);
            && t.kind == s.kind && t.entryDate == s.signalDate && t.entry == s.entryPrice
            && t.r == Abs(t.entry - t.stop)
            && (atrMultStop >= 0.0 && s.atr >= 0.0 ==>
                  t.r == atrMultStop * s.atr &&
                  (s.kind == Bullish ==> t.stop <= t.entry) && (s.kind == Bearish ==> t.stop >= t.entry))
            && (t.outcomeR == LossR || t.outcomeR == targetMultiple || t.outcomeR == OpenR)
  {
    var t := TradeFor(bars, s, atrMultStop, targetMultiple);
    var d := atrMultStop * s.atr;
    assert t.stop == if s.kind == Bullish then s.entryPrice - d else s.entryPrice + d;
    if atrMultStop >= 0.0 && s.atr >= 0.0 {
      ProductNonNegative(atrMultStop, s.atr);
    }
  }

  /** `execute_backtest`: one trade per signal, appended in signal order.
      `risk_per_trade` is never read by the source and is not a parameter. */
  method ExecuteBacktest(bars: seq<Bar>, signals: seq<Signal>, atrMultStop: real, targetMultiple: real)
    returns (trades: seq<Trade>)
    ensures |trades| == |signals|
    ensures forall k :: 0 <= k < |signals| ==> trades[k] == TradeFor(bars, signals[k], atrMultStop, targetMultiple)
  {
    trades := [];
    var k := 0;
    while k < |signals|
      invariant k <= |signals| && |trades| == k
      invariant forall t :: 0 <= t < k ==> trades[t] == TradeFor(bars, signals[t], atrMultStop, targetMultiple)
    {
      var trade := SimulateTrade(bars, signals[k], atrMultStop, targetMultiple);
      trades := trades + [trade];
      k := k + 1;
    }
  }

  /** The body of the `execute_backtest` loop for one signal: the stop
      `atrMultStop` ATRs away on the losing side, the risk unit, and the
      outcome of the exit search. */
  method SimulateTrade(bars: seq<Bar>, signal: Signal, atrMultStop: real, targetMultiple: real)
    returns (trade: Trade)
    ensures trade == TradeFor(bars, signal, atrMultStop, targetMultiple)
  {
    var entryPrice, atrVal := signal.entryPrice, signal.atr;
    var stopPrice;
    if signal.kind == Bullish {
      stopPrice := entryPrice - atrMultStop * atrVal;
    } else {
      stopPrice := entryPrice + atrMultStop * atrVal;
    }
    assert stopPrice == StopPrice(signal, atrMultStop);
    var r := Abs(entryPrice - stopPrice);
    var outcomeR := FindExit(bars, signal.signalDate, entryPrice, stopPrice, signal.kind, targetMultiple);
    trade := Trade(signal.kind, signal.signalDate, entryPrice, stopPrice, r, outcomeR);
  }

  /** Number of trades of one direction. */
  function CountKind(trades: seq<Trade>, kind: Direction): (c: nat)
    ensures c <= |trades|
  {
    if |trades| == 0 then 0
    else CountKind(trades[..|trades| - 1], kind) + (if trades[|trades| - 1].kind == kind then 1 else 0)
  }

  /** Number of trades with a positive outcome. */
  function CountWins(trades: seq<Trade>): (c: nat)
    ensures c <= |trades|
  {
    if |trades| == 0 then 0
    else CountWins(trades[..|trades| - 1]) + (if trades[|trades| - 1].outcomeR > 0.0 then 1 else 0)
  }

  /** Sum of the outcomes. */
  function SumOutcomes(trades: seq<Trade>): real {
    if |trades| == 0 then 0.0
    else SumOutcomes(trades[..|trades| - 1]) + trades[|trades| - 1].outcomeR
  }

  /** Every trade is bullish or bearish, so the two counts add up to the
      number of trades. */
  lemma {:induction false} KindCountsPartition(trades: seq<Trade>)
    ensures CountKind(trades, Bullish) + CountKind(trades, Bearish) == |trades|
  {
    if |trades| > 0 {
      KindCountsPartition(trades[..|trades| - 1]);
    }
  }

  /** The win count is the number of trades exactly when every trade won. */
  lemma {:induction false} AllWinsIff(trades: seq<Trade>)
    ensures CountWins(trades) == |trades| <==> forall k :: 0 <= k < |trades| ==> trades[k].outcomeR > 0.0
  {
    if |trades| > 0 {
      var front := trades[..|trades| - 1];
      AllWinsIff(front);
      assert forall k :: 0 <= k < |front| ==> front[k] == trades[k];
    }
  }

  /** The win count is zero exactly when no trade won. */
  lemma {:induction false} NoWinsIff(trades: seq<Trade>)
    ensures CountWins(trades) == 0 <==> forall k :: 0 <= k < |trades| ==> trades[k].outcomeR <= 0.0
  {
    if |trades| > 0 {
      var front := trades[..|trades| - 1];
      NoWinsIff(front);
      assert forall k :: 0 <= k < |front| ==> front[k] == trades[k];
    }
  }

  /** Outcomes between `lo` and `hi` sum to between |trades|*lo and
      |trades|*hi. */
  lemma {:induction false} SumOutcomesBounds(trades: seq<Trade>, lo: real, hi: real)
    requires forall k :: 0 <= k < |trades| ==> lo <= trades[k].outcomeR <= hi
    ensures |trades| as real * lo <= SumOutcomes(trades) <= |trades| as real * hi
  {
    if |trades| > 0 {
      var front := trades[..|trades| - 1];
      assert forall k :: 0 <= k < |front| ==> front[k] == trades[k];
      SumOutcomesBounds(front, lo, hi);
      var m, last := |front| as real, trades[|trades| - 1].outcomeR;
      assert SumOutcomes(trades) == SumOutcomes(front) + last;
      assert |trades| as real == m + 1.0;
      ScaleStep(m, lo);
      ScaleStep(m, hi);
    }
  }

  /** One more item adds one more multiple. */
  lemma ScaleStep(m: real, x: real)
    ensures (m + 1.0) * x == m * x + x
  {
  }

  /** `summarize_results`: all zeros for no trades; otherwise the count, the
      mean outcome, the share of positive outcomes and the count of each
      direction. `round(..., 3)` is not applied. */
  function SummarizeResults(trades: seq<Trade>): (s: Summary)
    ensures |trades| == 0 ==> s == Summary(0, 0.0, 0.0, 0, 0)
    ensures s.numTrades == |trades|
    ensures |trades| > 0 ==> s.bullishTrades == CountKind(trades, Bullish) && s.bearishTrades == CountKind(trades, Bearish)
    ensures s.bullishTrades + s.bearishTrades == s.numTrades
  {
    KindCountsPartition(trades);
    if |trades| == 0 then Summary(0, 0.0, 0.0, 0, 0)
    else
      var n := |trades| as real;
      Summary(|trades|, SumOutcomes(trades) / n, CountWins(trades) as real / n,
              CountKind(trades, Bullish), CountKind(trades, Bearish))
  }

  /** For a non-empty backtest, the mean outcome times the number of trades
      is the sum of the outcomes. */
  lemma SummaryMean(trades: seq<Trade>)
    requires |trades| > 0
    ensures SummarizeResults(trades).avgOutcomeR * |trades| as real == SumOutcomes(trades)
  {
    QuotientTimes(SummarizeResults(trades).avgOutcomeR, SumOutcomes(trades), |trades| as real);
  }

  /** For a non-empty backtest, the win rate is the share of trades with a
      positive outcome: between 0 and 1, 1 exactly when all won and 0
      exactly when none did. */
  lemma SummaryWinRate(trades: seq<Trade>)
    requires |trades| > 0
    ensures SummarizeResults(trades).winRatePosR * |trades| as real == CountWins(trades) as real
    ensures 0.0 <= SummarizeResults(trades).winRatePosR <= 1.0
    ensures SummarizeResults(trades).winRatePosR == 1.0 <==> CountWins(trades) == |trades|
    ensures SummarizeResults(trades).winRatePosR == 0.0 <==> CountWins(trades) == 0
  {
    ShareFacts(SummarizeResults(trades).winRatePosR, CountWins(trades) as real, |trades| as real);
  }

  /** A share of x items out of n, 0 <= x <= n, lies between 0 and 1 and
      times n gives x back. */
  lemma ShareFacts(q: real, x: real, n: real)
    requires n > 0.0 && 0.0 <= x <= n && q == x / n
    ensures q * n == x && 0.0 <= q <= 1.0
    ensures q == 1.0 <==> x == n
    ensures q == 0.0 <==> x == 0.0
  {
    QuotientBounds(x, n, 0.0, 1.0);
  }

  /** A quotient by a positive n times n is the dividend. */
  lemma QuotientTimes(q: real, x: real, n: real)
    requires n > 0.0 && q == x / n
    ensures q * n == x
  {
  }

  /** The win rate is 1 exactly when every trade won and 0 exactly when none
      did. */
  lemma WinRateExtremes(trades: seq<Trade>)
    requires |trades| > 0
    ensures SummarizeResults(trades).winRatePosR == 1.0 <==> forall k :: 0 <= k < |trades| ==> trades[k].outcomeR > 0.0
    ensures SummarizeResults(trades).winRatePosR == 0.0 <==> forall k :: 0 <= k < |trades| ==> trades[k].outcomeR <= 0.0
  {
    AllWinsIff(trades);
    NoWinsIff(trades);
    SummaryWinRate(trades);
  }

  /** When every outcome is -1, the target multiple or 0, the mean outcome
      lies between -1 and the target multiple. */
  lemma AverageOutcomeBounds(trades: seq<Trade>, targetMultiple: real)
    requires |trades| > 0 && targetMultiple >= 0.0
    requires forall k :: 0 <= k < |trades| ==>
               trades[k].outcomeR == LossR || trades[k].outcomeR == targetMultiple || trades[k].outcomeR == OpenR
    ensures LossR <= SummarizeResults(trades).avgOutcomeR <= targetMultiple
  {
    SumOutcomesBounds(trades, LossR, targetMultiple);
    QuotientBounds(SumOutcomes(trades), |trades| as real, LossR, targetMultiple);
  }

  /** n*lo <= x <= n*hi with n > 0 puts x / n between lo and hi. */
  lemma QuotientBounds(x: real, n: real, lo: real, hi: real)
    requires n > 0.0 && n * lo <= x <= n * hi
    ensures lo <= x / n <= hi
  {
    var q := x / n;
    assert x == q * n;
  }

  /** A backtest has one trade per signal in each direction too: the
      direction counts of the trades are those of the signals. */
  lemma {:induction false} TradesKeepDirections(bars: seq<Bar>, signals: seq<Signal>, trades: seq<Trade>,
                                               atrMultStop: real, targetMultiple: real, kind: Direction)
    requires |trades| == |signals|
    requires forall k :: 0 <= k < |signals| ==> trades[k] == TradeFor(bars, signals[k], atrMultStop, targetMultiple)
    ensures CountKind(trades, kind) == CountSignals(signals, kind)
  {
    if |trades| > 0 {
      var m := |trades| - 1;
      assert forall k :: 0 <= k < m ==> trades[..m][k] == TradeFor(bars, signals[..m][k], atrMultStop, targetMultiple);
      TradesKeepDirections(bars, signals[..m], trades[..m], atrMultStop, targetMultiple, kind);
    }
  }

  /** Number of signals of one direction. Signals and trades are different
      records, so this is the signal-side counterpart of CountKind;
      TradesKeepDirections shows the two counts agree. */
  function CountSignals(signals: seq<Signal>, kind: Direction): (c: nat)
    ensures c <= |signals|
  {
    if |signals| == 0 then 0
    else CountSignals(signals[..|signals| - 1], kind) + (if signals[|signals| - 1].kind == kind then 1 else 0)
  }
}
