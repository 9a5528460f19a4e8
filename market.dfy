/** The data model shared by both backtest strategies: daily bars, trade
    directions, signals, trades and the summary of a backtest. */
module Market {

  /** An absent value where the source has a NaN (pandas' missing value). */
  datatype Option<T> = None | Some(value: T)

  /** One daily OHLC bar. `timestamp` is the bar's date as an ordinal; volume
      is not read by the core. */
  datatype Bar = Bar(timestamp: int, open: real, high: real, low: real, close: real)

  /** The two signal types, 'Bullish' and 'Bearish'. */
  datatype Direction = Bullish | Bearish

  /** A trade signal: its type, the date of the entry bar (`signal_date`),
      the entry price (the entry bar's open), and the fractal level, EMA and
      ATR read at the bar before. */
  datatype Signal = Signal(kind: Direction, signalDate: int, entryPrice: real,
                           fractalLevel: real, emaLevel: real, atr: real)

  /** A simulated trade; `r` is the risk unit |entry - stop| and `outcomeR`
      the result in multiples of it. */
  datatype Trade = Trade(kind: Direction, entryDate: int, entry: real, stop: real,
                         r: real, outcomeR: real)

  /** The statistics `summarize_results` reports. */
  datatype Summary = Summary(numTrades: nat, avgOutcomeR: real, winRatePosR: real,
                             bullishTrades: nat, bearishTrades: nat)

  function Abs(x: real): real {
    if x < 0.0 then -x else x
  }

  function Max(a: real, b: real): real {
    if a < b then b else a
  }

  function Min(a: real, b: real): real {
    if b < a then b else a
  }

  /** The product of two non-negative reals is non-negative. */
  lemma ProductNonNegative(a: real, b: real)
    requires a >= 0.0 && b >= 0.0
    ensures a * b >= 0.0
  {
  }

  /** The `high` column of a bar sequence. */
  function Highs(bars: seq<Bar>): seq<real> {
    seq(|bars|, k requires 0 <= k < |bars| => bars[k].high)
  }

  /** The `low` column of a bar sequence. */
  function Lows(bars: seq<Bar>): seq<real> {
    seq(|bars|, k requires 0 <= k < |bars| => bars[k].low)
  }

  /** The `close` column of a bar sequence. */
  function Closes(bars: seq<Bar>): seq<real> {
    seq(|bars|, k requires 0 <= k < |bars| => bars[k].close)
  }

  /** Bar dates are strictly increasing: the series has no duplicate dates. */
  predicate StrictlyIncreasingDates(bars: seq<Bar>) {
    forall a, b :: 0 <= a < b < |bars| ==> bars[a].timestamp < bars[b].timestamp
  }
}
