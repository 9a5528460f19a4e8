# Fractal backtest strategies in Dafny

This project models the signal and backtest engine of two daily-bar
trading strategies, and proves properties of that model.

- **Fractal + order-block strategy** (`fractal_ob_strategy.py`):
  - it detects Bill Williams fractals;
  - it marks order blocks, meaning the last opposite-colour candle before an impulse that breaks the rolling fractal level;
  - it emits a Bullish (Bearish) signal on a bar when:
    - the previous close is above (below) its EMA;
    - that close breaks the rolling fractal-high (-low) level;
    - the bar's open lies in the widened zone of a recent bullish (bearish) order block.
  - Trades use a stop of `atr_mult_stop` ATRs and a 2.5R target.
- **Refined fractal strategy** (`backups/ninth-phase/fractal_refined_strategy.py`):
  - the same breakout rule without the order-block filter;
  - a 2R target.

Both files share `calculate_atr`, `detect_fractals`, `execute_backtest`,
`summarize_results` and `find_exit`; these differ only in the target
multiple. The model defines each of them once, in a module parameterised
by the target. The two strategy modules fix the constants.

## Modules

| file | module | contents |
|---|---|---|
| `market.dfy` | `Market` | bars, signals, trades, summaries; `Option` for pandas' NaN |
| `indicators.dfy` | `Indicators` | true range, `ewm(adjust=False)` as a real recurrence, EMA, ATR |
| `fractals.dfy` | `Fractals` | `detect_fractals` (array loop), the shifted fractal columns, rolling max/min |
| `columns.dfy` | `Columns` | the EMA/ATR/level columns the signal loops read |
| `order_blocks.dfy` | `OrderBlocks` | `find_order_blocks` (array loop), `check_ob_proximity` (scan loop) |
| `exits.dfy` | `Exits` | `find_exit` (scan loop) |
| `backtest.dfy` | `Backtest` | `execute_backtest` (loop), `summarize_results` |
| `fractal_refined_strategy.dfy` | `FractalRefinedStrategy` | `detect_signals` of the refined strategy, strategy-level lemmas |
| `fractal_ob_strategy.dfy` | `FractalObStrategy` | `detect_signals` of the order-block strategy, strategy-level lemmas |

Each loop of the source is modelled as a Dafny `method` with a `while` loop and invariants. The method is proved equal to a specification function, such as `ObTable`, `FirstZone`, `ExitFrom`, `SignalsBefore` or `FractalHigh`. Lemmas then give each function its meaning:
- a strict local extreme;
- "some close among the next bars breaks the level";
- "the first bar touching stop or target";
- "above every recent confirmed fractal".

## Model

| member | source | states |
|---|---|---|
| Indicators.TrueRange | fractal_ob_strategy.py:138-144 | the true range is at least the bar's own range and at least each gap to the previous close, and equals one of them; on the first bar it is the bar's range |
| Indicators.EmaAlpha | fractal_ob_strategy.py:11 | the smoothing factor of `ewm(span=period)` lies in (0, 1] |
| Indicators.AtrAlpha | fractal_ob_strategy.py:146 | the smoothing factor of `ewm(alpha=1/period)` lies in (0, 1] |
| Indicators.EwmAtLeast | fractal_ob_strategy.py:146 | a smoothed value is never below a lower bound of the inputs so far |
| Indicators.EwmAtMost | fractal_ob_strategy.py:146 | a smoothed value is never above an upper bound of the inputs so far |
| Indicators.EwmAtCausal | fractal_ob_strategy.py:146 | entry k of a smoothed column depends only on inputs 0..k |
| Indicators.EwmAt | fractal_ob_strategy.py:146 | definition of entry k of `ewm(adjust=False).mean()`; meaning stated by EwmAtLeast, EwmAtMost and EwmAtCausal |
| Indicators.TrueRanges | fractal_ob_strategy.py:133-144 | the true-range column has one entry per bar and none is negative; each entry is TrueRange |
| Indicators.Ema | fractal_ob_strategy.py:11 | the EMA column has one entry per bar; meaning stated by EmaWithinCloses and IndicatorsCausal |
| Indicators.Atr | fractal_ob_strategy.py:133-146 | the ATR column has one entry per bar; meaning stated by AtrNonNegative and IndicatorsCausal |
| Indicators.AtrNonNegative | fractal_ob_strategy.py:133-146 | the ATR is never negative |
| Indicators.EmaWithinCloses | fractal_ob_strategy.py:11 | the EMA at bar k lies between the lowest and highest close up to k |
| Indicators.IndicatorsCausal | fractal_ob_strategy.py:11-12 | EMA and ATR at bar k depend only on bars 0..k |
| Fractals.MaxOf | fractal_ob_strategy.py:159-161 | Python's `max` of a non-empty slice: an element that bounds every element |
| Fractals.MinOf | fractal_ob_strategy.py:165-167 | Python's `min` of a non-empty slice: an element bounded by every element |
| Fractals.HighTestIsStrict | fractal_ob_strategy.py:159-161 | the three-part max test is exactly "the high beats every other high of the full window" |
| Fractals.TopFractalTest | fractal_ob_strategy.py:159-162 | the top-fractal test on bar i answers exactly whether the bar is a strict local high |
| Fractals.BottomFractalTest | fractal_ob_strategy.py:165-168 | the bottom-fractal test on bar i answers exactly whether the bar is a strict local low |
| Fractals.LowTestIsStrict | fractal_ob_strategy.py:165-167 | the three-part min test is exactly "the low is below every other low of the full window" |
| Fractals.TieMeansNoFractal | fractal_ob_strategy.py:159-167 | a tie with any other bar of the window rules out both fractal kinds |
| Fractals.FractalHigh | fractal_ob_strategy.py:173-177 | the `fractal_high` column has one entry per bar |
| Fractals.FractalLow | fractal_ob_strategy.py:174-178 | the `fractal_low` column has one entry per bar |
| Fractals.FractalHighAt | fractal_ob_strategy.py:173-177 | entry j is high[j - right] exactly when bar j - right is a top fractal; nothing before index left + right |
| Fractals.FractalLowAt | fractal_ob_strategy.py:174-178 | entry j is low[j - right] exactly when bar j - right is a bottom fractal; nothing before index left + right |
| Fractals.Where | fractal_ob_strategy.py:173-174 | one entry per bar; FractalHighAt and FractalLowAt state which entries are present |
| Fractals.Shift | fractal_ob_strategy.py:177-178 | one entry per bar; FractalHighAt and FractalLowAt state the shifted entries |
| Fractals.DetectFractals | fractal_ob_strategy.py:148-180 | the flag arrays mark exactly the strict local extremes; the price columns are the shifted fractal columns |
| Fractals.WindowMax | fractal_ob_strategy.py:23 | a NaN-skipping window max: missing iff every entry is missing, otherwise a present entry bounding all present entries |
| Fractals.WindowMin | fractal_ob_strategy.py:24 | the NaN-skipping window min, the mirror of WindowMax |
| Fractals.RollingMax | fractal_ob_strategy.py:22 | one entry per bar, entry i the window max over the last w entries; meaning stated by RollingHighLevel |
| Fractals.RollingMin | fractal_ob_strategy.py:23 | one entry per bar, entry i the window min over the last w entries; meaning stated by RollingLowLevel |
| Fractals.RollingHighEntry | fractal_ob_strategy.py:22 | the rolling max of the fractal-high column has one entry per bar, and entry i is the rolling fractal-high level of bar i |
| Fractals.RollingLowEntry | fractal_ob_strategy.py:23 | the rolling min of the fractal-low column has one entry per bar, and entry i is the rolling fractal-low level of bar i |
| Fractals.RollingHighLevel | fractal_ob_strategy.py:23 | the rolling level of bar i is present iff a top fractal was confirmed within the trailing window, and it is then the largest such high |
| Fractals.RollingLowLevel | fractal_ob_strategy.py:24 | the mirror for bottom fractals: the smallest confirmed low within the window |
| Fractals.WindowMaxCongruent | fractal_ob_strategy.py:23 | window maxima agree on columns that agree inside the window |
| Fractals.WindowMinCongruent | fractal_ob_strategy.py:24 | window minima agree on columns that agree inside the window |
| Fractals.HighLevelCausal | fractal_ob_strategy.py:23 | the rolling fractal-high level at bar i depends only on highs 0..i (the shift removes look-ahead) |
| Fractals.LowLevelCausal | fractal_ob_strategy.py:24 | the rolling fractal-low level at bar i depends only on lows 0..i |
| Columns.ColumnsOf | fractal_ob_strategy.py:11-24 | every indicator and level column has one entry per bar |
| Columns.LevelColumnsAt | fractal_ob_strategy.py:23-24 | the level columns at bar k are the rolling fractal levels of bar k |
| Columns.AtrColumnNonNegative | fractal_ob_strategy.py:12 | every entry of the ATR column is non-negative |
| Columns.ColumnsCausal | fractal_ob_strategy.py:11-24 | every column entry at bar k depends only on bars 0..k |
| Columns.HighBrokenIff | fractal_ob_strategy.py:37-38 | `close > level and level is not NaN` holds iff the close beats every recent confirmed top fractal and there is one; the level is the high of one of them |
| Columns.HighLevelIsFractal | fractal_ob_strategy.py:22 | a present rolling fractal-high level is the high of a top fractal confirmed within the lookback window |
| Columns.LowLevelIsFractal | fractal_ob_strategy.py:23 | a present rolling fractal-low level is the low of a bottom fractal confirmed within the lookback window |
| Columns.LowBrokenIff | fractal_ob_strategy.py:53-54 | the mirror for the fractal-low level |
| OrderBlocks.ObTable | fractal_ob_strategy.py:182-224 | a row is bullish (bearish) iff it is a bullish (bearish) order block; no row is both; marked rows have a non-zero range, leave `impulse_bars` bars after them and carry their own low/high; unmarked rows carry NaN |
| OrderBlocks.ObTableFrom | fractal_ob_strategy.py:199-217 | the table built from precomputed rolling levels has one entry per bar in every column |
| OrderBlocks.FutureMaxAbove | fractal_ob_strategy.py:203-204 | `future.max() > level` is "some close among the next `impulse_bars` bars is above the level" |
| OrderBlocks.FutureMinBelow | fractal_ob_strategy.py:212-213 | `future.min() < level` is "some close among the next bars is below the level" |
| OrderBlocks.BullishOrigin | fractal_ob_strategy.py:201-204 | the bullish test of one row, written as in the source, decides the bullish origin rule |
| OrderBlocks.BodyRatio | fractal_ob_strategy.py:185-187 | missing exactly when the bar has a zero range, otherwise the body divided by the range |
| OrderBlocks.IsBullishOb | fractal_ob_strategy.py:199-207 | definition of a bullish order-block row; meaning stated by ObTable and BullishOrigin |
| OrderBlocks.IsBearishOb | fractal_ob_strategy.py:208-216 | definition of a bearish order-block row; meaning stated by ObTable and BearishOrigin |
| OrderBlocks.BearishOrigin | fractal_ob_strategy.py:210-213 | the bearish test of one row decides the bearish origin rule |
| OrderBlocks.MarkRow | fractal_ob_strategy.py:205-216 | marking one row changes that row of the four arrays and no other |
| OrderBlocks.MarkStep | fractal_ob_strategy.py:199-216 | one pass of the loop extends the four arrays by one row of the order-block table; the rows not yet visited keep their defaults |
| OrderBlocks.MarkOrderBlocks | fractal_ob_strategy.py:186-224 | the array loop fills exactly the order-block table from the rolling levels |
| OrderBlocks.FindOrderBlocks | fractal_ob_strategy.py:182-224 | `find_order_blocks` returns the order-block table of the series |
| OrderBlocks.FirstZoneIsFirstMatch | fractal_ob_strategy.py:231-240 | the chronological scan reports nothing iff no row of the range matches, otherwise the direction of the earliest matching row |
| OrderBlocks.FirstZone | fractal_ob_strategy.py:232-240 | definition of the chronological scan with early return; meaning stated by FirstZoneIsFirstMatch |
| OrderBlocks.ObProximity | fractal_ob_strategy.py:226-240 | definition of what `check_ob_proximity` returns over the last ten rows; meaning stated by ObProximityMeaning, CheckObProximity computes it |
| OrderBlocks.CheckObProximity | fractal_ob_strategy.py:226-240 | the scan over the last ten rows returns the first zone holding the price |
| OrderBlocks.ZoneMatchesTable | fractal_ob_strategy.py:232-238 | against the table, a row matches iff it is an order block whose widened [low, high] holds the price, and it is bullish iff it is a bullish order block |
| OrderBlocks.ObProximityMeaning | fractal_ob_strategy.py:226-240 | the lookup at bar i reports a zone iff some order block among the last ten rows holds the price in its widened zone, and then the direction of the oldest such block |
| Exits.FindDate | fractal_ob_strategy.py:245 | the first position at or after a start whose date matches, or none iff no such position exists |
| Exits.EntryIndex | fractal_ob_strategy.py:245 | `get_loc` as usable by `find_exit`: the position of a date carried by exactly one bar; none when the date is missing or repeated |
| Exits.EntryIndexFindsDate | fractal_ob_strategy.py:245 | on strictly increasing dates every bar's date is located at that bar |
| Exits.TargetPrice | fractal_ob_strategy.py:258-266 | the target lies `target` risk units beyond the entry, on the profitable side |
| Exits.ExitFrom | fractal_ob_strategy.py:249-271 | the scanned outcome is -1, the target multiple or 0 |
| Exits.ExitOutcome | fractal_ob_strategy.py:242-274 | the outcome is -1, the target multiple or 0, and 0 when the entry date cannot be located |
| Exits.ExitFromMeaning | fractal_ob_strategy.py:249-271 | -1 iff the first bar touching stop or target touches the stop; the target iff it touches only the target; 0 iff no later bar touches either |
| Exits.ExitFromReadsOnlyLaterBars | fractal_ob_strategy.py:249-271 | the scan from bar j depends only on bars j onwards |
| Exits.FindExit | fractal_ob_strategy.py:242-274 | the loop returns the outcome of the first exit bar after the entry |
| Backtest.TradeForProperties | fractal_ob_strategy.py:76-101 | a trade keeps its signal's direction, date and entry; R is the distance to the stop, equal to `atr_mult_stop` ATRs with the stop on the losing side when both are non-negative; the outcome is -1, target or 0 |
| Backtest.SimulateTrade | fractal_ob_strategy.py:77-101 | one loop step builds the trade of its signal |
| Backtest.StopPrice | fractal_ob_strategy.py:83-86 | the stop lies `atr_mult_stop` ATRs from the entry, below it for Bullish and above it for Bearish when that distance is non-negative |
| Backtest.TradeFor | fractal_ob_strategy.py:77-101 | definition of the trade a signal becomes; meaning stated by TradeForProperties |
| Backtest.ExecuteBacktest | fractal_ob_strategy.py:69-103 | one trade per signal, in signal order, each the trade of its signal |
| Backtest.CountKind | fractal_ob_strategy.py:122-123 | the count of one direction is at most the number of trades |
| Backtest.CountWins | fractal_ob_strategy.py:121 | the count of winning trades is at most the number of trades |
| Backtest.KindCountsPartition | fractal_ob_strategy.py:122-123 | the bullish and bearish counts add up to the number of trades |
| Backtest.AllWinsIff | fractal_ob_strategy.py:121 | the win count equals the number of trades iff every outcome is positive |
| Backtest.NoWinsIff | fractal_ob_strategy.py:121 | the win count is zero iff no outcome is positive |
| Backtest.SumOutcomesBounds | fractal_ob_strategy.py:120 | outcomes within [lo, hi] sum to within [n*lo, n*hi] |
| Backtest.SummarizeResults | fractal_ob_strategy.py:105-131 | no trades give all zeros; otherwise the trade count, and the direction counts, which add up to it |
| Backtest.SummaryMean | fractal_ob_strategy.py:120 | the mean outcome times the number of trades is the sum of outcomes |
| Backtest.SummaryWinRate | fractal_ob_strategy.py:121 | the win rate times the number of trades is the win count; it lies in [0, 1]; it is 1 iff all trades win and 0 iff none does |
| Backtest.WinRateExtremes | fractal_ob_strategy.py:121 | the win rate is 1 iff every outcome is positive and 0 iff none is |
| Backtest.AverageOutcomeBounds | fractal_ob_strategy.py:120 | with outcomes in {-1, target, 0}, the mean outcome lies in [-1, target] |
| Backtest.TradesKeepDirections | fractal_ob_strategy.py:94-101 | a backtest has as many trades of each direction as signals of that direction |
| FractalRefinedStrategy.Cols | backups/ninth-phase/fractal_refined_strategy.py:10-18 | the strategy's indicator and level columns have one entry per bar |
| FractalRefinedStrategy.DefaultParamsValid | backups/ninth-phase/fractal_refined_strategy.py:4 | the default parameters satisfy the model's parameter precondition |
| FractalRefinedStrategy.SignalAt | backups/ninth-phase/fractal_refined_strategy.py:22-53 | definition of the signal of bar i; meaning stated by SignalGateMeaning and SignalFields |
| FractalRefinedStrategy.Signals | backups/ninth-phase/fractal_refined_strategy.py:22-55 | definition of the signal list; DetectSignals computes it, SignalsBeforeFromBars (every listed signal is some bar's), SignalsBeforeComplete (every firing bar's signal is listed, at its position) and SignalsInDateOrder state its meaning |
| FractalRefinedStrategy.DetectSignals | backups/ninth-phase/fractal_refined_strategy.py:4-55 | `detect_signals` returns exactly the strategy's signal list |
| FractalRefinedStrategy.CollectSignals | backups/ninth-phase/fractal_refined_strategy.py:22-53 | the loop appends exactly the signals of bars 1..n-1, in order |
| FractalRefinedStrategy.SignalGateMeaning | backups/ninth-phase/fractal_refined_strategy.py:28-53 | Bullish iff the previous close is above its EMA and breaks every recent top fractal (one existing); Bearish iff the mirror holds and Bullish does not; no signal otherwise |
| FractalRefinedStrategy.SignalFields | backups/ninth-phase/fractal_refined_strategy.py:32-53 | a signal carries the bar's date and open, the previous bar's EMA and ATR, and the price of a recently confirmed fractal |
| FractalRefinedStrategy.SignalShape | backups/ninth-phase/fractal_refined_strategy.py:32-53 | a signal carries bar i's date and open, and the EMA, ATR and level columns of bar i-1 on its own side |
| FractalRefinedStrategy.SignalAtMeaning | backups/ninth-phase/fractal_refined_strategy.py:22-53 | the gate meaning on the strategy's own columns |
| FractalRefinedStrategy.SignalAtNoLookAhead | backups/ninth-phase/fractal_refined_strategy.py:22-53 | the signal of bar i depends only on bars before i and on bar i's open and date |
| FractalRefinedStrategy.SignalsBeforeFromBars | backups/ninth-phase/fractal_refined_strategy.py:22-53 | every emitted signal is the signal of some earlier bar |
| FractalRefinedStrategy.SignalsBeforePrefix | backups/ninth-phase/fractal_refined_strategy.py:22-53 | a later bar only appends: the signals of bars before i are a prefix of those of bars before m |
| FractalRefinedStrategy.SignalsBeforeComplete | backups/ninth-phase/fractal_refined_strategy.py:22-53 | the signal of every bar that fires is in the list, directly after the signals of the bars before it |
| FractalRefinedStrategy.SignalsBeforeDated | backups/ninth-phase/fractal_refined_strategy.py:22-53 | every signal of bars before m is dated before bar m |
| FractalRefinedStrategy.SignalsInDateOrder | backups/ninth-phase/fractal_refined_strategy.py:22-55 | on increasing dates the signal list is in strictly increasing date order |
| FractalRefinedStrategy.FindExit | backups/ninth-phase/fractal_refined_strategy.py:170-202 | the exit outcome with the 2R target, one of -1, 2, 0 |
| FractalRefinedStrategy.ExecuteBacktest | backups/ninth-phase/fractal_refined_strategy.py:57-91 | one trade per signal, each with the 2R exit |
| FractalRefinedStrategy.SignalAtrNonNegative | backups/ninth-phase/fractal_refined_strategy.py:38-52 | every signal's ATR is non-negative |
| FractalRefinedStrategy.SignalAtrFromColumn | backups/ninth-phase/fractal_refined_strategy.py:38-52 | the ATR of every signal is an entry of the ATR column |
| FractalRefinedStrategy.StrategyTrades | backups/ninth-phase/fractal_refined_strategy.py:64-89 | at the default stop, each trade keeps its signal, risks exactly two ATRs with its stop on the losing side, and scores -1, 2 or 0 |
| FractalRefinedStrategy.StrategySummary | backups/ninth-phase/fractal_refined_strategy.py:93-119 | the summary of a backtest counts the signals per direction and its mean outcome lies in [-1, 2] |
| FractalObStrategy.Cols | fractal_ob_strategy.py:10-24 | the strategy's indicator and level columns have one entry per bar |
| FractalObStrategy.DefaultParamsValid | fractal_ob_strategy.py:4-5 | the default parameters satisfy the model's parameter precondition |
| FractalObStrategy.SignalAt | fractal_ob_strategy.py:27-65 | definition of the signal of bar i; meaning stated by SignalGateMeaning, SignalFields and SignalHasOrderBlock |
| FractalObStrategy.Signals | fractal_ob_strategy.py:27-67 | definition of the signal list; DetectSignals computes it, SignalsBeforeFromBars (every listed signal is some bar's), SignalsBeforeComplete (every firing bar's signal is listed, at its position) and SignalsInDateOrder state its meaning |
| FractalObStrategy.Obs | fractal_ob_strategy.py:18-19 | the order-block table has one entry per bar in every column |
| FractalObStrategy.ZoneAt | fractal_ob_strategy.py:33 | definition of the zone lookup at bar i's open; meaning stated by SignalHasOrderBlock and ObProximityMeaning |
| FractalObStrategy.DetectSignals | fractal_ob_strategy.py:4-67 | `detect_signals` returns exactly the strategy's signal list |
| FractalObStrategy.CollectSignals | fractal_ob_strategy.py:27-65 | the loop, with one zone lookup per bar, appends exactly the signals of bars 1..n-1 |
| FractalObStrategy.SignalGateMeaning | fractal_ob_strategy.py:33-65 | Bullish iff the previous close is above its EMA, breaks every recent top fractal and the lookup reports a bullish zone; Bearish iff the mirror holds with a bearish zone and Bullish does not; no signal otherwise |
| FractalObStrategy.SignalFields | fractal_ob_strategy.py:40-63 | a signal carries the bar's date and open, the previous bar's EMA and ATR, and the price of a recently confirmed fractal |
| FractalObStrategy.SignalShape | fractal_ob_strategy.py:40-63 | a signal carries bar i's date and open, and the EMA, ATR and level columns of bar i-1 on its own side |
| FractalObStrategy.SignalAtMeaning | fractal_ob_strategy.py:27-65 | the gate meaning on the strategy's own columns and table |
| FractalObStrategy.SignalHasOrderBlock | fractal_ob_strategy.py:226-240 | behind every signal is an order block of its own direction among the last ten rows whose widened zone holds the entry open, with no older such row |
| FractalObStrategy.SignalAtCongruent | fractal_ob_strategy.py:28-63 | the signal of bar i reads only bar i-1, bar i's open and date, the columns at i-1 and the lookup result |
| FractalObStrategy.SignalAtNoLookAheadButZone | fractal_ob_strategy.py:27-65 | apart from the zone lookup, the signal of bar i depends only on bars before i and on bar i's open and date |
| FractalObStrategy.SignalsBeforeFromBars | fractal_ob_strategy.py:27-65 | every emitted signal is the signal of some earlier bar |
| FractalObStrategy.SignalsBeforePrefix | fractal_ob_strategy.py:27-65 | a later bar only appends: the signals of bars before i are a prefix of those of bars before m |
| FractalObStrategy.SignalsBeforeComplete | fractal_ob_strategy.py:27-65 | the signal of every bar that fires is in the list, directly after the signals of the bars before it |
| FractalObStrategy.SignalsBeforeDated | fractal_ob_strategy.py:27-65 | every signal of bars before m is dated before bar m |
| FractalObStrategy.SignalsInDateOrder | fractal_ob_strategy.py:27-67 | on increasing dates the signal list is in strictly increasing date order |
| FractalObStrategy.FindExit | fractal_ob_strategy.py:242-274 | the exit outcome with the 2.5R target, one of -1, 2.5, 0 |
| FractalObStrategy.ExecuteBacktest | fractal_ob_strategy.py:69-103 | one trade per signal, each with the 2.5R exit |
| FractalObStrategy.SignalAtrNonNegative | fractal_ob_strategy.py:47-61 | every signal's ATR is non-negative |
| FractalObStrategy.SignalAtrFromColumn | fractal_ob_strategy.py:47-61 | the ATR of every signal is an entry of the ATR column |
| FractalObStrategy.StrategyTrades | fractal_ob_strategy.py:76-101 | at the default stop, each trade keeps its signal, risks exactly two ATRs with its stop on the losing side, and scores -1, 2.5 or 0 |
| FractalObStrategy.StrategySummary | fractal_ob_strategy.py:105-131 | the summary of a backtest counts the signals per direction and its mean outcome lies in [-1, 2.5] |
| FractalObStrategy.EarlyFractalLevel | fractal_ob_strategy.py:173-177 | on the sample series the rolling fractal-high level of bar 3 is the high of bar 1 |
| FractalObStrategy.EarlyOrderBlocks | fractal_ob_strategy.py:199-207 | on the sample series bar 3 is a bullish order block exactly when the close of bar 4 breaks that level |
| FractalObStrategy.EarlyLookup | fractal_ob_strategy.py:226-238 | with rows 0-2 unmarked and row 3 either unmarked or a bullish block on the band 0.5..2.0, the scan at price 2.0 reports a bullish zone exactly when row 3 is marked |
| FractalObStrategy.EarlyZone | fractal_ob_strategy.py:226-238 | on the sample series the lookup at bar 3 reports a bullish zone exactly when the close of bar 4 breaks the level |
| FractalObStrategy.ZoneLookupSeesNextBar | fractal_ob_strategy.py:199-238 | two series identical up to bar 3 get different zone lookups at bar 3: the lookup reads an order block whose confirmation comes from a later bar |

## Design decisions

- Prices are `real`. NaN is `None` of `Option<real>`. A comparison with NaN is false, and pandas' `rolling(...).max()` skips NaN entries.
- `ewm(adjust=False)` is the recurrence y0 = x0, yk = a*xk + (1-a)*y(k-1). EMA uses a = 2/(span+1); ATR uses a = 1/period.
- The signal loops read the EMA, ATR and rolling-level columns after they are computed, as the source does.
- `check_ob_proximity` scans its ten rows oldest first and returns at the first match. The model follows this code. The oldest matching order block of the ten wins; a newer one never overrides it (`ObProximityMeaning`).
- `check_ob_proximity` is called with the bar's position rather than its timestamp. On a series with strictly increasing dates, `loc[:timestamp].tail(10)` is the same ten rows.
- The order-block table marks a bar whose confirmation lies in a later bar. The lookup in `detect_signals` can therefore see that later bar, and the model keeps this: `ZoneLookupSeesNextBar` exhibits it and `SignalAtNoLookAheadButZone` states the rest of the signal rule is free of it.
- `get_loc` of a missing date raises. For a repeated date it returns a slice or a boolean mask; either fails when the loop range is built. Both end in the `except` branch, which returns 0; `EntryIndex` models both cases as no position.
- The fractal window sizes, `lookback` and both periods must be at least 1. With a zero fractal window Python's `max` of an empty slice can raise, pandas rejects a zero `lookback` or EMA span, and an ATR period of 0 raises `ZeroDivisionError` in Python's own `1 / period` before pandas sees it; the model states these as preconditions.

## Left out

- FractalObStrategy.ValidParams: with `left_bars` or `right_bars` 0 the source raises only on a bar that passes the earlier conjuncts of its test, since `and` short-circuits, and it completes when `range(left_bars, n - right_bars)` is empty; the model does not admit these inputs.
- FractalRefinedStrategy.ValidParams: the same zero-window inputs of the refined strategy are not admitted, for the same reason.
- FractalObStrategy.ZoneAt: the lookup takes rows `i-9..i` by position. `order_blocks.loc[:timestamp].tail(10)` is the same only when dates are unique. With a repeated date on a sorted index it also takes later rows of that date, and on an unsorted index it raises `KeyError`, which `detect_signals` does not catch. These cases are not modelled.
- Floating point: prices, EMA, ATR and the ratios are exact reals, with no rounding or NaN propagation beyond the `Option` columns.
- Backtest.SummarizeResults: the mean outcome and win rate are not rounded to three decimals, so `SummaryMean`, `SummaryWinRate`, `WinRateExtremes` and `AverageOutcomeBounds` speak of the unrounded values.
- The `ob_confirmed` field of the order-block signals is always `True`, so it is not carried.
- The side effect of `detect_signals` adding `ema` and `atr` columns to the caller's frame is not modelled; the columns are returned values.
- The `risk_per_trade` parameter of `execute_backtest` is unused by the source and is not modelled.
- run_backtests.py, the data fetcher and the web application (I/O, network, HTTP) are not part of this model.
- The DataFrame index, column names and the conversion of lists of dicts to frames are not modelled; signals and trades are sequences of records.
