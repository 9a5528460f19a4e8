/** The exit search (`find_exit`): locate the entry bar by its date, then
    walk forward bar by bar until the stop or the target is touched. Both
    strategies share it; they differ only in the target multiple (2.5 for
    the order-block strategy, 2 for the refined one). */
module Exits {
  import opened Market

  /** Outcome of a stopped-out trade, in R. */
  const LossR: real := -1.0

  /** Outcome of an open trade when the series ends, in R. */
  const OpenR: real := 0.0

  /** The first index at or after `from` whose bar carries the date. */
  function FindDate(bars: seq<Bar>, date: int, from: nat): (r: Option<nat>)
    requires from <= |bars|
    ensures r.None? <==> forall k :: from <= k < |bars| ==> bars[k].timestamp != date
    ensures r.Some? ==> from <= r.value < |bars| && bars[r.value].timestamp == date &&
                        forall k :: from <= k < r.value ==> bars[k].timestamp != date
    decreases |bars| - from
  {
    if from == |bars| then None
    else if bars[from].timestamp == date then Some(from)
    else FindDate(bars, date, from + 1)
  }

  /** `df.index.get_loc(entry_date)` as `find_exit` can use it: the position
      of the date when exactly one bar carries it. A missing date raises,
      and a repeated one yields a slice or a boolean mask, either of which
      fails when the loop range is built; both end in the `except` branch,
      modelled as no position. */
  function EntryIndex(bars: seq<Bar>, date: int): (r: Option<nat>)
    ensures r.Some? ==> r.value < |bars| && bars[r.value].timestamp == date &&
                        forall k :: 0 <= k < |bars| && k != r.value ==> bars[k].timestamp != date
    ensures r.None? ==> forall k :: 0 <= k < |bars| && bars[k].timestamp == date ==>
                          exists k' :: 0 <= k' < |bars| && k' != k && bars[k'].timestamp == date
  {
    match FindDate(bars, date, 0)
    case None => None
    case Some(k) => if FindDate(bars, date, k + 1).None? then Some(k) else None
  }

  /** On a series without repeated dates, every date on the series is found
      at its own bar. */
  lemma EntryIndexFindsDate(bars: seq<Bar>, k: nat)
    requires StrictlyIncreasingDates(bars) && k < |bars|
    ensures EntryIndex(bars, bars[k].timestamp) == Some(k)
  {
  }

  /** The bar reaches the stop: its low for a long, its high for a short. */
  predicate StopHit(b: Bar, kind: Direction, stop: real) {
    match kind
    case Bullish => b.low <= stop
    case Bearish => b.high >= stop
  }

  /** The profit target: `targetMultiple` risk units beyond the entry, in
      the trade's direction. */
  function TargetPrice(kind: Direction, entry: real, stop: real, targetMultiple: real): (p: real)
    ensures targetMultiple >= 0.0 ==> (kind == Bullish ==> p >= entry) && (kind == Bearish ==> p <= entry)
    ensures kind == Bullish ==> p - entry == targetMultiple * Abs(entry - stop)
    ensures kind == Bearish ==> entry - p == targetMultiple * Abs(entry - stop)
  {
    var r := Abs(entry - stop);
    match kind
    case Bullish => entry + targetMultiple * r
    case Bearish => entry - targetMultiple * r
  }

  /** The bar reaches the target: its high for a long, its low for a short. */
  predicate TargetHit(b: Bar, kind: Direction, target: real) {
    match kind
    case Bullish => b.high >= target
    case Bearish => b.low <= target
  }

  /** Bar t ends the trade: it touches the stop or the target. */
  predicate Exits(b: Bar, kind: Direction, entry: real, stop: real, targetMultiple: real) {
    StopHit(b, kind, stop) || TargetHit(b, kind, TargetPrice(kind, entry, stop, targetMultiple))
  }

  /** No bar among j .. e-1 ends the trade. */
  predicate NoExitBetween(bars: seq<Bar>, j: nat, e: nat, kind: Direction, entry: real, stop: real,
                          targetMultiple: real)
    requires e <= |bars|
  {
    forall t :: j <= t < e ==> !Exits(bars[t], kind, entry, stop, targetMultiple)
  }

  /** The outcome of a trade scanned from bar j on: -1 at the first bar that
      touches the stop, the target multiple at the first bar that touches
      the target without touching the stop, and 0 if the series ends first.
      The stop is tested first on every bar. */
  function ExitFrom(bars: seq<Bar>, j: nat, kind: Direction, entry: real, stop: real,
                    targetMultiple: real): (r: real)
    requires j <= |bars|
    ensures r == LossR || r == targetMultiple || r == OpenR
    decreases |bars| - j
  {
    if j == |bars| then OpenR
    else if StopHit(bars[j], kind, stop) then LossR
    else if TargetHit(bars[j], kind, TargetPrice(kind, entry, stop, targetMultiple)) then targetMultiple
    else ExitFrom(bars, j + 1, kind, entry, stop, targetMultiple)
  }

  /** What `find_exit` returns: the scan over the bars strictly after the
      entry bar, or 0 when the entry date cannot be located. */
  function ExitOutcome(bars: seq<Bar>, entryDate: int, entry: real, stop: real, kind: Direction,
                       targetMultiple: real): (r: real)
    ensures r == LossR || r == targetMultiple || r == OpenR
    ensures EntryIndex(bars, entryDate).None? ==> r == OpenR
  {
    match EntryIndex(bars, entryDate)
    case None => OpenR
    case Some(k) => ExitFrom(bars, k + 1, kind, entry, stop, targetMultiple)
  }

  /** The outcome of the scan from bar j in terms of the first exit bar:
      -1 exactly when the first bar that touches stop or target touches the
      stop (a bar touching both scores a loss); the target multiple exactly
      when that bar touches only the target; 0 exactly when no bar from j
      on touches either. */
  lemma {:induction false} ExitFromMeaning(bars: seq<Bar>, j: nat, kind: Direction, entry: real, stop: real,
                                           targetMultiple: real)
    requires j <= |bars| && targetMultiple > 0.0
    ensures var r := ExitFrom(bars, j, kind, entry, stop, targetMultiple);
            var target := TargetPrice(kind, entry, stop, targetMultiple);
            && (r == LossR <==> exists e :: j <= e < |bars| && StopHit(bars[e], kind, stop) &&
                                            NoExitBetween(bars, j, e, kind, entry, stop, targetMultiple))
            && (r == targetMultiple <==> exists e :: j <= e < |bars| && !StopHit(bars[e], kind, stop) &&
                                                     TargetHit(bars[e], kind, target) &&
                                                     NoExitBetween(bars, j, e, kind, entry, stop, targetMultiple))
            && (r == OpenR <==> NoExitBetween(bars, j, |bars|, kind, entry, stop, targetMultiple))
    decreases |bars| - j
  {
    var target := TargetPrice(kind, entry, stop, targetMultiple);
    if j < |bars| {
      assert NoExitBetween(bars, j, j, kind, entry, stop, targetMultiple);
      if !Exits(bars[j], kind, entry, stop, targetMultiple) {
        ExitFromMeaning(bars, j + 1, kind, entry, stop, targetMultiple);
        forall e | j + 1 <= e <= |bars| && NoExitBetween(bars, j + 1, e, kind, entry, stop, targetMultiple)
          ensures NoExitBetween(bars, j, e, kind, entry, stop, targetMultiple)
        {
        }
        forall e | j <= e < |bars| && Exits(bars[e], kind, entry, stop, targetMultiple) &&
                   NoExitBetween(bars, j, e, kind, entry, stop, targetMultiple)
          ensures j + 1 <= e && NoExitBetween(bars, j + 1, e, kind, entry, stop, targetMultiple)
        {
        }
      } else {
        forall e | j < e <= |bars|
          ensures !NoExitBetween(bars, j, e, kind, entry, stop, targetMultiple)
        {
          assert !Exits(bars[j], kind, entry, stop, targetMultiple) || !(forall t :: j <= t < e ==> !Exits(bars[t], kind, entry, stop, targetMultiple));
        }
      }
    }
  }

  /** The scan depends only on the bars it visits: two series that agree
      from bar j on give the same outcome from j. */
  lemma {:induction false} ExitFromReadsOnlyLaterBars(bars: seq<Bar>, other: seq<Bar>, j: nat, kind: Direction,
                                                      entry: real, stop: real, targetMultiple: real)
    requires j <= |bars| && |bars| == |other|
    requires forall t :: j <= t < |bars| ==> bars[t] == other[t]
    ensures ExitFrom(bars, j, kind, entry, stop, targetMultiple) == ExitFrom(other, j, kind, entry, stop, targetMultiple)
    decreases |bars| - j
  {
    if j < |bars| {
      ExitFromReadsOnlyLaterBars(bars, other, j + 1, kind, entry, stop, targetMultiple);
    }
  }

  /** `find_exit`: locates the entry bar, then scans the later bars, testing
      the stop before the target on each, and returns on the first hit. */
  method FindExit(bars: seq<Bar>, entryDate: int, entryPrice: real, stopPrice: real, kind: Direction,
                  targetMultiple: real) returns (outcome: real)
    ensures outcome == ExitOutcome(bars, entryDate, entryPrice, stopPrice, kind, targetMultiple)
  {
    var entryIdx := EntryIndex(bars, entryDate);
    if entryIdx.None? {
      return OpenR;
    }
    var r := Abs(entryPrice - stopPrice);
    var i := entryIdx.value + 1;
    while i < |bars|
      invariant entryIdx.value + 1 <= i <= |bars|
      invariant ExitFrom(bars, i, kind, entryPrice, stopPrice, targetMultiple) ==
                ExitOutcome(bars, entryDate, entryPrice, stopPrice, kind, targetMultiple)
      decreases |bars| - i
    {
      var high, low := bars[i].high, bars[i].low;
      if kind == Bullish {
        if low <= stopPrice {
          return LossR;
        }
        var targetPrice := entryPrice + targetMultiple * r;
        assert targetPrice == TargetPrice(kind, entryPrice, stopPrice, targetMultiple);
        if high >= targetPrice {
          return targetMultiple;
        }
      } else {
        if high >= stopPrice {
          return LossR;
        }
        var targetPrice := entryPrice - targetMultiple * r;
        assert targetPrice == TargetPrice(kind, entryPrice, stopPrice, targetMultiple);
        if low <= targetPrice {
          return targetMultiple;
        }
      }
      i := i + 1;
    }
    return OpenR;
  }
}
