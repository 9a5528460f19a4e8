/** The order-block detector (`find_order_blocks`) and the zone proximity
    lookup (`check_ob_proximity`) of the fractal + order-block strategy. */
module OrderBlocks {
  import opened Market
  import opened Fractals

  /** `tolerance_pct`: the zone is widened by this share of its height. */
  const TolerancePct: real := 0.02

  /** `tail(10)`: the lookup sees the last ten rows at or before the bar. */
  const ProximityRows: nat := 10

  /** `body_ratio`: |close - open| / (high - low), missing (NaN) for a bar
      whose range is zero. */
  function BodyRatio(b: Bar): (r: Option<real>)
    ensures r.None? <==> b.high == b.low
    ensures r.Some? ==> r.value * (b.high - b.low) == Abs(b.close - b.open)
  {
    var range := b.high - b.low;
    if range == 0.0 then None else Some(Abs(b.close - b.open) / range)
  }

  /** `body_ratio >= min_body_ratio`; a NaN ratio compares false. */
  predicate BodyLargeEnough(b: Bar, minBodyRatio: real) {
    BodyRatio(b).Some? && BodyRatio(b).value >= minBodyRatio
  }

  /** The level is defined and some close among bars i+1 .. i+impulseBars
      is above it. */
  predicate BreaksAbove(bars: seq<Bar>, i: nat, impulseBars: nat, level: Option<real>)
    requires i + impulseBars < |bars|
  {
    level.Some? && exists k :: i < k <= i + impulseBars && bars[k].close > level.value
  }

  /** The level is defined and some close among bars i+1 .. i+impulseBars
      is below it. */
  predicate BreaksBelow(bars: seq<Bar>, i: nat, impulseBars: nat, level: Option<real>)
    requires i + impulseBars < |bars|
  {
    level.Some? && exists k :: i < k <= i + impulseBars && bars[k].close < level.value
  }

  /** The origin rule for a bullish order block at bar i against a given
      level: a down candle with a large enough body whose next
      `impulseBars` bars include a close above the level. */
  predicate BullishOriginAt(bars: seq<Bar>, i: nat, impulseBars: nat, minBodyRatio: real, level: Option<real>)
    requires i + impulseBars < |bars|
  {
    bars[i].close < bars[i].open && BodyLargeEnough(bars[i], minBodyRatio) &&
    BreaksAbove(bars, i, impulseBars, level)
  }

  /** The mirror rule: an up candle followed by a close below the level. */
  predicate BearishOriginAt(bars: seq<Bar>, i: nat, impulseBars: nat, minBodyRatio: real, level: Option<real>)
    requires i + impulseBars < |bars|
  {
    bars[i].close > bars[i].open && BodyLargeEnough(bars[i], minBodyRatio) &&
    BreaksBelow(bars, i, impulseBars, level)
  }

  /** Bar i is a bullish order block: a down candle with a large enough
      body, a defined rolling fractal-high level at i, and some close among
      the next `impulseBars` bars above that level. */
  predicate IsBullishOb(bars: seq<Bar>, fractalHigh: seq<Option<real>>, impulseBars: nat,
                        minBodyRatio: real, lookback: nat, i: nat)
    requires |fractalHigh| == |bars|
  {
    i < |bars| - impulseBars &&
    BullishOriginAt(bars, i, impulseBars, minBodyRatio, WindowMax(fractalHigh, WindowStart(i, lookback), i + 1))
  }

  /** Bar i is a bearish order block: the mirror rule, an up candle followed
      by a close below the rolling fractal-low level. */
  predicate IsBearishOb(bars: seq<Bar>, fractalLow: seq<Option<real>>, impulseBars: nat,
                        minBodyRatio: real, lookback: nat, i: nat)
    requires |fractalLow| == |bars|
  {
    i < |bars| - impulseBars &&
    BearishOriginAt(bars, i, impulseBars, minBodyRatio, WindowMin(fractalLow, WindowStart(i, lookback), i + 1))
  }

  /** The four columns `find_order_blocks` returns. */
  datatype ObColumns = ObColumns(bullishOb: seq<bool>, bearishOb: seq<bool>,
                                 obLow: seq<Option<real>>, obHigh: seq<Option<real>>)

  predicate WellFormed(ob: ObColumns, n: nat) {
    |ob.bullishOb| == n && |ob.bearishOb| == n && |ob.obLow| == n && |ob.obHigh| == n
  }

  /** Whether bar i is marked in either direction. */
  predicate IsOb(bars: seq<Bar>, fractalHigh: seq<Option<real>>, fractalLow: seq<Option<real>>,
                 impulseBars: nat, minBodyRatio: real, lookback: nat, i: nat)
    requires |fractalHigh| == |bars| && |fractalLow| == |bars|
  {
    IsBullishOb(bars, fractalHigh, impulseBars, minBodyRatio, lookback, i) ||
    IsBearishOb(bars, fractalLow, impulseBars, minBodyRatio, lookback, i)
  }

  /** The order-block columns of a series. No bar is marked both ways, no
      zero-range bar and no bar among the last `impulseBars` is marked, and a
      marked bar's zone is its own [low, high]. */
  function ObTable(bars: seq<Bar>, fractalHigh: seq<Option<real>>, fractalLow: seq<Option<real>>,
                   impulseBars: nat, minBodyRatio: real, lookback: nat): (ob: ObColumns)
    requires |fractalHigh| == |bars| && |fractalLow| == |bars| && lookback >= 1
    ensures WellFormed(ob, |bars|)
    ensures forall i :: 0 <= i < |bars| ==>
              (ob.bullishOb[i] <==> IsBullishOb(bars, fractalHigh, impulseBars, minBodyRatio, lookback, i)) &&
              (ob.bearishOb[i] <==> IsBearishOb(bars, fractalLow, impulseBars, minBodyRatio, lookback, i))
    ensures forall i :: 0 <= i < |bars| ==> !(ob.bullishOb[i] && ob.bearishOb[i])
    ensures forall i :: 0 <= i < |bars| && (ob.bullishOb[i] || ob.bearishOb[i]) ==>
              i < |bars| - impulseBars && bars[i].high != bars[i].low &&
              ob.obLow[i] == Some(bars[i].low) && ob.obHigh[i] == Some(bars[i].high)
    ensures forall i :: 0 <= i < |bars| && !(ob.bullishOb[i] || ob.bearishOb[i]) ==>
              ob.obLow[i] == None && ob.obHigh[i] == None
  {
    ObTableFrom(bars, RollingMax(fractalHigh, lookback), RollingMin(fractalLow, lookback), impulseBars, minBodyRatio)
  }

  /** Row i is marked bullish against the given level column. */
  predicate MarkedBullish(bars: seq<Bar>, highLevel: seq<Option<real>>, impulseBars: nat, minBodyRatio: real, i: nat)
    requires |highLevel| == |bars| && i < |bars|
  {
    i < |bars| - impulseBars && BullishOriginAt(bars, i, impulseBars, minBodyRatio, highLevel[i])
  }

  /** Row i is marked bearish against the given level column. */
  predicate MarkedBearish(bars: seq<Bar>, lowLevel: seq<Option<real>>, impulseBars: nat, minBodyRatio: real, i: nat)
    requires |lowLevel| == |bars| && i < |bars|
  {
    i < |bars| - impulseBars && BearishOriginAt(bars, i, impulseBars, minBodyRatio, lowLevel[i])
  }

  /** The order-block columns computed from given rolling levels: row i is
      marked when it has `impulseBars` bars after it and passes the origin
      rule against the level of its own row. */
  function ObTableFrom(bars: seq<Bar>, highLevel: seq<Option<real>>, lowLevel: seq<Option<real>>,
                       impulseBars: nat, minBodyRatio: real): (ob: ObColumns)
    requires |highLevel| == |bars| && |lowLevel| == |bars|
    ensures WellFormed(ob, |bars|)
  {
    var n := |bars|;
    var bull := seq(n, i requires 0 <= i < n => MarkedBullish(bars, highLevel, impulseBars, minBodyRatio, i));
    var bear := seq(n, i requires 0 <= i < n => MarkedBearish(bars, lowLevel, impulseBars, minBodyRatio, i));
    ObColumns(bull, bear,
              seq(n, i requires 0 <= i < n => if bull[i] || bear[i] then Some(bars[i].low) else None),
              seq(n, i requires 0 <= i < n => if bull[i] || bear[i] then Some(bars[i].high) else None))
  }

  /** `future.max() > level` over closes i+1 .. i+impulseBars is "some close
      in the window is above the level"; the max of an empty window is NaN,
      which compares false. */
  lemma FutureMaxAbove(bars: seq<Bar>, i: nat, impulseBars: nat, level: real)
    requires impulseBars >= 1 && i + impulseBars < |bars|
    ensures var future := Closes(bars)[i + 1..i + 1 + impulseBars];
            MaxOf(future) > level <==> exists k :: i < k <= i + impulseBars && bars[k].close > level
  {
    var future := Closes(bars)[i + 1..i + 1 + impulseBars];
    assert forall k :: i < k <= i + impulseBars ==> future[k - (i + 1)] == bars[k].close;
    if MaxOf(future) > level {
      var t :| 0 <= t < |future| && future[t] == MaxOf(future);
      assert bars[i + 1 + t].close > level;
    }
  }

  /** The mirror of FutureMaxAbove for `future.min() < level`. */
  lemma FutureMinBelow(bars: seq<Bar>, i: nat, impulseBars: nat, level: real)
    requires impulseBars >= 1 && i + impulseBars < |bars|
    ensures var future := Closes(bars)[i + 1..i + 1 + impulseBars];
            MinOf(future) < level <==> exists k :: i < k <= i + impulseBars && bars[k].close < level
  {
    var future := Closes(bars)[i + 1..i + 1 + impulseBars];
    assert forall k :: i < k <= i + impulseBars ==> future[k - (i + 1)] == bars[k].close;
    if MinOf(future) < level {
      var t :| 0 <= t < |future| && future[t] == MinOf(future);
      assert bars[i + 1 + t].close < level;
    }
  }

  /** The bullish-origin test of `find_order_blocks` for bar i, given the
      rolling fractal-high level at i. */
  method BullishOrigin(bars: seq<Bar>, i: nat, level: Option<real>, impulseBars: nat, minBodyRatio: real)
    returns (b: bool)
    requires i + impulseBars < |bars|
    ensures b == BullishOriginAt(bars, i, impulseBars, minBodyRatio, level)
  {
    b := false;
    var ratio := BodyRatio(bars[i]);
    if bars[i].close < bars[i].open && ratio.Some? && ratio.value >= minBodyRatio {
      // `future.max()` of an empty window is NaN and compares false
      if level.Some? && impulseBars >= 1 {
        FutureMaxAbove(bars, i, impulseBars, level.value);
        b := MaxOf(Closes(bars)[i + 1..i + 1 + impulseBars]) > level.value;
      }
    }
  }

  /** The bearish-origin test of `find_order_blocks` for bar i, given the
      rolling fractal-low level at i. */
  method BearishOrigin(bars: seq<Bar>, i: nat, level: Option<real>, impulseBars: nat, minBodyRatio: real)
    returns (b: bool)
    requires i + impulseBars < |bars|
    ensures b == BearishOriginAt(bars, i, impulseBars, minBodyRatio, level)
  {
    b := false;
    var ratio := BodyRatio(bars[i]);
    if bars[i].close > bars[i].open && ratio.Some? && ratio.value >= minBodyRatio {
      if level.Some? && impulseBars >= 1 {
        FutureMinBelow(bars, i, impulseBars, level.value);
        b := MinOf(Closes(bars)[i + 1..i + 1 + impulseBars]) < level.value;
      }
    }
  }

  /** `find_order_blocks`: fills the four columns in place, one origin bar
      at a time, over every bar that has `impulseBars` bars after it. */
  method FindOrderBlocks(bars: seq<Bar>, fractalHigh: seq<Option<real>>, fractalLow: seq<Option<real>>,
                         impulseBars: nat, minBodyRatio: real, lookback: nat) returns (ob: ObColumns)
    requires |fractalHigh| == |bars| && |fractalLow| == |bars|
    requires lookback >= 1
    ensures ob == ObTable(bars, fractalHigh, fractalLow, impulseBars, minBodyRatio, lookback)
  {
    var fhRoll := RollingMax(fractalHigh, lookback);
    var flRoll := RollingMin(fractalLow, lookback);
    ob := MarkOrderBlocks(bars, fhRoll, flRoll, impulseBars, minBodyRatio);
  }

  /** The first `i` entries of a column, the rest reset to the column's
      initial value. */
  function Upto<T>(s: seq<T>, i: nat, initial: T): (r: seq<T>)
    ensures |r| == |s|
  {
    seq(|s|, k requires 0 <= k < |s| => if k < i then s[k] else initial)
  }

  /** Taking one more entry writes entry i. */
  lemma UptoStep<T>(s: seq<T>, i: nat, initial: T)
    requires i < |s|
    ensures Upto(s, i + 1, initial) == Upto(s, i, initial)[i := s[i]]
  {
  }

  /** The marking loop of `find_order_blocks` over precomputed rolling
      levels. */
  method MarkOrderBlocks(bars: seq<Bar>, highLevel: seq<Option<real>>, lowLevel: seq<Option<real>>,
                         impulseBars: nat, minBodyRatio: real) returns (ob: ObColumns)
    requires |highLevel| == |bars| && |lowLevel| == |bars|
    ensures ob == ObTableFrom(bars, highLevel, lowLevel, impulseBars, minBodyRatio)
  {
    var n := |bars|;
    var bull := new bool[n](_ => false);
    var bear := new bool[n](_ => false);
    var obLow := new Option<real>[n](_ => None);
    var obHigh := new Option<real>[n](_ => None);
    ghost var spec := ObTableFrom(bars, highLevel, lowLevel, impulseBars, minBodyRatio);
    var i := 0;
    while i < n - impulseBars
      invariant 0 <= i && (i <= n - impulseBars || i == 0)
      invariant bull[..] == Upto(spec.bullishOb, i, false)
      invariant bear[..] == Upto(spec.bearishOb, i, false)
      invariant obLow[..] == Upto(spec.obLow, i, None)
      invariant obHigh[..] == Upto(spec.obHigh, i, None)
    {
      MarkStep(bars, highLevel, lowLevel, impulseBars, minBodyRatio, bull, bear, obLow, obHigh, i, spec);
      i := i + 1;
    }
    assert bull[..] == spec.bullishOb;
    assert bear[..] == spec.bearishOb;
    assert obLow[..] == spec.obLow;
    assert obHigh[..] == spec.obHigh;
    ob := ObColumns(bull[..], bear[..], obLow[..], obHigh[..]);
  }

  /** One pass of the marking loop: tests row i and writes it, taking the
      columns from the table's first i rows to its first i + 1 rows. */
  method MarkStep(bars: seq<Bar>, highLevel: seq<Option<real>>, lowLevel: seq<Option<real>>,
                  impulseBars: nat, minBodyRatio: real,
                  bull: array<bool>, bear: array<bool>, obLow: array<Option<real>>, obHigh: array<Option<real>>,
                  i: nat, ghost spec: ObColumns)
    requires |highLevel| == |bars| && |lowLevel| == |bars| && i + impulseBars < |bars|
    requires spec == ObTableFrom(bars, highLevel, lowLevel, impulseBars, minBodyRatio)
    requires bull != bear && obLow != obHigh
    requires bull[..] == Upto(spec.bullishOb, i, false) && bear[..] == Upto(spec.bearishOb, i, false)
    requires obLow[..] == Upto(spec.obLow, i, None) && obHigh[..] == Upto(spec.obHigh, i, None)
    modifies bull, bear, obLow, obHigh
    ensures bull[..] == Upto(spec.bullishOb, i + 1, false) && bear[..] == Upto(spec.bearishOb, i + 1, false)
    ensures obLow[..] == Upto(spec.obLow, i + 1, None) && obHigh[..] == Upto(spec.obHigh, i + 1, None)
  {
    var isBull := BullishOrigin(bars, i, highLevel[i], impulseBars, minBodyRatio);
    var isBear := BearishOrigin(bars, i, lowLevel[i], impulseBars, minBodyRatio);
    assert spec.bullishOb[i] == isBull && spec.bearishOb[i] == isBear;
    UptoStep(spec.bullishOb, i, false);
    UptoStep(spec.bearishOb, i, false);
    UptoStep(spec.obLow, i, None);
    UptoStep(spec.obHigh, i, None);
    MarkRow(bull, bear, obLow, obHigh, i, isBull, isBear, bars[i]);
  }

  /** Writes row i of the four columns as `find_order_blocks` does: a flag
      is set only when its test passed, and the zone bounds only when either
      flag was set; no other entry changes. */
  method MarkRow(bull: array<bool>, bear: array<bool>, obLow: array<Option<real>>, obHigh: array<Option<real>>,
                 i: nat, isBull: bool, isBear: bool, b: Bar)
    requires bull != bear && obLow != obHigh
    requires i < bull.Length && i < bear.Length && i < obLow.Length && i < obHigh.Length
    modifies bull, bear, obLow, obHigh
    ensures bull[..] == old(bull[..])[i := if isBull then true else old(bull[i])]
    ensures bear[..] == old(bear[..])[i := if isBear then true else old(bear[i])]
    ensures obLow[..] == old(obLow[..])[i := if isBull || isBear then Some(b.low) else old(obLow[i])]
    ensures obHigh[..] == old(obHigh[..])[i := if isBull || isBear then Some(b.high) else old(obHigh[i])]
  {
    if isBull {
      bull[i] := true;
      obLow[i] := Some(b.low);
      obHigh[i] := Some(b.high);
    }
    if isBear {
      bear[i] := true;
      obLow[i] := Some(b.low);
      obHigh[i] := Some(b.high);
    }
  }

  // ---------------------------------------------------------------- proximity

  /** `low - tolerance <= price <= high + tolerance` with the tolerance a
      share of the zone's height. */
  predicate InZone(low: real, high: real, price: real, tolerancePct: real) {
    var tolerance := (high - low) * tolerancePct;
    low - tolerance <= price <= high + tolerance
  }

  /** Row k is an order block whose widened zone holds the price. */
  predicate ZoneMatches(ob: ObColumns, k: nat, price: real, tolerancePct: real)
    requires k < |ob.bullishOb| && k < |ob.bearishOb| && k < |ob.obLow| && k < |ob.obHigh|
  {
    (ob.bullishOb[k] || ob.bearishOb[k]) && ob.obLow[k].Some? && ob.obHigh[k].Some? &&
    InZone(ob.obLow[k].value, ob.obHigh[k].value, price, tolerancePct)
  }

  /** 'bullish' if the row is a bullish order block, else 'bearish'. */
  function ZoneDirection(ob: ObColumns, k: nat): Direction
    requires k < |ob.bullishOb|
  {
    if ob.bullishOb[k] then Bullish else Bearish
  }

  /** The direction of the first row among lo..hi-1, in chronological
      order, whose zone holds the price; missing if there is none. */
  function FirstZone(ob: ObColumns, n: nat, lo: nat, hi: nat, price: real, tolerancePct: real): Option<Direction>
    requires WellFormed(ob, n) && lo <= hi <= n
    decreases hi - lo
  {
    if lo == hi then None
    else if ZoneMatches(ob, lo, price, tolerancePct) then Some(ZoneDirection(ob, lo))
    else FirstZone(ob, n, lo + 1, hi, price, tolerancePct)
  }

  /** FirstZone finds the earliest matching row: it is missing exactly when
      no row of lo..hi-1 matches, and otherwise it is the direction of a
      matching row before which no row matches. */
  lemma {:induction false} FirstZoneIsFirstMatch(ob: ObColumns, n: nat, lo: nat, hi: nat, price: real, tolerancePct: real)
    requires WellFormed(ob, n) && lo <= hi <= n
    ensures var r := FirstZone(ob, n, lo, hi, price, tolerancePct);
            && (r.None? <==> forall k :: lo <= k < hi ==> !ZoneMatches(ob, k, price, tolerancePct))
            && (r.Some? ==> exists k :: lo <= k < hi && ZoneMatches(ob, k, price, tolerancePct) &&
                                        r.value == ZoneDirection(ob, k) &&
                                        forall k' :: lo <= k' < k ==> !ZoneMatches(ob, k', price, tolerancePct))
    decreases hi - lo
  {
    if lo < hi && !ZoneMatches(ob, lo, price, tolerancePct) {
      FirstZoneIsFirstMatch(ob, n, lo + 1, hi, price, tolerancePct);
      var r := FirstZone(ob, n, lo + 1, hi, price, tolerancePct);
      if r.Some? {
        var k :| lo + 1 <= k < hi && ZoneMatches(ob, k, price, tolerancePct) &&
                 r.value == ZoneDirection(ob, k) &&
                 forall k' :: lo + 1 <= k' < k ==> !ZoneMatches(ob, k', price, tolerancePct);
        assert forall k' :: lo <= k' < k ==> !ZoneMatches(ob, k', price, tolerancePct);
      }
    }
  }

  /** What `check_ob_proximity` returns for the row of bar i. */
  function ObProximity(ob: ObColumns, n: nat, i: nat, price: real, tolerancePct: real): Option<Direction>
    requires WellFormed(ob, n) && i < n
  {
    FirstZone(ob, n, WindowStart(i, ProximityRows), i + 1, price, tolerancePct)
  }

  /** `check_ob_proximity`: scans the last ten rows at or before bar i,
      oldest first, and returns the direction of the first order block whose
      widened zone holds the price. Whether that order block's confirmation
      window has already closed is not checked. */
  method CheckObProximity(i: nat, ob: ObColumns, n: nat, price: real, tolerancePct: real)
    returns (zone: Option<Direction>)
    requires WellFormed(ob, n) && i < n
    ensures zone == ObProximity(ob, n, i, price, tolerancePct)
  {
    var lo := WindowStart(i, ProximityRows);
    var k := lo;
    while k <= i
      invariant lo <= k <= i + 1
      invariant FirstZone(ob, n, k, i + 1, price, tolerancePct) == ObProximity(ob, n, i, price, tolerancePct)
    {
      if (ob.bullishOb[k] || ob.bearishOb[k]) && ob.obLow[k].Some? && ob.obHigh[k].Some? {
        var low, high := ob.obLow[k].value, ob.obHigh[k].value;
        var tolerance := (high - low) * tolerancePct;
        if low - tolerance <= price <= high + tolerance {
          return if ob.bullishOb[k] then Some(Bullish) else Some(Bearish);
        }
      }
      k := k + 1;
    }
    return None;
  }

  /** Against the order-block table of a series, a row matches exactly when
      it is an order block whose widened [low, high] holds the price, and its
      direction is bullish exactly when it is a bullish order block. */
  lemma ZoneMatchesTable(bars: seq<Bar>, fractalHigh: seq<Option<real>>, fractalLow: seq<Option<real>>,
                         impulseBars: nat, minBodyRatio: real, lookback: nat, k: nat, price: real, tolerancePct: real)
    requires |fractalHigh| == |bars| && |fractalLow| == |bars| && lookback >= 1 && k < |bars|
    ensures var ob := ObTable(bars, fractalHigh, fractalLow, impulseBars, minBodyRatio, lookback);
            && (ZoneMatches(ob, k, price, tolerancePct) <==>
                  IsOb(bars, fractalHigh, fractalLow, impulseBars, minBodyRatio, lookback, k) &&
                  InZone(bars[k].low, bars[k].high, price, tolerancePct))
            && (ZoneDirection(ob, k) == Bullish <==> IsBullishOb(bars, fractalHigh, impulseBars, minBodyRatio, lookback, k))
  {
  }

  /** A row of the table whose zone holds the price. */
  predicate ObNear(bars: seq<Bar>, fractalHigh: seq<Option<real>>, fractalLow: seq<Option<real>>,
                   impulseBars: nat, minBodyRatio: real, lookback: nat, k: nat, price: real, tolerancePct: real)
    requires |fractalHigh| == |bars| && |fractalLow| == |bars| && k < |bars|
  {
    IsOb(bars, fractalHigh, fractalLow, impulseBars, minBodyRatio, lookback, k) &&
    InZone(bars[k].low, bars[k].high, price, tolerancePct)
  }

  /** The lookup over the order-block table of a series: it reports a
      direction exactly when some order block among the last ten rows up to
      bar i has a widened zone holding the price, and the direction is that
      of the oldest such row: bullish exactly when it is a bullish order
      block. */
  lemma ObProximityMeaning(bars: seq<Bar>, fractalHigh: seq<Option<real>>, fractalLow: seq<Option<real>>,
                           impulseBars: nat, minBodyRatio: real, lookback: nat, i: nat, price: real, tolerancePct: real)
    requires |fractalHigh| == |bars| && |fractalLow| == |bars| && lookback >= 1 && i < |bars|
    ensures var ob := ObTable(bars, fractalHigh, fractalLow, impulseBars, minBodyRatio, lookback);
            var r, lo := ObProximity(ob, |bars|, i, price, tolerancePct), WindowStart(i, ProximityRows);
            && (r.None? <==> forall k :: lo <= k <= i ==>
                  !ObNear(bars, fractalHigh, fractalLow, impulseBars, minBodyRatio, lookback, k, price, tolerancePct))
            && (r.Some? ==>
                  exists k :: && lo <= k <= i
                              && ObNear(bars, fractalHigh, fractalLow, impulseBars, minBodyRatio, lookback, k, price, tolerancePct)
                              && (r.value == Bullish <==> IsBullishOb(bars, fractalHigh, impulseBars, minBodyRatio, lookback, k))
                              && (forall k' :: lo <= k' < k ==>
                                    !ObNear(bars, fractalHigh, fractalLow, impulseBars, minBodyRatio, lookback, k', price, tolerancePct)))
  {
    var ob := ObTable(bars, fractalHigh, fractalLow, impulseBars, minBodyRatio, lookback);
    var lo := WindowStart(i, ProximityRows);
    FirstZoneIsFirstMatch(ob, |bars|, lo, i + 1, price, tolerancePct);
    forall k | lo <= k <= i
      ensures ZoneMatches(ob, k, price, tolerancePct) <==>
              ObNear(bars, fractalHigh, fractalLow, impulseBars, minBodyRatio, lookback, k, price, tolerancePct)
      ensures ZoneDirection(ob, k) == Bullish <==> IsBullishOb(bars, fractalHigh, impulseBars, minBodyRatio, lookback, k)
    {
      ZoneMatchesTable(bars, fractalHigh, fractalLow, impulseBars, minBodyRatio, lookback, k, price, tolerancePct);
    }
  }
}
