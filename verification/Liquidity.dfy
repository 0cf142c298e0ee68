/** Liquidity sweeps and equal levels. */
module Liquidity {
  import opened Wrappers
  import opened Sequences
  import opened SmcModels
  import opened SmcStatistics
  import opened Swings
  import opened Structure

  /** The running state of the sweep loop. */
  datatype SweepState = SweepState(high: Option<Swing>, low: Option<Swing>, events: seq<LiquiditySweep>)

  function SweepArrive(s: SweepState, arrivals: seq<Swing>): SweepState {
    s.(high := Latest(s.high, arrivals, High), low := Latest(s.low, arrivals, Low))
  }

  predicate SweepsHigh(s: SweepState, c: Candle) {
    s.high.Some? && c.highPrice > s.high.value.price > c.closePrice
  }

  predicate SweepsLow(s: SweepState, c: Candle) {
    s.low.Some? && c.lowPrice < s.low.value.price < c.closePrice
  }

  /** One candle may sweep both sides; a swept swing is used up. */
  function SweepStep(s: SweepState, i: nat, c: Candle): SweepState {
    SweepState(
      if SweepsHigh(s, c) then None else s.high,
      if SweepsLow(s, c) then None else s.low,
      s.events
      + (if SweepsHigh(s, c)
        then [LiquiditySweep(Bearish, i, c.closeTime, s.high.value.price, c.highPrice, s.high.value)] else [])
      + (if SweepsLow(s, c) then [LiquiditySweep(Bullish, i, c.closeTime, s.low.value.price, c.lowPrice, s.low.value)]
        else []))
  }

  function SweepsUpTo(candles: seq<Candle>, swings: seq<Swing>, n: nat): SweepState
    requires n <= |candles|
  {
    if n == 0 then SweepState(None, None, [])
    else SweepStep(SweepArrive(SweepsUpTo(candles, swings, n - 1), Arrivals(swings, n - 1)), n - 1, candles[n - 1])
  }

  function Sweeps(candles: seq<Candle>, swings: seq<Swing>): seq<LiquiditySweep> {
    SweepsUpTo(candles, swings, |candles|).events
  }

  /** The latest of the arriving swings replace the current ones, kind by kind. */
  method TakeArrivals(before: Option<Swing>, beforeLow: Option<Swing>, arriving: seq<Swing>)
    returns (high: Option<Swing>, low: Option<Swing>)
    ensures high == Latest(before, arriving, High) && low == Latest(beforeLow, arriving, Low)
  {
    high, low := before, beforeLow;
    for k := 0 to |arriving|
      invariant high == Latest(before, arriving[..k], High) && low == Latest(beforeLow, arriving[..k], Low)
    {
      assert arriving[..k + 1][..k] == arriving[..k];
      if arriving[k].kind == High {
        high := Some(arriving[k]);
      } else {
        low := Some(arriving[k]);
      }
    }
    assert arriving[..|arriving|] == arriving;
  }

  lemma NoSweepsYet(candles: seq<Candle>, swings: seq<Swing>)
    ensures SweepsUpTo(candles, swings, 0) == SweepState(None, None, [])
  {
  }

  lemma NextSweeps(candles: seq<Candle>, swings: seq<Swing>, i: nat)
    requires i < |candles|
    ensures SweepsUpTo(candles, swings, i + 1)
            == SweepStep(SweepArrive(SweepsUpTo(candles, swings, i), Arrivals(swings, i)), i, candles[i])
  {
  }

  method DetectLiquiditySweeps(candles: seq<Candle>, swings: seq<Swing>) returns (events: seq<LiquiditySweep>)
    ensures events == Sweeps(candles, swings)
  {
    hide Latest, SweepsUpTo, Arrivals;
    var available := CollectArrivals(swings);
    NoSweepsYet(candles, swings);
    var high: Option<Swing>, low: Option<Swing> := None, None;
    events := [];
    for index := 0 to |candles|
      invariant SweepState(high, low, events) == SweepsUpTo(candles, swings, index)
    {
      var candle := candles[index];
      NextSweeps(candles, swings, index);
      var arriving := if index in available then available[index] else [];
      high, low := TakeArrivals(high, low, arriving);
      if high.Some? && candle.highPrice > high.value.price > candle.closePrice {
        events := events
          + [LiquiditySweep(Bearish, index, candle.closeTime, high.value.price, candle.highPrice, high.value)];
        high := None;
      }
      if low.Some? && candle.lowPrice < low.value.price < candle.closePrice {
        events := events
          + [LiquiditySweep(Bullish, index, candle.closeTime, low.value.price, candle.lowPrice, low.value)];
        low := None;
      }
    }
  }

  lemma {:induction false} SweepsUpToCausal(candles: seq<Candle>, lookback: nat, n: nat, i: nat)
    requires i <= n <= |candles|
    ensures SweepsUpTo(candles[..n], AllSwings(candles[..n], lookback), i)
            == SweepsUpTo(candles, AllSwings(candles, lookback), i)
    decreases i
  {
    hide SweepArrive, SweepStep, Arrivals, AllSwings;
    if i > 0 {
      SweepsUpToCausal(candles, lookback, n, i - 1);
      ArrivalsCausal(candles, lookback, n, i - 1);
    }
  }

  lemma SweepAddsAt(s: SweepState, i: nat, c: Candle)
    ensures var r := SweepStep(s, i, c).events;
            s.events <= r && forall e :: e in r[|s.events|..] ==> e.index == i
  {
  }

  lemma {:induction false} SweepsGrow(candles: seq<Candle>, swings: seq<Swing>, n: nat, m: nat)
    requires n <= m <= |candles|
    ensures var early, late := SweepsUpTo(candles, swings, n).events, SweepsUpTo(candles, swings, m).events;
            early <= late && forall e :: e in late[|early|..] ==> n <= e.index < m
    decreases m - n
  {
    hide Arrivals, Latest, SweepStep;
    if n < m {
      SweepsGrow(candles, swings, n, m - 1);
      var early, middle, late := SweepsUpTo(candles, swings, n).events, SweepsUpTo(candles, swings, m - 1).events,
        SweepsUpTo(candles, swings, m).events;
      SweepAddsAt(SweepArrive(SweepsUpTo(candles, swings, m - 1), Arrivals(swings, m - 1)), m - 1, candles[m - 1]);
      assert late[|early|..] == middle[|early|..] + late[|middle|..];
    }
  }

  /** The sweeps known after n candles are the full run's first sweeps. */
  lemma SweepsCausal(candles: seq<Candle>, lookback: nat, n: nat)
    requires n <= |candles|
    ensures var early, all := Sweeps(candles[..n], AllSwings(candles[..n], lookback)),
            Sweeps(candles, AllSwings(candles, lookback));
            early <= all && forall e :: e in all[|early|..] ==> e.index >= n
  {
    hide SweepsUpTo, AllSwings;
    SweepsUpToCausal(candles, lookback, n, n);
    SweepsGrow(candles, AllSwings(candles, lookback), n, |candles|);
  }

  // ---------- equal levels ----------

  function OfKind(kind: SwingKind): Swing -> bool {
    (s: Swing) => s.kind == kind
  }

  function ByIndex(): (Swing, Swing) -> bool {
    (a: Swing, b: Swing) => a.index <= b.index
  }

  function BySecondConfirmation(): (EqualLevel, EqualLevel) -> bool {
    (a: EqualLevel, b: EqualLevel) => a.second.confirmation <= b.second.confirmation
  }

  /** The level two consecutive same-kind swings form, if they are near enough in bars and in price. */
  function LevelOf(first: Swing, second: Swing, atr: seq<Option<real>>, tolerance: real,
                   separation: int): seq<EqualLevel> {
    if second.index as int - first.index as int > separation || second.confirmation >= |atr|
      || atr[second.confirmation].None? then []
    else LevelWithin(first, second, Scaled(atr[second.confirmation].value, tolerance))
  }

  function LevelWithin(first: Swing, second: Swing, allowed: real): seq<EqualLevel> {
    var distance := if second.price < first.price then first.price - second.price else second.price - first.price;
    if distance <= allowed
    then [EqualLevel(first.kind, first, second, (first.price + second.price) / 2.0, allowed)]
    else []
  }

  function PairLevels(swings: seq<Swing>, atr: seq<Option<real>>, tolerance: real, separation: int): seq<EqualLevel> {
    if |swings| < 2 then []
    else PairLevels(swings[..|swings| - 1], atr, tolerance, separation)
         + LevelOf(swings[|swings| - 2], swings[|swings| - 1], atr, tolerance, separation)
  }

  function KindLevels(swings: seq<Swing>, kind: SwingKind, atr: seq<Option<real>>, tolerance: real,
                      separation: int): seq<EqualLevel> {
    PairLevels(Sort(ByIndex(), Filter(OfKind(kind), swings)), atr, tolerance, separation)
  }

  function EqualLevels(swings: seq<Swing>, atr: seq<Option<real>>, tolerance: real, separation: int): seq<EqualLevel> {
    Sort(BySecondConfirmation(),
         KindLevels(swings, High, atr, tolerance, separation) + KindLevels(swings, Low, atr, tolerance, separation))
  }

  method LevelsOfCandidates(candidates: seq<Swing>, atr: seq<Option<real>>, tolerance: real, separation: int)
    returns (levels: seq<EqualLevel>)
    ensures levels == PairLevels(candidates, atr, tolerance, separation)
  {
    hide LevelOf;
    levels := [];
    var j := 1;
    while j < |candidates|
      invariant 1 <= j && (|candidates| > 0 ==> j <= |candidates|)
      invariant levels == if |candidates| > 0 then PairLevels(candidates[..j], atr, tolerance, separation) else []
    {
      assert candidates[..j + 1][..j] == candidates[..j];
      levels := levels + LevelOf(candidates[j - 1], candidates[j], atr, tolerance, separation);
      j := j + 1;
    }
    assert |candidates| > 0 ==> candidates[..j] == candidates;
  }

  method DetectEqualLevels(swings: seq<Swing>, atr: seq<Option<real>>, tolerance: real,
                           separation: int) returns (levels: seq<EqualLevel>)
    requires tolerance >= 0.0 && separation >= 1
    ensures levels == EqualLevels(swings, atr, tolerance, separation)
  {
    hide Sort, Filter, PairLevels;
    levels := [];
    var kinds := [High, Low];
    for k := 0 to 2
      invariant levels == (if k > 0 then KindLevels(swings, High, atr, tolerance, separation) else [])
                          + (if k > 1 then KindLevels(swings, Low, atr, tolerance, separation) else [])
    {
      var candidates := Sort(ByIndex(), Filter(OfKind(kinds[k]), swings));
      var found := LevelsOfCandidates(candidates, atr, tolerance, separation);
      levels := levels + found;
    }
    levels := Sort(BySecondConfirmation(), levels);
  }

  // ---------- no look-ahead for levels ----------

  function ConfirmedBefore(n: nat): EqualLevel -> bool {
    (l: EqualLevel) => l.second.confirmation < n
  }

  function ConfirmedFrom(n: nat): EqualLevel -> bool {
    (l: EqualLevel) => l.second.confirmation >= n
  }

  lemma {:induction false} SortedLevelsSplit(s: seq<EqualLevel>, n: nat)
    requires Sorted(BySecondConfirmation(), s)
    ensures s == Filter(ConfirmedBefore(n), s) + Filter(ConfirmedFrom(n), s)
  {
    if s != [] {
      SortedLevelsSplit(s[1..], n);
      if s[0].second.confirmation >= n {
        forall l | l in s ensures !ConfirmedBefore(n)(l) {
          var i :| 0 <= i < |s| && s[i] == l;
          assert i > 0 ==> BySecondConfirmation()(s[0], s[i]);
        }
        FilterNone(ConfirmedBefore(n), s);
        FilterNone(ConfirmedBefore(n), s[1..]);
      }
    }
  }

  lemma LevelOfCausal(first: Swing, second: Swing, atr: seq<Option<real>>, n: nat, tolerance: real, separation: int)
    requires n <= |atr| && second.confirmation < n
    ensures LevelOf(first, second, atr[..n], tolerance, separation)
            == LevelOf(first, second, atr, tolerance, separation)
    ensures forall l :: l in LevelOf(first, second, atr, tolerance, separation) ==> ConfirmedBefore(n)(l)
  {
    hide Scaled;
    assert atr[..n][second.confirmation] == atr[second.confirmation];
  }

  lemma {:induction false} EarlyPairs(early: seq<Swing>, atr: seq<Option<real>>, n: nat, tolerance: real,
                                      separation: int)
    requires n <= |atr| && forall s :: s in early ==> s.confirmation < n
    ensures PairLevels(early, atr[..n], tolerance, separation) == PairLevels(early, atr, tolerance, separation)
    ensures forall l :: l in PairLevels(early, atr, tolerance, separation) ==> ConfirmedBefore(n)(l)
    decreases |early|
  {
    hide LevelOf, ConfirmedBefore;
    if |early| >= 2 {
      EarlyPairs(early[..|early| - 1], atr, n, tolerance, separation);
      assert early[|early| - 1] in early;
      LevelOfCausal(early[|early| - 2], early[|early| - 1], atr, n, tolerance, separation);
    }
  }

  lemma LevelIsLate(first: Swing, second: Swing, atr: seq<Option<real>>, n: nat, tolerance: real, separation: int)
    requires second.confirmation >= n
    ensures forall l :: l in LevelOf(first, second, atr, tolerance, separation) ==> !ConfirmedBefore(n)(l)
  {
    hide Scaled;
  }

  lemma {:induction false} LatePairs(early: seq<Swing>, late: seq<Swing>, atr: seq<Option<real>>, n: nat,
                                     tolerance: real, separation: int)
    requires forall s :: s in late ==> s.confirmation >= n
    ensures var before, all := PairLevels(early, atr, tolerance, separation),
            PairLevels(early + late, atr, tolerance, separation);
            before <= all && forall l :: l in all[|before|..] ==> !ConfirmedBefore(n)(l)
    decreases |late|
  {
    hide LevelOf, ConfirmedBefore;
    if late == [] {
      assert early + late == early;
    } else {
      var shorter, last := early + late[..|late| - 1], late[|late| - 1];
      LatePairs(early, late[..|late| - 1], atr, n, tolerance, separation);
      assert last in late && (early + late)[..|early + late| - 1] == shorter;
      var before, most := PairLevels(early, atr, tolerance, separation),
        PairLevels(shorter, atr, tolerance, separation);
      var all := PairLevels(early + late, atr, tolerance, separation);
      if |early + late| >= 2 {
        var added := LevelOf(shorter[|shorter| - 1], last, atr, tolerance, separation);
        LevelIsLate(shorter[|shorter| - 1], last, atr, n, tolerance, separation);
        assert all == most + added;
        assert all[|before|..] == most[|before|..] + added;
      }
    }
  }

  lemma SwingsByIndex(candles: seq<Candle>, lookback: nat)
    ensures Sorted(ByIndex(), AllSwings(candles, lookback))
  {
    hide SwingsBefore;
    var swings := AllSwings(candles, lookback);
    if |candles| >= lookback * 2 + 1 {
      SwingsInOrder(candles, lookback, |candles| - lookback);
      SwingShapes(candles, lookback, |candles| - lookback);
    }
    forall i, j | 0 <= i < j < |swings| ensures ByIndex()(swings[i], swings[j]) {
      assert swings[i] in swings && swings[j] in swings && SwingOrder()(swings[i], swings[j]);
    }
  }

  /** Sorting the swings of one kind by index changes nothing: the detector lists swings in that order already. */
  lemma KindAlreadySorted(candles: seq<Candle>, lookback: nat, kind: SwingKind)
    ensures var swings := AllSwings(candles, lookback);
            Sort(ByIndex(), Filter(OfKind(kind), swings)) == Filter(OfKind(kind), swings)
  {
    hide AllSwings, ByIndex, Sort, Filter;
    var swings := AllSwings(candles, lookback);
    SwingsByIndex(candles, lookback);
    LevelOrderIsPreorder();
    SortOfSorted(ByIndex(), swings);
    SortFilters(ByIndex(), OfKind(kind), swings);
  }

  lemma KindLevelsCausal(candles: seq<Candle>, lookback: nat, n: nat, kind: SwingKind, atr: seq<Option<real>>,
                         tolerance: real, separation: int)
    requires n <= |candles| == |atr|
    ensures Filter(ConfirmedBefore(n), KindLevels(AllSwings(candles, lookback), kind, atr, tolerance, separation))
            == KindLevels(AllSwings(candles[..n], lookback), kind, atr[..n], tolerance, separation)
  {
    hide PairLevels, Sort, AllSwings, Filter;
    var early, all := AllSwings(candles[..n], lookback), AllSwings(candles, lookback);
    SwingsCausal(candles, lookback, n);
    KindAlreadySorted(candles, lookback, kind);
    KindAlreadySorted(candles[..n], lookback, kind);
    assert all == early + all[|early|..];
    FilterConcat(OfKind(kind), early, all[|early|..]);
    var e, l := Filter(OfKind(kind), early), Filter(OfKind(kind), all[|early|..]);
    EarlyPairs(e, atr, n, tolerance, separation);
    LatePairs(e, l, atr, n, tolerance, separation);
    OnlyEarly(PairLevels(e, atr, tolerance, separation), PairLevels(e + l, atr, tolerance, separation), n);
  }

  lemma OnlyEarly(before: seq<EqualLevel>, levels: seq<EqualLevel>, n: nat)
    requires before <= levels && forall l :: l in before ==> ConfirmedBefore(n)(l)
    requires forall l :: l in levels[|before|..] ==> !ConfirmedBefore(n)(l)
    ensures Filter(ConfirmedBefore(n), levels) == before
  {
    assert levels == before + levels[|before|..];
    FilterConcat(ConfirmedBefore(n), before, levels[|before|..]);
    FilterAll(ConfirmedBefore(n), before);
    FilterNone(ConfirmedBefore(n), levels[|before|..]);
  }

  /** The equal levels known after n candles are the full run's first levels. */
  lemma LevelsCausal(candles: seq<Candle>, lookback: nat, n: nat, atr: seq<Option<real>>, tolerance: real,
                     separation: int)
    requires n <= |candles| == |atr|
    ensures var early := EqualLevels(AllSwings(candles[..n], lookback), atr[..n], tolerance, separation);
            var all := EqualLevels(AllSwings(candles, lookback), atr, tolerance, separation);
            early <= all && forall l :: l in all[|early|..] ==> l.second.confirmation >= n
  {
    hide KindLevels, AllSwings;
    KindLevelsCausal(candles, lookback, n, High, atr, tolerance, separation);
    KindLevelsCausal(candles, lookback, n, Low, atr, tolerance, separation);
    var swings := AllSwings(candles, lookback);
    var high, low := KindLevels(swings, High, atr, tolerance, separation),
      KindLevels(swings, Low, atr, tolerance, separation);
    FilterConcat(ConfirmedBefore(n), high, low);
    LevelOrderIsPreorder();
    SortFilters(BySecondConfirmation(), ConfirmedBefore(n), high + low);
    SortSorts(BySecondConfirmation(), high + low);
    SortedLevelsSplit(Sort(BySecondConfirmation(), high + low), n);
  }

  lemma LevelOrderIsPreorder()
    ensures TotalPreorder(BySecondConfirmation())
    ensures TotalPreorder(ByIndex())
  {
  }
}
