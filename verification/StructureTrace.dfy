/** What the reported breaks and sweeps are: real, chained to each other, and never twice of the same swing. */
module StructureTrace {
  import opened Wrappers
  import opened Sequences
  import opened SmcModels
  import opened Swings
  import opened Structure
  import opened Liquidity

  predicate Beyond(d: Bias, close: real, level: real) {
    if d == Bullish then close > level else close < level
  }

  function KindBroken(d: Bias): SwingKind {
    if d == Bullish then High else Low
  }

  /** A close beyond a swing of the right kind that was confirmed on an earlier candle. */
  predicate RealBreak(e: StructureBreak, candles: seq<Candle>, swings: seq<Swing>) {
    && e.index < |candles| && e.time == candles[e.index].closeTime && e.closePrice == candles[e.index].closePrice
    && e.brokenSwing in swings && e.brokenSwing.kind == KindBroken(e.direction) && e.brokenSwing.confirmation < e.index
    && Beyond(e.direction, e.closePrice, e.brokenSwing.price)
    && (e.kind == Choch <==> e.priorTrend.Some? && e.priorTrend.value != e.direction)
  }

  /** The trend an event starts from is the direction of the event before it. */
  function TrendBefore(events: seq<StructureBreak>, k: nat): Option<Bias>
    requires k <= |events|
  {
    if k == 0 then None else Some(events[k - 1].direction)
  }

  predicate Chained(events: seq<StructureBreak>) {
    forall k :: 0 <= k < |events| ==> events[k].priorTrend == TrendBefore(events, k)
  }

  /** In each direction the broken swings get younger, so none is broken twice. */
  predicate NeverTwice(events: seq<StructureBreak>) {
    forall j, k :: 0 <= j < k < |events| && events[j].direction == events[k].direction ==>
                     events[j].brokenSwing.confirmation < events[k].brokenSwing.confirmation
  }

  /** A swing waiting to be broken is confirmed, and younger than all broken in its direction. */
  predicate Waiting(target: Option<Swing>, d: Bias, events: seq<StructureBreak>, swings: seq<Swing>, n: nat) {
    target.Some? ==>
      && target.value in swings && target.value.kind == KindBroken(d) && target.value.confirmation < n
      && forall k :: 0 <= k < |events| && events[k].direction == d ==>
            events[k].brokenSwing.confirmation < target.value.confirmation
  }

  predicate EventsHold(events: seq<StructureBreak>, candles: seq<Candle>, swings: seq<Swing>, n: nat) {
    && (forall k :: 0 <= k < |events| ==> RealBreak(events[k], candles, swings) && events[k].index < n)
    && Chained(events) && NeverTwice(events)
  }

  predicate TraceHolds(s: BreakState, candles: seq<Candle>, swings: seq<Swing>, n: nat) {
    && EventsHold(s.events, candles, swings, n)
    && s.trend == TrendBefore(s.events, |s.events|)
    && Waiting(s.high, Bullish, s.events, swings, n) && Waiting(s.low, Bearish, s.events, swings, n)
  }

  lemma {:induction false} LatestIsNew(known: Option<Swing>, arrivals: seq<Swing>, kind: SwingKind)
    ensures var l := Latest(known, arrivals, kind);
            l == known || (l.Some? && l.value in arrivals && l.value.kind == kind)
    decreases |arrivals|
  {
    if arrivals != [] {
      LatestIsNew(known, arrivals[..|arrivals| - 1], kind);
    }
  }

  lemma ArrivalWaits(target: Option<Swing>, d: Bias, events: seq<StructureBreak>, candles: seq<Candle>,
                     swings: seq<Swing>, n: nat)
    requires EventsHold(events, candles, swings, n) && Waiting(target, d, events, swings, n)
    ensures Waiting(Latest(target, Arrivals(swings, n), KindBroken(d)), d, events, swings, n)
  {
    hide Chained, NeverTwice, Latest;
    LatestIsNew(target, Arrivals(swings, n), KindBroken(d));
  }

  lemma ChainExtends(events: seq<StructureBreak>, e: StructureBreak)
    requires Chained(events) && e.priorTrend == TrendBefore(events, |events|)
    ensures Chained(events + [e])
  {
    var more := events + [e];
    forall k | 0 <= k < |more| ensures more[k].priorTrend == TrendBefore(more, k) {
      assert k < |events| ==> more[k] == events[k] && TrendBefore(more, k) == TrendBefore(events, k);
    }
  }

  lemma YoungestExtends(events: seq<StructureBreak>, e: StructureBreak, swings: seq<Swing>, n: nat)
    requires NeverTwice(events) && Waiting(Some(e.brokenSwing), e.direction, events, swings, n)
    ensures NeverTwice(events + [e])
  {
  }

  lemma BreakExtends(events: seq<StructureBreak>, e: StructureBreak, candles: seq<Candle>, swings: seq<Swing>, n: nat)
    requires EventsHold(events, candles, swings, n) && RealBreak(e, candles, swings) && e.index == n
    requires e.priorTrend == TrendBefore(events, |events|)
    requires Waiting(Some(e.brokenSwing), e.direction, events, swings, n)
    ensures EventsHold(events + [e], candles, swings, n + 1)
  {
    hide RealBreak, Chained, NeverTwice, Waiting;
    ChainExtends(events, e);
    YoungestExtends(events, e, swings, n);
  }

  /** The swing left waiting on the other side stays waiting after a break. */
  lemma OtherSideWaits(target: Option<Swing>, d: Bias, events: seq<StructureBreak>, e: StructureBreak,
                       swings: seq<Swing>, n: nat)
    requires Waiting(target, d, events, swings, n) && e.direction != d
    ensures Waiting(target, d, events + [e], swings, n + 1)
  {
  }

  lemma StepHolds(s: BreakState, candles: seq<Candle>, swings: seq<Swing>, n: nat)
    requires n < |candles| && TraceHolds(s, candles, swings, n)
    ensures TraceHolds(BreakStep(s, n, candles[n]), candles, swings, n + 1)
  {
    hide EventsHold, Waiting;
    var c, r := candles[n], BreakStep(s, n, candles[n]);
    if BreaksHigh(s, c) || BreaksLow(s, c) {
      var e := r.events[|s.events|];
      assert r.events == s.events + [e];
      WaitingTarget(if BreaksHigh(s, c) then s.high else s.low, e.direction, s.events, swings, n);
      BreakExtends(s.events, e, candles, swings, n);
      if BreaksHigh(s, c) {
        OtherSideWaits(s.low, Bearish, s.events, e, swings, n);
        NothingWaits(Bullish, r.events, swings, n + 1);
      } else {
        OtherSideWaits(s.high, Bullish, s.events, e, swings, n);
        NothingWaits(Bearish, r.events, swings, n + 1);
      }
    } else {
      Later(s, candles, swings, n);
    }
  }

  lemma WaitingTarget(target: Option<Swing>, d: Bias, events: seq<StructureBreak>, swings: seq<Swing>, n: nat)
    requires target.Some? && Waiting(target, d, events, swings, n)
    ensures target.value in swings && target.value.kind == KindBroken(d) && target.value.confirmation < n
  {
  }

  lemma NothingWaits(d: Bias, events: seq<StructureBreak>, swings: seq<Swing>, n: nat)
    ensures Waiting(None, d, events, swings, n)
  {
  }

  lemma Later(s: BreakState, candles: seq<Candle>, swings: seq<Swing>, n: nat)
    requires TraceHolds(s, candles, swings, n)
    ensures TraceHolds(s, candles, swings, n + 1)
  {
    hide RealBreak, Chained, NeverTwice;
  }

  lemma {:induction false} AlwaysHolds(candles: seq<Candle>, swings: seq<Swing>, n: nat)
    requires n <= |candles|
    ensures TraceHolds(BreaksUpTo(candles, swings, n), candles, swings, n)
  {
    hide BreakStep, Latest, EventsHold, Waiting;
    if n == 0 {
      NoBreaks(candles, swings);
    } else {
      AlwaysHolds(candles, swings, n - 1);
      var s := BreaksUpTo(candles, swings, n - 1);
      ArrivalWaits(s.high, Bullish, s.events, candles, swings, n - 1);
      ArrivalWaits(s.low, Bearish, s.events, candles, swings, n - 1);
      StepHolds(ReadyAt(candles, swings, n - 1), candles, swings, n - 1);
    }
  }

  lemma NoBreaks(candles: seq<Candle>, swings: seq<Swing>)
    ensures TraceHolds(START, candles, swings, 0)
  {
  }

  /**
   * Every reported break is a close beyond a confirmed swing of the right kind; its prior trend is the direction of the
   * break before it, a change of character exactly when it turns that trend; and no swing is broken twice.
   */
  lemma BreaksAreReal(candles: seq<Candle>, swings: seq<Swing>)
    ensures EventsHold(Breaks(candles, swings), candles, swings, |candles|)
  {
    hide BreaksUpTo, EventsHold;
    AlwaysHolds(candles, swings, |candles|);
  }

  // ---------- sweeps ----------

  /** A wick beyond a confirmed swing and a close back inside. */
  predicate RealSweep(e: LiquiditySweep, candles: seq<Candle>, swings: seq<Swing>) {
    && e.index < |candles| && e.time == candles[e.index].closeTime
    && e.sweptSwing in swings && e.sweptSwing.confirmation < e.index && e.level == e.sweptSwing.price
    && (if e.direction == Bearish
        then e.sweptSwing.kind == High && e.extremePrice == candles[e.index].highPrice
             && e.extremePrice > e.level > candles[e.index].closePrice
        else e.sweptSwing.kind == Low && e.extremePrice == candles[e.index].lowPrice
             && e.extremePrice < e.level < candles[e.index].closePrice)
  }

  predicate Known(target: Option<Swing>, kind: SwingKind, swings: seq<Swing>, n: nat) {
    target.Some? ==> target.value in swings && target.value.kind == kind && target.value.confirmation < n
  }

  predicate SweepsHold(s: SweepState, candles: seq<Candle>, swings: seq<Swing>, n: nat) {
    && (forall e :: e in s.events ==> RealSweep(e, candles, swings))
    && Known(s.high, High, swings, n) && Known(s.low, Low, swings, n)
  }

  lemma ArrivalKnown(target: Option<Swing>, kind: SwingKind, swings: seq<Swing>, n: nat)
    requires Known(target, kind, swings, n)
    ensures Known(Latest(target, Arrivals(swings, n), kind), kind, swings, n)
  {
    hide Latest;
    LatestIsNew(target, Arrivals(swings, n), kind);
  }

  lemma {:induction false} SweepsAlwaysHold(candles: seq<Candle>, swings: seq<Swing>, n: nat)
    requires n <= |candles|
    ensures SweepsHold(SweepsUpTo(candles, swings, n), candles, swings, n)
  {
    hide Latest, Arrivals;
    if n > 0 {
      SweepsAlwaysHold(candles, swings, n - 1);
      var s := SweepsUpTo(candles, swings, n - 1);
      ArrivalKnown(s.high, High, swings, n - 1);
      ArrivalKnown(s.low, Low, swings, n - 1);
    }
  }

  /** Every reported sweep takes out a confirmed swing with its wick and closes back inside. */
  lemma SweepsAreReal(candles: seq<Candle>, swings: seq<Swing>)
    ensures forall e :: e in Sweeps(candles, swings) ==> RealSweep(e, candles, swings)
  {
    hide SweepsUpTo, RealSweep;
    SweepsAlwaysHold(candles, swings, |candles|);
  }

  // ---------- equal levels ----------

  /**
   * Two swings of one kind near enough in bars and in price, measured by the range known when the second is confirmed.
   */
  predicate RealLevel(l: EqualLevel, first: Swing, second: Swing, atr: seq<Option<real>>, tolerance: real,
                      separation: int) {
    && l == EqualLevel(first.kind, first, second, (first.price + second.price) / 2.0, l.tolerance)
    && second.index as int - first.index as int <= separation
    && second.confirmation < |atr| && atr[second.confirmation].Some?
    && l.tolerance == atr[second.confirmation].value * tolerance
    && -l.tolerance <= second.price - first.price <= l.tolerance
  }

  /** The levels of one kind are exactly those of its neighbouring swings. */
  lemma {:induction false} LevelsAreNeighbours(swings: seq<Swing>, atr: seq<Option<real>>, tolerance: real,
                                               separation: int, l: EqualLevel)
    ensures l in PairLevels(swings, atr, tolerance, separation) <==>
            exists j :: 0 < j < |swings| && RealLevel(l, swings[j - 1], swings[j], atr, tolerance, separation)
    decreases |swings|
  {
    if |swings| >= 2 {
      var most, n := swings[..|swings| - 1], |swings| - 1;
      LevelsAreNeighbours(most, atr, tolerance, separation, l);
      LevelIsReal(swings[n - 1], swings[n], atr, tolerance, separation, l);
      hide RealLevel, LevelOf;
      if exists j :: 0 < j < |most| && RealLevel(l, most[j - 1], most[j], atr, tolerance, separation) {
        var j :| 0 < j < |most| && RealLevel(l, most[j - 1], most[j], atr, tolerance, separation);
        assert RealLevel(l, swings[j - 1], swings[j], atr, tolerance, separation);
      }
      forall j | 0 < j < |swings| && RealLevel(l, swings[j - 1], swings[j], atr, tolerance, separation)
        ensures l in PairLevels(swings, atr, tolerance, separation)
      {
        if j < n {
          assert RealLevel(l, most[j - 1], most[j], atr, tolerance, separation);
        }
      }
    }
  }

  lemma LevelIsReal(first: Swing, second: Swing, atr: seq<Option<real>>, tolerance: real, separation: int,
                    l: EqualLevel)
    ensures l in LevelOf(first, second, atr, tolerance, separation) <==>
              RealLevel(l, first, second, atr, tolerance, separation)
  {
  }
}
