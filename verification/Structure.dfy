/** Structure breaks: closes beyond the latest unbroken swing, BOS with the trend and CHOCH against it. */
module Structure {
  import opened Wrappers
  import opened SmcModels
  import opened Swings

  /** The running state of the break loop. */
  datatype BreakState = BreakState(trend: Option<Bias>, high: Option<Swing>, low: Option<Swing>,
    events: seq<StructureBreak>)

  const START := BreakState(None, None, None, [])

  /** The latest swing of a kind after a list of arrivals. */
  function Latest(known: Option<Swing>, arrivals: seq<Swing>, kind: SwingKind): Option<Swing> {
    if arrivals == [] then known
    else
      var last := arrivals[|arrivals| - 1];
      if last.kind == kind then Some(last) else Latest(known, arrivals[..|arrivals| - 1], kind)
  }

  function Arrive(s: BreakState, arrivals: seq<Swing>): BreakState {
    s.(high := Latest(s.high, arrivals, High), low := Latest(s.low, arrivals, Low))
  }

  predicate BreaksHigh(s: BreakState, c: Candle) {
    s.high.Some? && c.closePrice > s.high.value.price
  }

  predicate BreaksLow(s: BreakState, c: Candle) {
    s.low.Some? && c.closePrice < s.low.value.price
  }

  function Broken(s: BreakState, direction: Bias, target: Swing, i: nat, c: Candle): BreakState {
    var kind := if s.trend.Some? && s.trend.value != direction then Choch else Bos;
    BreakState(
      Some(direction),
      if direction == Bullish then None else s.high,
      if direction == Bullish then s.low else None,
      s.events + [StructureBreak(kind, direction, i, c.closeTime, c.closePrice, target, s.trend)])
  }

  /** One candle, after its arrivals: a bullish break is looked for first. */
  function BreakStep(s: BreakState, i: nat, c: Candle): BreakState {
    if BreaksHigh(s, c) then Broken(s, Bullish, s.high.value, i, c)
    else if BreaksLow(s, c) then Broken(s, Bearish, s.low.value, i, c)
    else s
  }

  /** The state in which candle n is examined, its arrivals taken in. */
  function ReadyAt(candles: seq<Candle>, swings: seq<Swing>, n: nat): BreakState
    requires n <= |candles|
    decreases n, 1
  {
    Arrive(BreaksUpTo(candles, swings, n), Arrivals(swings, n))
  }

  /** The state after the first n candles. */
  function BreaksUpTo(candles: seq<Candle>, swings: seq<Swing>, n: nat): BreakState
    requires n <= |candles|
    decreases n, 0
  {
    if n == 0 then START else BreakStep(ReadyAt(candles, swings, n - 1), n - 1, candles[n - 1])
  }

  function Breaks(candles: seq<Candle>, swings: seq<Swing>): seq<StructureBreak> {
    BreaksUpTo(candles, swings, |candles|).events
  }

  method DetectStructureBreaks(candles: seq<Candle>, swings: seq<Swing>) returns (events: seq<StructureBreak>)
    ensures events == Breaks(candles, swings)
  {
    var available := CollectArrivals(swings);
    var trend: Option<Bias>, high: Option<Swing>, low: Option<Swing> := None, None, None;
    events := [];
    for index := 0 to |candles|
      invariant BreakState(trend, high, low, events) == BreaksUpTo(candles, swings, index)
    {
      var candle := candles[index];
      var arriving := if index in available then available[index] else [];
      for k := 0 to |arriving|
        invariant BreakState(trend, high, low, events) == Arrive(BreaksUpTo(candles, swings, index), arriving[..k])
      {
        assert arriving[..k + 1][..k] == arriving[..k];
        if arriving[k].kind == High {
          high := Some(arriving[k]);
        } else {
          low := Some(arriving[k]);
        }
      }
      assert arriving[..|arriving|] == arriving;
      var direction: Option<Bias>, target: Option<Swing> := None, None;
      if high.Some? && candle.closePrice > high.value.price {
        direction, target, high := Some(Bullish), high, None;
      } else if low.Some? && candle.closePrice < low.value.price {
        direction, target, low := Some(Bearish), low, None;
      }
      if direction.Some? && target.Some? {
        var kind := if trend.Some? && trend != direction then Choch else Bos;
        events := events
          + [StructureBreak(kind, direction.value, index, candle.closeTime, candle.closePrice, target.value, trend)];
        trend := direction;
      }
    }
  }

  // ---------- no look-ahead ----------

  lemma {:induction false} BreaksUpToCausal(candles: seq<Candle>, lookback: nat, n: nat, i: nat)
    requires i <= n <= |candles|
    ensures BreaksUpTo(candles[..n], AllSwings(candles[..n], lookback), i)
            == BreaksUpTo(candles, AllSwings(candles, lookback), i)
    decreases i
  {
    hide Arrive, BreakStep, Arrivals, AllSwings;
    if i > 0 {
      BreaksUpToCausal(candles, lookback, n, i - 1);
      ArrivalsCausal(candles, lookback, n, i - 1);
    }
  }

  lemma StepAddsOne(s: BreakState, i: nat, c: Candle)
    ensures var r := BreakStep(s, i, c).events;
            s.events <= r && forall e :: e in r[|s.events|..] ==> e.index == i
  {
  }

  lemma {:induction false} EventsGrow(candles: seq<Candle>, swings: seq<Swing>, n: nat, m: nat)
    requires n <= m <= |candles|
    ensures var early, late := BreaksUpTo(candles, swings, n).events, BreaksUpTo(candles, swings, m).events;
            early <= late && forall e :: e in late[|early|..] ==> n <= e.index < m
    decreases m - n
  {
    hide Arrivals, Latest;
    if n < m {
      EventsGrow(candles, swings, n, m - 1);
      var early, middle, late := BreaksUpTo(candles, swings, n).events, BreaksUpTo(candles, swings, m - 1).events,
        BreaksUpTo(candles, swings, m).events;
      var ready := ReadyAt(candles, swings, m - 1);
      assert BreaksUpTo(candles, swings, m) == BreakStep(ready, m - 1, candles[m - 1]) && ready.events == middle;
      StepAddsOne(ready, m - 1, candles[m - 1]);
      assert late[|early|..] == middle[|early|..] + late[|middle|..];
    }
  }

  /** The breaks known after n candles are the full run's first breaks; every later one happens on a later candle. */
  lemma BreaksCausal(candles: seq<Candle>, lookback: nat, n: nat)
    requires n <= |candles|
    ensures var early, all := Breaks(candles[..n], AllSwings(candles[..n], lookback)),
            Breaks(candles, AllSwings(candles, lookback));
            && early <= all
            && (forall e :: e in early ==> e.index < n)
            && (forall e :: e in all[|early|..] ==> e.index >= n)
  {
    hide BreaksUpTo, AllSwings;
    BreaksUpToCausal(candles, lookback, n, n);
    EventsGrow(candles, AllSwings(candles, lookback), n, |candles|);
    EventsGrow(candles, AllSwings(candles, lookback), 0, n);
    NoEventsYet(candles, AllSwings(candles, lookback));
  }

  lemma NoEventsYet(candles: seq<Candle>, swings: seq<Swing>)
    ensures BreaksUpTo(candles, swings, 0) == START
  {
  }

  // ---------- the price stays between the unbroken swings ----------

  /** A close lies between the latest unbroken low and high. */
  predicate Between(s: BreakState, close: real) {
    && (s.high.Some? ==> close <= s.high.value.price)
    && (s.low.Some? ==> s.low.value.price <= close)
  }

  /** At most two swings arrive together, at most one of each kind. */
  lemma LatestOfAt(candles: seq<Candle>, k: nat, lookback: nat, s: BreakState)
    requires lookback <= k < |candles| - lookback
    ensures var r := Arrive(s, SwingsAt(candles, k, lookback));
            && r.high == (if IsSwingHigh(candles, k, lookback) then Some(HighSwing(candles, k, lookback)) else s.high)
            && r.low == (if IsSwingLow(candles, k, lookback) then Some(LowSwing(candles, k, lookback)) else s.low)
            && r.trend == s.trend && r.events == s.events
  {
    hide IsSwingHigh, IsSwingLow;
    LatestOfFew(s.high, SwingsAt(candles, k, lookback), High);
    LatestOfFew(s.low, SwingsAt(candles, k, lookback), Low);
  }

  lemma LatestOfFew(known: Option<Swing>, arrivals: seq<Swing>, kind: SwingKind)
    requires |arrivals| <= 2
    ensures |arrivals| == 0 ==> Latest(known, arrivals, kind) == known
    ensures |arrivals| == 1 ==>
              Latest(known, arrivals, kind) == if arrivals[0].kind == kind then Some(arrivals[0]) else known
    ensures |arrivals| == 2 ==>
              Latest(known, arrivals, kind)
              == if arrivals[1].kind == kind then Some(arrivals[1])
                 else if arrivals[0].kind == kind then Some(arrivals[0]) else known
  {
    if |arrivals| == 1 {
      assert arrivals[..0] == [];
    } else if |arrivals| == 2 {
      var rest := arrivals[..1];
      assert rest == [arrivals[0]] && rest[..0] == [];
      assert Latest(known, rest, kind) == if rest[0].kind == kind then Some(rest[0])
        else Latest(known, rest[..0], kind);
    }
  }

  /** After the arrivals at a candle, the swings just confirmed lie on their sides of the previous close. */
  lemma ArrivalsBracket(candles: seq<Candle>, lookback: nat, s: BreakState, i: nat)
    requires lookback >= 1 && 1 <= i <= |candles| && forall k :: 0 <= k < |candles| ==> ValidCandle(candles[k])
    requires Between(s, candles[i - 1].closePrice)
    ensures Between(Arrive(s, Arrivals(AllSwings(candles, lookback), i)), candles[i - 1].closePrice)
  {
    hide AllSwings, Arrivals, Latest;
    ArrivalsAre(candles, lookback, i);
    if 2 * lookback < i {
      LatestOfAt(candles, i - 1 - lookback, lookback, s);
      assert ValidCandle(candles[i - 1]);
    } else {
      LatestOfFew(s.high, [], High);
      LatestOfFew(s.low, [], Low);
    }
  }

  /** A step leaves the new close between the swings that stay unbroken. */
  lemma StepBrackets(s: BreakState, previousClose: real, i: nat, c: Candle)
    requires Between(s, previousClose)
    ensures Between(BreakStep(s, i, c), c.closePrice)
    ensures !(BreaksHigh(s, c) && BreaksLow(s, c))
  {
  }

  lemma {:induction false} AlwaysBetween(candles: seq<Candle>, lookback: nat, n: nat)
    requires lookback >= 1 && 1 <= n <= |candles| && forall k :: 0 <= k < |candles| ==> ValidCandle(candles[k])
    ensures Between(BreaksUpTo(candles, AllSwings(candles, lookback), n), candles[n - 1].closePrice)
    decreases n
  {
    hide AllSwings, Arrivals, Latest;
    var swings := AllSwings(candles, lookback);
    if n == 1 {
      NothingArrivesFirst(candles, lookback);
    } else {
      AlwaysBetween(candles, lookback, n - 1);
      ArrivalsBracket(candles, lookback, BreaksUpTo(candles, swings, n - 1), n - 1);
      StepBrackets(ReadyAt(candles, swings, n - 1), candles[n - 2].closePrice, n - 1, candles[n - 1]);
    }
  }

  lemma NothingArrivesFirst(candles: seq<Candle>, lookback: nat)
    requires lookback >= 1
    ensures ReadyAt(candles, AllSwings(candles, lookback), 0) == START
  {
    ArrivalsAre(candles, lookback, 0);
  }

  /**
   * Fed by the swing detector, the loop examines every candle with the previous close between the latest unbroken low
   * and high, so at most one of the two break conditions holds and their order is immaterial.
   */
  lemma BreakConditionsExclude(candles: seq<Candle>, lookback: nat, i: nat)
    requires lookback >= 1 && i < |candles| && forall k :: 0 <= k < |candles| ==> ValidCandle(candles[k])
    ensures var s := ReadyAt(candles, AllSwings(candles, lookback), i);
            && (i > 0 ==> Between(s, candles[i - 1].closePrice))
            && !(BreaksHigh(s, candles[i]) && BreaksLow(s, candles[i]))
  {
    hide AllSwings, Arrivals, Latest;
    var swings := AllSwings(candles, lookback);
    if i == 0 {
      NothingArrivesFirst(candles, lookback);
    } else {
      AlwaysBetween(candles, lookback, i);
      ArrivalsBracket(candles, lookback, BreaksUpTo(candles, swings, i), i);
      StepBrackets(ReadyAt(candles, swings, i), candles[i - 1].closePrice, i, candles[i]);
    }
  }

  // ---------- mirrored prices ----------

  function MirrorCandle(c: Candle): Candle {
    c.(openPrice := -c.openPrice, highPrice := -c.lowPrice, lowPrice := -c.highPrice, closePrice := -c.closePrice)
  }

  function Mirror(candles: seq<Candle>): (r: seq<Candle>)
    ensures |r| == |candles| && forall i :: 0 <= i < |r| ==> r[i] == MirrorCandle(candles[i])
  {
    seq(|candles|, i requires 0 <= i < |candles| => MirrorCandle(candles[i]))
  }

  function MirrorBias(b: Bias): Bias {
    if b == Bullish then Bearish else Bullish
  }

  function MirrorTrend(t: Option<Bias>): Option<Bias> {
    if t.None? then None else Some(MirrorBias(t.value))
  }

  function MirrorSwing(s: Swing): Swing {
    s.(kind := if s.kind == High then Low else High, price := -s.price)
  }

  function MirrorLatest(s: Option<Swing>): Option<Swing> {
    if s.None? then None else Some(MirrorSwing(s.value))
  }

  function MirrorBreak(e: StructureBreak): StructureBreak {
    e.(direction := MirrorBias(e.direction), closePrice := -e.closePrice,
       brokenSwing := MirrorSwing(e.brokenSwing), priorTrend := MirrorTrend(e.priorTrend))
  }

  function MirrorBreaks(events: seq<StructureBreak>): (r: seq<StructureBreak>)
    ensures |r| == |events| && forall i :: 0 <= i < |r| ==> r[i] == MirrorBreak(events[i])
  {
    seq(|events|, i requires 0 <= i < |events| => MirrorBreak(events[i]))
  }

  function MirrorState(s: BreakState): BreakState {
    BreakState(MirrorTrend(s.trend), MirrorLatest(s.low), MirrorLatest(s.high), MirrorBreaks(s.events))
  }

  lemma MirrorArrivals(candles: seq<Candle>, lookback: nat, s: BreakState, i: nat)
    requires i <= |candles|
    ensures Arrive(MirrorState(s), Arrivals(AllSwings(Mirror(candles), lookback), i))
            == MirrorState(Arrive(s, Arrivals(AllSwings(candles, lookback), i)))
  {
    hide AllSwings, Arrivals, Latest, IsSwingHigh, IsSwingLow, SwingsAt;
    ArrivalsAre(candles, lookback, i);
    ArrivalsAre(Mirror(candles), lookback, i);
    if 2 * lookback < i {
      var k := i - 1 - lookback;
      MirrorExtremes(candles, lookback, k);
      LatestOfAt(candles, k, lookback, s);
      LatestOfAt(Mirror(candles), k, lookback, MirrorState(s));
    } else {
      LatestOfFew(s.high, [], High);
      LatestOfFew(s.low, [], Low);
      LatestOfFew(MirrorState(s).high, [], High);
      LatestOfFew(MirrorState(s).low, [], Low);
    }
  }

  lemma MirrorExtremes(candles: seq<Candle>, lookback: nat, k: nat)
    ensures IsSwingHigh(Mirror(candles), k, lookback) <==> IsSwingLow(candles, k, lookback)
    ensures IsSwingLow(Mirror(candles), k, lookback) <==> IsSwingHigh(candles, k, lookback)
  {
  }

  lemma MirrorStep(s: BreakState, i: nat, c: Candle)
    requires !(BreaksHigh(s, c) && BreaksLow(s, c))
    ensures BreakStep(MirrorState(s), i, MirrorCandle(c)) == MirrorState(BreakStep(s, i, c))
  {
    assert MirrorState(BreakStep(s, i, c)).events == BreakStep(MirrorState(s), i, MirrorCandle(c)).events;
  }

  lemma {:induction false} MirrorUpTo(candles: seq<Candle>, lookback: nat, n: nat)
    requires lookback >= 1 && n <= |candles| && forall k :: 0 <= k < |candles| ==> ValidCandle(candles[k])
    ensures BreaksUpTo(Mirror(candles), AllSwings(Mirror(candles), lookback), n)
            == MirrorState(BreaksUpTo(candles, AllSwings(candles, lookback), n))
    decreases n
  {
    hide AllSwings, Arrivals, Arrive, BreakStep, MirrorState, BreaksHigh, BreaksLow;
    if n == 0 {
      MirrorStart();
    } else {
      MirrorUpTo(candles, lookback, n - 1);
      MirrorArrivals(candles, lookback, BreaksUpTo(candles, AllSwings(candles, lookback), n - 1), n - 1);
      BreakConditionsExclude(candles, lookback, n - 1);
      MirrorStep(ReadyAt(candles, AllSwings(candles, lookback), n - 1), n - 1, candles[n - 1]);
    }
  }

  lemma MirrorStart()
    ensures MirrorState(START) == START
  {
  }

  /** Mirrored prices give mirrored breaks, one for one, although the loop looks for bullish breaks first. */
  lemma BreaksMirror(candles: seq<Candle>, lookback: nat)
    requires lookback >= 1 && forall k :: 0 <= k < |candles| ==> ValidCandle(candles[k])
    ensures Breaks(Mirror(candles), AllSwings(Mirror(candles), lookback))
            == MirrorBreaks(Breaks(candles, AllSwings(candles, lookback)))
  {
    hide BreaksUpTo, AllSwings;
    MirrorUpTo(candles, lookback, |candles|);
  }
}
