/** Displacement candles: a large body, a large range and a close near the extreme. */
module Displacements {
  import opened Wrappers
  import opened SmcModels
  import opened SmcStatistics

  datatype DisplacementSettings = DisplacementSettings(period: nat, bodyRatio: real, rangeRatio: real,
    closeFraction: real)

  function Ranges(candles: seq<Candle>): (r: seq<real>)
    ensures |r| == |candles| && forall i :: 0 <= i < |r| ==> r[i] == candles[i].Range()
  {
    seq(|candles|, i requires 0 <= i < |candles| => candles[i].Range())
  }

  /** How far into its range the candle closed, in the direction it went. */
  function ClosePosition(c: Candle): real
    requires c.Range() != 0.0
  {
    (if c.Direction() == Some(Bullish) then c.closePrice - c.lowPrice else c.highPrice - c.closePrice) / c.Range()
  }

  predicate Displaces(c: Candle, atr: real, average: real, s: DisplacementSettings) {
    && c.Direction().Some? && c.Range() != 0.0
    && c.Body() >= atr * s.bodyRatio
    && c.Range() >= average * s.rangeRatio
    && ClosePosition(c) >= s.closeFraction
  }

  function DisplacementAt(c: Candle, i: nat, atr: Option<real>, average: Option<real>,
                          s: DisplacementSettings): seq<Displacement> {
    if atr.Some? && average.Some? && Displaces(c, atr.value, average.value, s)
    then [Displacement(c.Direction().value, i, c.closeTime, c.Body(), c.Range(), atr.value, average.value)]
    else []
  }

  function DisplacementsUpTo(candles: seq<Candle>, atr: seq<Option<real>>, s: DisplacementSettings,
                             n: nat): seq<Displacement>
    requires s.period >= 1 && n <= |candles| <= |atr|
  {
    if n == 0 then []
    else DisplacementsUpTo(candles, atr, s, n - 1)
         + DisplacementAt(candles[n - 1], n - 1, atr[n - 1], MeanAt(Ranges(candles), s.period, n - 1), s)
  }

  method DetectDisplacements(candles: seq<Candle>, atr: seq<Option<real>>,
                             s: DisplacementSettings) returns (events: seq<Displacement>)
    requires s.period >= 1 && |candles| <= |atr|
    ensures events == DisplacementsUpTo(candles, atr, s, |candles|)
  {
    hide MeanAt;
    var averages := RollingMean(Ranges(candles), s.period);
    events := [];
    for index := 0 to |candles|
      invariant events == DisplacementsUpTo(candles, atr, s, index)
    {
      var candle, measured, average := candles[index], atr[index], averages[index];
      var direction := candle.Direction();
      if measured.None? || average.None? || direction.None? || candle.Range() == 0.0 {
        continue;
      }
      if candle.Body() < measured.value * s.bodyRatio {
        continue;
      }
      if candle.Range() < average.value * s.rangeRatio {
        continue;
      }
      var position :=
        if direction == Some(Bullish) then (candle.closePrice - candle.lowPrice) / candle.Range()
        else (candle.highPrice - candle.closePrice) / candle.Range();
      if position < s.closeFraction {
        continue;
      }
      events := events + [Displacement(direction.value, index, candle.closeTime, candle.Body(), candle.Range(),
                                       measured.value, average.value)];
    }
  }

  // ---------- no look-ahead ----------

  lemma {:induction false} DisplacementsUpToCausal(
      candles: seq<Candle>, atr: seq<Option<real>>, s: DisplacementSettings, n: nat, i: nat)
    requires s.period >= 1 && i <= n <= |candles| <= |atr|
    ensures DisplacementsUpTo(candles[..n], atr[..n], s, i) == DisplacementsUpTo(candles, atr, s, i)
    decreases i
  {
    hide MeanAt, DisplacementAt;
    if i > 0 {
      DisplacementsUpToCausal(candles, atr, s, n, i - 1);
      assert Ranges(candles[..n]) == Ranges(candles)[..n];
      MeanCausal(Ranges(candles), s.period, n, i - 1);
    }
  }

  lemma {:induction false} DisplacementsGrow(
      candles: seq<Candle>, atr: seq<Option<real>>, s: DisplacementSettings, n: nat, m: nat)
    requires s.period >= 1 && n <= m <= |candles| <= |atr|
    ensures var early, late := DisplacementsUpTo(candles, atr, s, n), DisplacementsUpTo(candles, atr, s, m);
            && early <= late
            && (forall d :: d in early ==> d.index < n)
            && (forall d :: d in late[|early|..] ==> n <= d.index < m)
    decreases m
  {
    hide MeanAt, Displaces, Ranges;
    if n < m {
      DisplacementsGrow(candles, atr, s, n, m - 1);
      var early, most := DisplacementsUpTo(candles, atr, s, n), DisplacementsUpTo(candles, atr, s, m - 1);
      var added := DisplacementAt(candles[m - 1], m - 1, atr[m - 1], MeanAt(Ranges(candles), s.period, m - 1), s);
      assert (most + added)[|early|..] == most[|early|..] + added;
    } else if n > 0 {
      DisplacementsGrow(candles, atr, s, n - 1, n - 1);
    }
  }

  /** The displacements known after n candles are the full run's first displacements. */
  lemma DisplacementsCausal(candles: seq<Candle>, atr: seq<Option<real>>, s: DisplacementSettings, n: nat)
    requires s.period >= 1 && n <= |candles| == |atr|
    ensures var early := DisplacementsUpTo(candles[..n], atr[..n], s, n);
            var all := DisplacementsUpTo(candles, atr, s, |candles|);
            && early <= all
            && (forall d :: d in early ==> d.index < n)
            && (forall d :: d in all[|early|..] ==> d.index >= n)
  {
    hide DisplacementsUpTo;
    DisplacementsUpToCausal(candles, atr, s, n, n);
    DisplacementsGrow(candles, atr, s, n, |candles|);
  }
}
