/** The one-candle abstraction used when the ordered trades of a minute are lost. */
module Fallback {
  import opened Wrappers
  import opened MarketModels
  import opened Lifecycle

  /** The state a caller may pass: formulas divide safely, and a waiting signal still has its original stop. */
  predicate Tracked(s: LifecycleState) {
    Divisible(s.terms) && (s.status == Active ==> s.currentStop == s.terms.stopLoss)
  }

  predicate TouchesStop(d: Direction, stop: real, c: Candle1m) {
    if d == Long then c.lowPrice <= stop else c.highPrice >= stop
  }

  predicate TouchesTarget(d: Direction, target: real, c: Candle1m) {
    if d == Long then c.highPrice >= target else c.lowPrice <= target
  }

  predicate TouchesEntry(t: Terms, c: Candle1m) {
    c.lowPrice <= t.entryUpper && c.highPrice >= t.entryLower
  }

  function SyntheticTrade(c: Candle1m, price: real): PublicTrade {
    PublicTrade("fallback", c.symbol, price, CloseTime(c) - 1, 0)
  }

  function AsAmbiguous(stopped: Action, eventType: EventType): Action {
    stopped.(target := Ambiguous, eventType := eventType)
  }

  function EvaluateClosedCandle(s: LifecycleState, c: Candle1m): seq<Action>
    requires Tracked(s)
  {
    var t := s.terms;
    if c.symbol != s.symbol then []
    else if s.status == Active then
      if OpenTime(c) >= s.expiresAt || CloseTime(c) > s.expiresAt then [Notice(Expired, FallbackSignalExpired)]
      else if !TouchesEntry(t, c) then
        if TouchesStop(t.direction, t.stopLoss, c) then [Notice(Invalidated, FallbackEntryInvalidated)] else []
      else if TouchesStop(t.direction, t.stopLoss, c) then
        var entered := s.(status := Entered);
        [AsAmbiguous(EvaluatePublicTrade(entered, SyntheticTrade(c, t.stopLoss))[0], FallbackAmbiguousStop)]
      else EvaluatePublicTrade(s, SyntheticTrade(c, t.plannedEntry))
    else if s.status == Entered then
      var stopTouched := TouchesStop(t.direction, s.currentStop, c);
      var tp1Touched := TouchesTarget(t.direction, t.takeProfit1, c);
      var tp2Touched := TouchesTarget(t.direction, t.takeProfit2, c);
      if stopTouched && (tp1Touched || tp2Touched) then
        [AsAmbiguous(EvaluatePublicTrade(s, SyntheticTrade(c, s.currentStop))[0], FallbackAmbiguousStop)]
      else if stopTouched then EvaluatePublicTrade(s, SyntheticTrade(c, s.currentStop))
      else if tp2Touched then EvaluatePublicTrade(s, SyntheticTrade(c, t.takeProfit2))
      else if tp1Touched then EvaluatePublicTrade(s, SyntheticTrade(c, t.takeProfit1))
      else []
    else if s.status == Tp1Reached then
      var stopTouched := TouchesStop(t.direction, s.currentStop, c);
      var tp2Touched := TouchesTarget(t.direction, t.takeProfit2, c);
      if stopTouched && tp2Touched then
        [AsAmbiguous(EvaluatePublicTrade(s, SyntheticTrade(c, s.currentStop))[0], FallbackAmbiguousBreakeven)]
      else if stopTouched then EvaluatePublicTrade(s, SyntheticTrade(c, s.currentStop))
      else if tp2Touched then EvaluatePublicTrade(s, SyntheticTrade(c, t.takeProfit2))
      else []
    else []
  }

  function StepCandle(p: Position, c: Candle1m): (r: Position)
    requires Tracked(p.state)
    ensures r.state.terms == p.state.terms && r.state.symbol == p.state.symbol
    ensures r.state.signalId == p.state.signalId && r.state.expiresAt == p.state.expiresAt
  {
    ApplyActions(p, EvaluateClosedCandle(p.state, c), CloseTime(c))
  }

  /** The trades one candle can summarise: inside its minute and its range, both extremes printed, in time order. */
  ghost predicate TapeOf(c: Candle1m, trades: seq<PublicTrade>) {
    && (forall i :: 0 <= i < |trades| ==>
          && trades[i].symbol == c.symbol
          && OpenTime(c) <= trades[i].executedAt < CloseTime(c)
          && c.lowPrice <= trades[i].price <= c.highPrice)
    && (forall i, j :: 0 <= i < j < |trades| ==> trades[i].executedAt <= trades[j].executedAt)
    && (exists i :: 0 <= i < |trades| && trades[i].price == c.lowPrice)
    && (exists i :: 0 <= i < |trades| && trades[i].price == c.highPrice)
  }
}
