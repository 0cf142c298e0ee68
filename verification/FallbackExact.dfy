/** When the candle machine and the trade machine book the same thing, candle by candle and over whole runs. */
module FallbackExact {
  import opened Wrappers
  import opened MarketModels
  import opened Lifecycle
  import opened Fallback
  import opened FallbackConservative

  /** Equal up to the time stamps: the trade machine knows when inside the minute a fill happened. */
  predicate SameBooks(p: Position, q: Position) {
    && p.state.status == q.state.status && p.state.currentStop == q.state.currentStop
    && p.pnl == q.pnl && p.fees == q.fees && p.remaining == q.remaining
  }

  /** A waiting signal whose entry zone the range crosses also sees a trade inside that zone. */
  ghost predicate ZonePrinted(s: LifecycleState, c: Candle1m, trades: seq<PublicTrade>) {
    s.status == Active && TouchesEntry(s.terms, c) ==>
      exists i :: 0 <= i < |trades| && InEntryZone(s.terms, trades[i].price)
  }

  ghost predicate ExactOnAllTapes(p: Position, c: Candle1m)
    requires Booked(p)
  {
    forall trades | TapeOf(c, trades) && ZonePrinted(p.state, c, trades) ::
      SameBooks(RunTrades(p, trades), StepCandle(p, c))
  }

  /** The candle can trigger at most one level: expiry, entry, stop, TP1 with breakeven out of reach, or TP2. */
  predicate Decisive(s: LifecycleState, c: Candle1m)
    requires WellFormed(s)
  {
    var t := s.terms;
    match s.status
    case Active =>
      && !(OpenTime(c) < s.expiresAt < CloseTime(c))
      && (CloseTime(c) <= s.expiresAt && TouchesEntry(t, c) ==>
            !TouchesStop(t.direction, t.stopLoss, c) && !TouchesTarget(t.direction, t.takeProfit1, c))
    case Entered =>
      TouchesTarget(t.direction, t.takeProfit1, c) ==>
        !TouchesStop(t.direction, t.stopLoss, c) && !TouchesStop(t.direction, Breakeven(t), c)
    case Tp1Reached =>
      !(TouchesStop(t.direction, Breakeven(t), c) && TouchesTarget(t.direction, t.takeProfit2, c))
    case _ => true
  }

  lemma BookedAlike(p: Position, q: Position)
    requires Booked(p) && Booked(q) && p.state.terms == q.state.terms && p.state.status == q.state.status
    ensures SameBooks(p, q)
  {
    hide BookedPnl, BookedFees, BookedRemaining, Breakeven;
  }

  /** The ambiguous label appears exactly when a stop and something else were both in reach. */
  lemma CandleLabel(p: Position, c: Candle1m)
    requires Booked(p) && c.symbol == p.state.symbol
    ensures StepCandle(p, c).state.status == if IsAmbiguous(p.state, c) then Ambiguous else CandleOutcome(p.state, c)
  {
    hide FullExitPnl, FullExitFees, Tp1Pnl, Tp1Fees, Tp1ThenExitPnl, Tp1ThenExitFees, EntryFee, Breakeven;
    ApplyFewActions(p, EvaluateClosedCandle(p.state, c), CloseTime(c));
  }

  predicate IsAmbiguous(s: LifecycleState, c: Candle1m)
    requires WellFormed(s)
  {
    var t := s.terms;
    match s.status
    case Active => CloseTime(c) <= s.expiresAt && TouchesEntry(t, c) && TouchesStop(t.direction, t.stopLoss, c)
    case Entered => TouchesStop(t.direction, t.stopLoss, c) && TouchesTarget(t.direction, t.takeProfit1, c)
    case Tp1Reached => TouchesStop(t.direction, Breakeven(t), c) && TouchesTarget(t.direction, t.takeProfit2, c)
    case _ => false
  }

  lemma DecisiveTape(s: LifecycleState, c: Candle1m, trades: seq<PublicTrade>)
    requires WellFormed(s) && TapeOf(c, trades) && ZonePrinted(s, c, trades) && Decisive(s, c)
    ensures FinalStatus(s, s.status, trades) == CandleOutcome(s, c)
  {
    hide NextStatus, Breakeven, BookedPnl, TapeOf, CandleOutcome, Decisive;
    match s.status {
      case Active => ActiveDecisiveTape(s, c, trades);
      case Entered => EnteredDecisiveTape(s, c, trades);
      case Tp1Reached => Tp1DecisiveTape(s, c, trades);
      case _ => SettledTape(s, c, trades);
    }
  }

  lemma SettledTape(s: LifecycleState, c: Candle1m, trades: seq<PublicTrade>)
    requires WellFormed(s) && s.status !in {Active, Entered, Tp1Reached}
    ensures FinalStatus(s, s.status, trades) == CandleOutcome(s, c)
  {
    Confined(s, s.status, trades, {s.status});
  }

  lemma EnteredDecisiveTape(s: LifecycleState, c: Candle1m, trades: seq<PublicTrade>)
    requires WellFormed(s) && s.status == Entered && TapeOf(c, trades) && Decisive(s, c)
    ensures FinalStatus(s, Entered, trades) == CandleOutcome(s, c)
  {
    hide Breakeven, BookedPnl;
    var d, t := s.terms.direction, s.terms;
    var lo := ExtremeTrade(d, c, trades, false);
    if TouchesStop(d, t.stopLoss, c) {
      Crossed(s, Entered, trades, lo, {Entered, Stopped}, {Stopped});
    } else {
      EnteredWithoutStop(s, c, trades);
      if !TouchesTarget(d, t.takeProfit2, c) && TouchesTarget(d, t.takeProfit1, c) {
        Confined(s, Entered, trades, {Entered, Tp1Reached});
      }
    }
  }

  lemma Tp1DecisiveTape(s: LifecycleState, c: Candle1m, trades: seq<PublicTrade>)
    requires WellFormed(s) && s.status == Tp1Reached && TapeOf(c, trades) && Decisive(s, c)
    ensures FinalStatus(s, Tp1Reached, trades) == CandleOutcome(s, c)
  {
    var d, t, be := s.terms.direction, s.terms, Breakeven(s.terms);
    hide Breakeven, BookedPnl;
    var hi := ExtremeTrade(d, c, trades, true);
    var lo := ExtremeTrade(d, c, trades, false);
    if TouchesStop(d, be, c) {
      Crossed(s, Tp1Reached, trades, lo, {Tp1Reached, StoppedAtBreakeven}, {StoppedAtBreakeven});
    } else if TouchesTarget(d, t.takeProfit2, c) {
      Crossed(s, Tp1Reached, trades, hi, {Tp1Reached, Tp2Completed}, {Tp2Completed});
    } else {
      Confined(s, Tp1Reached, trades, {Tp1Reached});
    }
  }

  lemma ActiveDecisiveTape(s: LifecycleState, c: Candle1m, trades: seq<PublicTrade>)
    requires WellFormed(s) && s.status == Active
    requires TapeOf(c, trades) && ZonePrinted(s, c, trades) && Decisive(s, c)
    ensures FinalStatus(s, Active, trades) == CandleOutcome(s, c)
  {
    hide Breakeven, BookedPnl;
    var lo := ExtremeTrade(s.terms.direction, c, trades, false);
    if OpenTime(c) >= s.expiresAt {
      Crossed(s, Active, trades, lo, {Active, Expired}, {Expired});
    } else if TouchesEntry(s.terms, c) {
      var k :| 0 <= k < |trades| && InEntryZone(s.terms, trades[k].price);
      Crossed(s, Active, trades, k, {Active, Entered}, {Entered});
    } else if TouchesStop(s.terms.direction, s.terms.stopLoss, c) {
      Crossed(s, Active, trades, lo, {Active, Invalidated}, {Invalidated});
    } else {
      Confined(s, Active, trades, {Active});
    }
  }

  lemma DivergingTape(s: LifecycleState, c: Candle1m) returns (trades: seq<PublicTrade>)
    requires WellFormed(s) && c.lowPrice <= c.highPrice && !Decisive(s, c)
    ensures TapeOf(c, trades) && ZonePrinted(s, c, trades)
    ensures IsAmbiguous(s, c) || FinalStatus(s, s.status, trades) != CandleOutcome(s, c)
  {
    hide BookedPnl, Breakeven, NextStatus, TapeOf;
    var d, t := s.terms.direction, s.terms;
    var lo, hi := At(c, Adverse(d, c)), At(c, Favourable(d, c));
    var zone, tp1 := At(c, Clip(c, t.plannedEntry)), At(c, Clip(c, t.takeProfit1));
    if s.status == Active && CloseTime(c) <= s.expiresAt {
      trades := [hi, lo, zone, tp1];
      assert trades[2] == zone;
      FourPrints(c, trades, 1, 0);
      if !IsAmbiguous(s, c) { EntryThenTarget(s, c, hi, lo, zone, tp1); }
    } else if s.status == Active {
      trades := [zone, lo, hi, hi];
      assert trades[0] == zone;
      FourPrints(c, trades, 1, 2);
      NeverExpiredYet(s, zone, lo, hi, hi);
    } else {
      trades := [tp1, lo, hi, hi];
      FourPrints(c, trades, 1, 2);
      if !IsAmbiguous(s, c) { TargetThenBreakeven(s, c, tp1, lo, hi); }
    }
  }

  lemma NeverExpiredYet(s: LifecycleState, w: PublicTrade, x: PublicTrade, y: PublicTrade, z: PublicTrade)
    requires WellFormed(s) && s.status == Active
    requires w.executedAt < s.expiresAt && x.executedAt < s.expiresAt && y.executedAt < s.expiresAt
             && z.executedAt < s.expiresAt
    ensures FinalStatus(s, Active, [w, x, y, z]) != Expired
  {
    hide BookedPnl, Breakeven;
    FinalOfFour(s, Active, w, x, y, z);
  }

  /** From equal books, a decisive candle and any of its tapes lead to equal books. */
  lemma DecisiveStep(p: Position, q: Position, c: Candle1m, trades: seq<PublicTrade>)
    requires Booked(p) && Booked(q) && SameBooks(p, q) && c.symbol == p.state.symbol == q.state.symbol
    requires p.state.terms == q.state.terms && p.state.expiresAt == q.state.expiresAt
    requires TapeOf(c, trades) && ZonePrinted(p.state, c, trades) && Decisive(p.state, c)
    ensures Booked(StepCandle(p, c)) && Booked(RunTrades(q, trades))
    ensures SameBooks(StepCandle(p, c), RunTrades(q, trades))
  {
    hide BookedPnl, Breakeven;
    CandleLabel(p, c);
    CandleBooks(p, c);
    DecisiveTape(p.state, c, trades);
    SameTermsSameFinal(p.state, q.state, q.state.status, trades);
    RunFollowsStatus(q, trades);
    RunKeepsBooks(q, trades);
    BookedAlike(StepCandle(p, c), RunTrades(q, trades));
  }

  /** One candle books what every tape inside it books if and only if it is decisive. */
  lemma CandleExactIff(p: Position, c: Candle1m)
    requires Booked(p) && c.symbol == p.state.symbol && c.lowPrice <= c.highPrice
    ensures ExactOnAllTapes(p, c) <==> Decisive(p.state, c)
  {
    CandleLabel(p, c);
    CandleBooks(p, c);
    if Decisive(p.state, c) {
      forall trades | TapeOf(c, trades) && ZonePrinted(p.state, c, trades)
        ensures SameBooks(RunTrades(p, trades), StepCandle(p, c))
      {
        DecisiveStep(p, p, c, trades);
      }
    } else {
      var trades := DivergingTape(p.state, c);
      RunFollowsStatus(p, trades);
      RunNeverAmbiguous(p, trades);
      assert !SameBooks(RunTrades(p, trades), StepCandle(p, c));
    }
  }

  lemma RunNeverAmbiguous(p: Position, trades: seq<PublicTrade>)
    requires Booked(p)
    ensures RunTrades(p, trades).state.status != Ambiguous
  {
    RunKeepsBooks(p, trades);
  }

  // ---------- whole runs ----------

  function RunCandles(p: Position, candles: seq<Candle1m>): (r: Position)
    requires Booked(p)
    decreases |candles|
  {
    if candles == [] then p
    else
      var q := StepCandle(p, candles[0]);
      if Booked(q) then RunCandles(q, candles[1..]) else q
  }

  function Concat(tapes: seq<seq<PublicTrade>>): seq<PublicTrade> {
    if tapes == [] then [] else tapes[0] + Concat(tapes[1..])
  }

  /** Every candle of the run is decisive in the state the run is in when the candle arrives. */
  ghost predicate DecisiveRun(p: Position, candles: seq<Candle1m>, tapes: seq<seq<PublicTrade>>)
    requires Booked(p) && |candles| == |tapes|
    decreases |candles|
  {
    candles == [] ||
    var c := candles[0];
    && c.symbol == p.state.symbol && TapeOf(c, tapes[0]) && ZonePrinted(p.state, c, tapes[0]) && Decisive(p.state, c)
    && (Booked(StepCandle(p, c)) ==> DecisiveRun(StepCandle(p, c), candles[1..], tapes[1..]))
  }

  lemma {:induction false} CandleRunRefinesTradeRunFrom(p: Position, q: Position, candles: seq<Candle1m>,
                                                         tapes: seq<seq<PublicTrade>>)
    requires Booked(p) && Booked(q) && SameBooks(p, q) && p.state.symbol == q.state.symbol
    requires p.state.terms == q.state.terms && p.state.expiresAt == q.state.expiresAt
    requires |candles| == |tapes| && DecisiveRun(p, candles, tapes)
    ensures SameBooks(RunCandles(p, candles), RunTrades(q, Concat(tapes)))
    decreases |candles|
  {
    hide BookedPnl, Breakeven, Decisive;
    if candles != [] {
      DecisiveStep(p, q, candles[0], tapes[0]);
      RunTradesConcat(q, tapes[0], Concat(tapes[1..]));
      CandleRunRefinesTradeRunFrom(StepCandle(p, candles[0]), RunTrades(q, tapes[0]), candles[1..], tapes[1..]);
    }
  }

  /**
   * Over any run of decisive candles the candle machine ends with the status, profit, fees, stop and open quantity of
   * the trade machine, whatever the trades inside each candle were and in whatever order they printed.
   */
  lemma CandleRunRefinesTradeRun(p: Position, candles: seq<Candle1m>, tapes: seq<seq<PublicTrade>>)
    requires Booked(p) && |candles| == |tapes| && DecisiveRun(p, candles, tapes)
    ensures SameBooks(RunCandles(p, candles), RunTrades(p, Concat(tapes)))
  {
    CandleRunRefinesTradeRunFrom(p, p, candles, tapes);
  }
}
