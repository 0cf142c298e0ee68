/** Whole runs of the lifecycle service: reconnecting, restarting, and the money of a signal from its publication on. */
module SignalRuns {
  import opened Wrappers
  import opened MarketModels
  import opened Lifecycle
  import opened Fallback
  import opened FallbackConservative
  import opened Coverage
  import opened Ledger
  import opened StateMachine
  import opened SignalPolicy
  import opened SignalStore
  import opened SignalTracking
  import opened TrackedSignals
  import opened SignalService
  import opened Resume
  import Portfolio
  import TradePlans

  // ---------- trades through the tables ----------

  /** Through the tables, trade by trade, the service computes exactly the pure trade fold. */
  lemma {:induction false} StoredReplayIsRun(s: Store, id: nat, trades: seq<PublicTrade>)
    requires Consistent(s) && Trackable(s, id)
    ensures var s' := ProcessEvents(s, id, TradeEvents(trades));
            Trackable(s', id) && View(s', id) == RunTrades(View(s, id), trades)
    decreases |trades|
  {
    hide Consistent, ProcessEvent, EvaluatePublicTrade, Divisible;
    if trades == [] {
      NoEvents(s, id);
    } else {
      EventProcesses(s, id, TradeEvent(trades[0]));
      assert trades[0..] == trades;
      FirstOfRest(s, id, trades, 0);
      StoredReplayIsRun(ProcessEvent(s, id, TradeEvent(trades[0])).value, id, trades[1..]);
    }
  }

  lemma TradeView(s: Store, id: nat, trade: PublicTrade, due: bool)
    requires Consistent(s) && Trackable(s, id)
    ensures var s' := AfterTrade(s, id, trade, due); Known(s', id) && View(s', id) == StepTrade(View(s, id), trade)
  {
    hide Consistent, ProcessEvent, EvaluatePublicTrade, Tracked;
    EventProcesses(s, id, TradeEvent(trade));
    CheckpointKeeps(ProcessEvent(s, id, TradeEvent(trade)).value, id, MarkOf(trade));
  }

  /** A proven merge leaves the position of the merged trades on top of the stored one. */
  lemma ReplayedIsRun(s: Store, s': Store, v: TrackedSignal, anchor: int, trades: seq<PublicTrade>)
    requires Replayed(s, s', v, anchor, trades)
    ensures var start, id := ReplayBase(s, v, anchor), v.state.signalId;
            Trackable(start, id) && Known(s', id) && View(s', id) == RunTrades(View(start, id), trades)
  {
    hide Consistent, ProcessEvents, RunTrades, Tracked, CheckpointTrade, ReplayBase;
    var start, id := ReplayBase(s, v, anchor), v.state.signalId;
    StoredReplayIsRun(start, id, trades);
    if trades != [] {
      CheckpointKeeps(ProcessEvents(start, id, TradeEvents(trades)), id, MarkOf(trades[|trades| - 1]));
    }
  }

  // ---------- reconnecting ----------

  /** History and stream are windows of one log, and one of them starts before the anchor. */
  ghost predicate Feeds(w: World, log: seq<PublicTrade>, a: nat, b: nat, c: nat, d: nat, symbol: string, anchor: int) {
    && ExchangeLog(log) && OfSymbol(symbol, log) && Windows(log, a, b, c, d)
    && w.rest(symbol) == log[a..b] && w.buffered(symbol, anchor) == log[c..d] && MergeFor(w, symbol, anchor).Proven?
    && (log[a].executedAt < anchor || log[c].executedAt < anchor)
  }

  /** Coverage proven from such windows replays the log from the anchor on the stored position. */
  lemma ReconnectedIsRun(s: Store, s': Store, v: TrackedSignal, symbol: string, anchor: int, w: World, now: int,
                         log: seq<PublicTrade>, a: nat, b: nat, c: nat, d: nat)
    requires Covered(s, s', v, symbol, anchor, w, now) && Feeds(w, log, a, b, c, d, symbol, anchor)
    requires FirstSince(log, anchor) <= SliceEnd(b, d)
    ensures var start, id := ReplayBase(s, v, anchor), v.state.signalId;
            && Trackable(start, id) && Known(s', id)
            && View(s', id) == RunTrades(View(start, id), log[FirstSince(log, anchor)..SliceEnd(b, d)])
  {
    hide Consistent, Trackable, ExchangeLog, MergeTradeCoverage, RunTrades, Replayed, CoverageGivenUp, AfterRecovery;
    EarlyWindowIsComplete(log, a, b, c, d, anchor);
    ReplayedIsRun(s, s', v, anchor, MergeFor(w, symbol, anchor).trades);
  }

  /**
   * Stored rows that reflect the log up to `crash`, coverage proven from an anchor before it: the rows are again those
   * of a service that never stopped when every repeated trade is harmless to the stored signal. However the log may
   * go on, this happens only then; and with nothing new in the log the rows stay as they are exactly then.
   */
  lemma RestartedServiceCatchesUp(s: Store, s': Store, v: TrackedSignal, symbol: string, anchor: int, w: World,
                                  now: int,
                             p: Position, log: seq<PublicTrade>, a: nat, b: nat, c: nat, d: nat, crash: nat)
    requires Covered(s, s', v, symbol, anchor, w, now) && Feeds(w, log, a, b, c, d, symbol, anchor)
    requires Divisible(p.state.terms) && p.state.symbol == symbol && FirstSince(log, anchor) <= crash <= SliceEnd(b, d)
    requires Known(ReplayBase(s, v, anchor), v.state.signalId)
    requires View(ReplayBase(s, v, anchor), v.state.signalId) == RunTrades(p, log[..crash])
    ensures var first, end, id := FirstSince(log, anchor), SliceEnd(b, d), v.state.signalId;
            var stored := RunTrades(p, log[..crash]);
            && Known(s', id)
            && (AllHarmless(stored.state, log[first..crash]) ==> View(s', id) == RunTrades(p, log[..end]))
            && (AllHarmless(stored.state, log[first..crash]) <==> ResumesExactly(p, log[..end], first, crash))
            && (crash == end ==> (View(s', id) == stored <==> AllHarmless(stored.state, log[first..crash])))
  {
    hide Consistent, Trackable, ExchangeLog, MergeTradeCoverage, RunTrades, AllHarmless, ResumesExactly, ReplayBase,
      Covered;
    var first, end := FirstSince(log, anchor), SliceEnd(b, d);
    ReconnectedIsRun(s, s', v, symbol, anchor, w, now, log, a, b, c, d);
    RestartWithProvenCoverage(p, log, a, b, c, d, anchor, crash);
    RepeatedOfSymbol(symbol, log, first, crash);
    RepeatIsNoOpIff(RunTrades(p, log[..crash]), log[first..crash]);
  }

  /**
   * The same when the service stopped between the two transactions of the trade `log[crash]`: TP1 is stored, TP2 is
   * not, and seeing the trade again books it.
   */
  lemma RestartedInsideTrade(s: Store, s': Store, v: TrackedSignal, symbol: string, anchor: int, w: World, now: int,
                               p: Position, log: seq<PublicTrade>, a: nat, b: nat, c: nat, d: nat, crash: nat)
    requires Covered(s, s', v, symbol, anchor, w, now) && Feeds(w, log, a, b, c, d, symbol, anchor)
    requires Booked(p) && p.state.symbol == symbol && FirstSince(log, anchor) <= crash < SliceEnd(b, d)
    requires |EvaluatePublicTrade(RunTrades(p, log[..crash]).state, log[crash])| == 2
    requires Known(ReplayBase(s, v, anchor), v.state.signalId)
    requires var before := RunTrades(p, log[..crash]);
             View(ReplayBase(s, v, anchor), v.state.signalId)
             == ApplyAction(before, EvaluatePublicTrade(before.state, log[crash])[0], log[crash].executedAt)
    ensures var first, end, id := FirstSince(log, anchor), SliceEnd(b, d), v.state.signalId;
            Known(s', id)
            && (AllHarmless(View(ReplayBase(s, v, anchor), id).state, log[first..crash]) ==>
                  View(s', id) == RunTrades(p, log[..end]))
  {
    hide Consistent, Trackable, ExchangeLog, MergeTradeCoverage, RunTrades, AllHarmless, ReplayBase, Covered,
      EvaluatePublicTrade, Booked;
    var first, end := FirstSince(log, anchor), SliceEnd(b, d);
    ReconnectedIsRun(s, s', v, symbol, anchor, w, now, log, a, b, c, d);
    var upTo := log[..end];
    assert upTo[..crash] == log[..crash] && upTo[first..] == log[first..end] && upTo[first..crash] == log[first..crash];
    ResumeInsideTrade(p, upTo, first, crash);
  }

  // ---------- runs that end elsewhere ----------

  /** Two trades of an entered signal: the first lies between stop and breakeven, the second takes TP1 only. */
  predicate Whipsaw(s: LifecycleState, early: PublicTrade, late: PublicTrade)
    requires WellFormed(s)
  {
    var t, d := s.terms, s.terms.direction;
    && s.status == Entered && early.symbol == late.symbol == s.symbol
    && early.executedAt < late.executedAt && early.tradeId != late.tradeId
    && !BeyondStop(d, t.stopLoss, early.price) && !TargetReached(d, t.takeProfit1, early.price)
    && BeyondStop(d, Breakeven(t), early.price)
    && TargetReached(d, t.takeProfit1, late.price) && !TargetReached(d, t.takeProfit2, late.price)
  }

  lemma PairIsProven(early: PublicTrade, late: PublicTrade)
    requires early.executedAt < late.executedAt && early.tradeId != late.tradeId && early.symbol == late.symbol
    ensures MergeTradeCoverage([early, late], [late], early.executedAt) == Proven([early, late])
  {
    var log := [early, late];
    assert log[0..2] == log && log[1..2] == [late];
    assert log[0].tradeId in Ids(log) && late in log && late in [late] && late.tradeId in Ids(log) * Ids([late]);
    assert Symbols(log + [late]) == {early.symbol} by {
      assert early in log + [late];
    }
    MergedIsSlice(log, 0, 2, 1, 2, early.executedAt);
    assert FirstSince(log, early.executedAt) == 0;
  }

  /**
   * The service's own checkpoints do not ensure a harmless restart. The trade between stop and breakeven is
   * checkpointed; the one that takes TP1 follows within the checkpoint interval and is not. After a lost connection
   * the proven merge replays both from the old mark, and the first one now meets the breakeven stop.
   */
  method ReconnectStopsAtBreakeven(service: SignalLifecycleService, symbol: string, early: PublicTrade,
                                   late: PublicTrade,
                                   w: World, start: int, later: int, end: int, interval: int)
    requires service.Valid() && OwnTrades(w) && symbol in service.signals && symbol !in service.coveragePending
    requires CachedAs(service.repository.Contents(), service.signals, symbol)
    requires Whipsaw(service.signals[symbol].state, early, late) && early.symbol == symbol
    requires Due(service.lastCheckpoint, symbol, start, interval) && later - start < interval
    requires w.rest(symbol) == [early, late] && w.buffered(symbol, early.executedAt) == [late]
    modifies service, service.repository
    ensures service.Valid()
    ensures var s, s', id := old(service.repository.Contents()), service.repository.Contents(),
            old(service.signals)[symbol].state.signalId;
            && Known(s, id) && Booked(View(s, id)) && RunTrades(View(s, id), [early, late]).state.status == Tp1Reached
            && Known(s', id) && s'.signals[id].status == StoppedAtBreakeven
  {
    hide Consistent, Mirrors, Loadable, OnlyFor, Booked, EvaluatePublicTrade, MergeTradeCoverage, AfterTrade,
      WellFormed, Breakeven,
      Replayed, AfterRecovery, CoverageGivenUp;
    ghost var s, id := service.repository.Contents(), service.signals[symbol].state.signalId;
    MirrorIsKnown(s, service.signals[symbol]);
    OldCheckpointDiverges(View(s, id), early, late);
    TradeView(s, id, early, true);
    service.OnTrade(early, start, interval);
    ghost var s1 := service.repository.Contents();
    TwoTrades(View(s, id), early, late);
    TradeView(s1, id, late, false);
    service.OnTrade(late, later, interval);
    ghost var s2 := service.repository.Contents();
    service.OnDisconnect(symbol);
    PairIsProven(early, late);
    ghost var v := service.signals[symbol];
    MirrorIsKnown(s2, v);
    service.OnReady(symbol, w, end);
    ReplayedIsRun(s2, service.repository.Contents(), v, early.executedAt, [early, late]);
  }

  ghost predicate CachedAs(s: Store, cache: map<string, TrackedSignal>, symbol: string)
    requires symbol in cache
  {
    var id := cache[symbol].state.signalId;
    Known(s, id) && Booked(View(s, id)) && cache[symbol].state == StateOf(s, id)
  }

  lemma TwoTrades(p: Position, early: PublicTrade, late: PublicTrade)
    requires Booked(p) && Whipsaw(p.state, early, late)
    ensures RunTrades(p, [early, late]) == StepTrade(StepTrade(p, early), late)
    ensures StepTrade(p, early) == p
  {
    hide BookedPnl, BookedFees, BookedRemaining, Breakeven;
    StepLowersRank(p, early);
    assert [early, late][1..] == [late] && [late][1..] == [];
    assert RunTrades(StepTrade(p, early), [late]) == RunTrades(StepTrade(StepTrade(p, early), late), []);
  }

  /** A recovery with one candle and an empty buffer moves the position by that candle. */
  lemma RecoveredByCandle(s: Store, id: nat, symbol: string, anchor: int, w: World, now: int, c: Candle1m)
    requires Consistent(s) && Trackable(s, id) && LostCandles(w, symbol, anchor, now) == [c]
    requires w.buffered(symbol, ReplayFrom(now)) == []
    ensures var s' := AfterRecovery(s, id, symbol, anchor, w, now);
            Known(s', id) && View(s', id) == StepEvent(View(s, id), CandleEvent(c))
  {
    hide Consistent, ProcessEvent, EvaluateClosedCandle, Tracked, RecordTrackingEvent;
    EventProcesses(s, id, CandleEvent(c));
    var closed := ProcessEvent(s, id, CandleEvent(c)).value;
    assert [c][0..] == [c] && [c][1..] == [];
    FirstCandleOfRest(s, id, [c], 0);
    NoEvents(closed, id);
    assert ProcessEvents(s, id, CandleEvents([c])) == closed;
    if !Terminal(closed.signals[id].status) {
      var key := RecoveryKey(id, anchor);
      Portfolio.TrackingKeeps(closed, id, TradeCoverageFallbackRecovered, ReplayFrom(now), key);
      RecordKeepsRows(closed, id, TradeCoverageFallbackRecovered, ReplayFrom(now), key);
      NoEvents(RecordTrackingEvent(closed, id, TradeCoverageFallbackRecovered, ReplayFrom(now), key), id);
    }
  }

  /** A candle that reaches TP1 and nothing else. */
  predicate TakesTp1Only(s: LifecycleState, c: Candle1m) {
    var t, d := s.terms, s.terms.direction;
    && s.status == Entered && c.symbol == s.symbol && !TouchesStop(d, t.stopLoss, c)
    && TouchesTarget(d, t.takeProfit1, c) && !TouchesTarget(d, t.takeProfit2, c)
  }

  lemma Tp1ByCandle(p: Position, c: Candle1m)
    requires Booked(p) && TakesTp1Only(p.state, c)
    ensures StepEvent(p, CandleEvent(c)).state.status == Tp1Reached && Booked(StepEvent(p, CandleEvent(c)))
  {
    hide BookedPnl, BookedFees, BookedRemaining, Breakeven;
    CandleBooks(p, c);
    ApplyFewActions(p, EvaluateClosedCandle(p.state, c), CloseTime(c));
  }

  lemma StopsAtBreakeven(p: Position, early: PublicTrade, late: PublicTrade)
    requires Booked(p) && p.state.status == Tp1Reached && early.symbol == late.symbol == p.state.symbol
    requires BeyondStop(p.state.terms.direction, Breakeven(p.state.terms), early.price)
    ensures RunTrades(p, [early, late]).state.status == StoppedAtBreakeven
  {
    hide BookedPnl, BookedFees, BookedRemaining, Breakeven;
    RunFollowsStatus(p, [early, late]);
    TwoSteps(p.state, Tp1Reached, [early, late]);
  }

  /**
   * Candle recovery leaves the mark behind in the same way: the lost minute takes TP1, nothing is buffered after it,
   * and the next proven merge replays from the mark before that minute.
   */
  method RecoveryLeavesMarkBehind(service: SignalLifecycleService, symbol: string, early: PublicTrade,
                                  late: PublicTrade, c: Candle1m,
                                  lost: World, found: World, now: int, end: int)
    requires service.Valid() && OwnTrades(lost) && OwnTrades(found) && symbol in service.signals
             && symbol in service.coveragePending
    requires CachedAs(service.repository.Contents(), service.signals, symbol) && early.symbol == late.symbol == symbol
    requires service.signals[symbol].mark == Some(MarkOf(early)) && service.coveragePending[symbol] == early.executedAt
    requires early.executedAt < late.executedAt && early.tradeId != late.tradeId
    requires BeyondStop(service.signals[symbol].state.terms.direction, Breakeven(service.signals[symbol].state.terms),
             early.price)
    requires TakesTp1Only(service.signals[symbol].state, c) && lost.rest(symbol) == []
    requires LostCandles(lost, symbol, early.executedAt, now) == [c] && lost.buffered(symbol, ReplayFrom(now)) == []
    requires found.rest(symbol) == [early, late] && found.buffered(symbol, early.executedAt) == [late]
    modifies service, service.repository
    ensures service.Valid()
    ensures var s, s', id := old(service.repository.Contents()), service.repository.Contents(),
            old(service.signals)[symbol].state.signalId;
            && Known(s, id) && Booked(View(s, id)) && StepEvent(View(s, id), CandleEvent(c)).state.status == Tp1Reached
            && Known(s', id) && s'.signals[id].status == StoppedAtBreakeven
  {
    hide Consistent, Mirrors, Loadable, OnlyFor, Booked, EvaluateClosedCandle, MergeTradeCoverage, WellFormed,
      Breakeven,
      Replayed, AfterRecovery, CoverageGivenUp, LostCandles;
    ghost var s, id := service.repository.Contents(), service.signals[symbol].state.signalId;
    MirrorIsKnown(s, service.signals[symbol]);
    NoHistory(lost, symbol, early.executedAt);
    RecoveredByCandle(s, id, symbol, early.executedAt, lost, now, c);
    Tp1ByCandle(View(s, id), c);
    service.OnReady(symbol, lost, now);
    ghost var s1 := service.repository.Contents();
    service.OnDisconnect(symbol);
    PairIsProven(early, late);
    ghost var v := service.signals[symbol];
    MirrorIsKnown(s1, v);
    StopsAtBreakeven(View(s1, id), early, late);
    service.OnReady(symbol, found, end);
    ReplayedIsRun(s1, service.repository.Contents(), v, early.executedAt, [early, late]);
  }

  lemma NoHistory(w: World, symbol: string, anchor: int)
    requires w.rest(symbol) == []
    ensures MergeFor(w, symbol, anchor).Unproven?
  {
  }

  // ---------- from publication to the ledger ----------

  /**
   * A published candidate is loaded by the service as it was stored, and its activation leaves a fresh position: no
   * money booked, the whole quantity open.
   */
  lemma ActivatedIsFresh(s: Store, c: PublicationCandidate, now: int, anchor: int)
    requires Consistent(s) && Accepted(c) && Divisible(c.plan.value)
    requires forall e :: e in s.events ==> e.key != PublicationKey(c.candidateId)
    ensures var id, published := |s.signals|, AddSignal(s, c, true, now);
            && Consistent(published) && Known(published, id) && Mirrors(published, LoadedRow(published, id))
            && var active := ReplayBase(published, LoadedRow(published, id), anchor);
            && Consistent(active) && Trackable(active, id) && active.signals[id].status == Active
            && active.signals[id].terms == c.plan.value
            && View(active, id) == Position(StateOf(active, id), 0.0, 0.0, c.plan.value.quantity)
            && (WellFormedTerms(c.plan.value) ==> WellFormed(StateOf(active, id)))
  {
    hide Consistent, WellFormedTerms, Divisible;
    var id, published := |s.signals|, AddSignal(s, c, true, now);
    Portfolio.AddKeepsConsistent(s, c, true, now);
    PublishedIsReady(s, c, now);
    var v := LoadedRow(published, id);
    CoverageAccepted(published, v, Active, anchor, anchor, TradeCoverageReady);
    hide ApplyTransition;
  }

  /**
   * From the accepted plan to the tables: a plan of the strategy, published and activated, is accounted for by its
   * fill ledger after any run of trades and candles.
   */
  lemma PublishedMoneyEqualsLedger(s: Store, r: TradePlans.PlanRequest, config: TradePlans.RiskConfig,
                                   plan: TradePlans.TradePlan,
                                   fundingRate: real, fundingIntervalMinutes: int, c: PublicationCandidate, now: int,
                                     anchor: int,
                                   events: seq<MarketEvent>)
    requires Consistent(s) && forall e :: e in s.events ==> e.key != PublicationKey(c.candidateId)
    requires TradePlans.ValidConfig(config) && TradePlans.Spaced(config) && TradePlans.Accepted(r, config, plan)
    requires r.feeRate >= 0.0 && r.target > 0.0
    requires c.accepted && c.plan == Some(TradePlans.TermsOf(r.direction, plan, fundingRate, fundingIntervalMinutes))
    ensures WellFormedTerms(c.plan.value)
    ensures var id, published := |s.signals|, AddSignal(s, c, true, now);
            && Known(published, id)
            && var active := ReplayBase(published, LoadedRow(published, id), anchor);
            && Consistent(active) && Trackable(active, id) && Reconciled(View(active, id), EMPTY)
            && var row, account := ProcessEvents(active, id, events).trades[id], Run(View(active, id), EMPTY, events).1;
            && row.fees == account.fees
            && row.realizedPnl + row.estimatedFunding == account.cash + account.units * c.plan.value.plannedEntry
            && (Abs(account.units) == if InMarket(ProcessEvents(active, id, events).signals[id].status)
                 then row.remainingQuantity else 0.0)
  {
    hide Consistent, WellFormedTerms, TradePlans.Accepted, TradePlans.TermsOf, Reconciled, ProcessEvents, Run, Abs,
      AddSignal, ReplayBase,
      Mirrors, TradePlans.ValidConfig, TradePlans.Spaced;
    TradePlans.AcceptedIsWellFormed(r, config, plan, fundingRate, fundingIntervalMinutes);
    WellFormedDivides(c.plan.value);
    ActivatedIsFresh(s, c, now, anchor);
    var id, published := |s.signals|, AddSignal(s, c, true, now);
    StoredMoneyEqualsLedger(ReplayBase(published, LoadedRow(published, id), anchor), id, events);
  }

  lemma WellFormedDivides(t: Terms)
    requires WellFormedTerms(t)
    ensures Divisible(t)
  {
  }
}
