/** Concrete inputs for every exception the theorems name: each of them really happens. */
module Witnesses {
  import opened Wrappers
  import opened MarketModels
  import opened Lifecycle
  import opened Fallback
  import opened FallbackConservative
  import opened FallbackExact
  import opened Coverage
  import opened CandleAggregation
  import opened MarketStore
  import opened CandleCache
  import opened ReplayLifecycle
  import opened ReplayMatchesLive
  import TradePlans
  import Evaluator

  // ---------- replay outcomes dated before they are known ----------

  const PLAN := TradePlans.TradePlan(
    99.0, 101.0, 100.0, 90.0, 110.0, 120.0, 2.0, 2.0, 10.0, 1.0, 100.0, 1.0, 100.0, 0.0, 0.0, 10.0)

  const CANDIDATE := Evaluator.Candidate("BTCUSDT", Long, true, 80, false, [], [], [], Some(PLAN), 0, 5)

  function Row(minute: int, price: real): MarketRow {
    MarketRow(Candle1m("BTCUSDT", minute, price, price, price, price, 1.0, 1.0), None, None, None, None, None, None,
      None)
  }

  /** An expiry is dated at minute 5, but the rows closed by then do not show it. */
  lemma ExpiryKnownLate() returns (known: seq<MarketRow>, all: seq<MarketRow>)
    ensures Resolvable(PLAN) && known <= all && AllClosedBy(known, 5) && AllClosedAfter(all[|known|..], 5)
    ensures var o := ResolveFrom(1, CANDIDATE, Waiting, all);
            && o.status == OutcomeExpired && o.resolvedAt == Some(5)
            && ResolveFrom(1, CANDIDATE, Waiting, known).status == OutcomeOpen
  {
    known, all := [Row(0, 105.0)], [Row(0, 105.0), Row(7, 105.0)];
    assert known[1..] == [] && all[1..] == [Row(7, 105.0)];
    assert all[1..][0] == Row(7, 105.0);
    assert Judge(1, CANDIDATE, Waiting, known[0].candle) == Continue(Waiting);
  }

  /** An invalidation is dated at the open of a candle that has not closed by then. */
  lemma InvalidationKnownLate() returns (known: seq<MarketRow>, all: seq<MarketRow>)
    ensures Resolvable(PLAN) && known <= all && AllClosedBy(known, 3) && AllClosedAfter(all[|known|..], 3)
    ensures var o := ResolveFrom(1, CANDIDATE, Waiting, all);
            && o.status == OutcomeInvalidated && o.resolvedAt == Some(3)
            && ResolveFrom(1, CANDIDATE, Waiting, known).status == OutcomeOpen
  {
    known, all := [Row(0, 105.0)], [Row(0, 105.0), Row(3, 80.0)];
    assert known[1..] == [] && all[1..] == [Row(3, 80.0)];
    assert all[1..][0] == Row(3, 80.0);
    assert Judge(1, CANDIDATE, Waiting, known[0].candle) == Continue(Waiting);
  }

  // ---------- candles booked above their trades ----------

  function Levels(takeProfit2: real, feeRate: real): Terms {
    Terms(Long, 99.0, 101.0, 100.0, 90.0, 110.0, takeProfit2, 1.0, 10.0, feeRate, 0.0, 480)
  }

  function Standing(status: SignalStatus, terms: Terms, expiresAt: int): Position
    requires WellFormedTerms(terms)
  {
    Position(LifecycleState(0, "BTCUSDT", terms, status, expiresAt, terms.stopLoss, None, None),
             BookedPnl(terms, status), BookedFees(terms, status), terms.quantity)
  }

  function Range(low: real, high: real): Candle1m {
    Candle1m("BTCUSDT", 0, low, high, low, high, 1.0, 1.0)
  }

  /** An overcredited candle, with an order of its trades that earns less than the candle books. */
  lemma EarnsLess(p: Position, c: Candle1m) returns (trades: seq<PublicTrade>)
    requires Booked(p) && c.symbol == p.state.symbol && c.lowPrice <= c.highPrice && Overcredits(p.state, c)
    ensures TapeOf(c, trades) && RunTrades(p, trades).pnl < StepCandle(p, c).pnl
  {
    hide Overcredits, BookedPnl, BookedFees, BookedRemaining, Breakeven, StepCandle;
    trades := WorseTape(p.state, c);
    RunFollowsStatus(p, trades);
    CandleBooks(p, c);
  }

  /** TP2 is credited although the price fell back to breakeven after TP1. */
  lemma Tp2Overcredited() returns (p: Position, c: Candle1m, trades: seq<PublicTrade>)
    ensures Booked(p) && p.state.status == Entered && TapeOf(c, trades)
    ensures StepCandle(p, c).state.status == Tp2Completed && RunTrades(p, trades).pnl < StepCandle(p, c).pnl
  {
    p, c := Standing(Entered, Levels(120.0, 0.0), 1_000 * MINUTE), Range(95.0, 125.0);
    trades := EarnsLess(p, c);
    CandleLabel(p, c);
  }

  /** An entry is booked although a losing TP1 followed in the same minute. */
  lemma LosingTp1Overcredited() returns (p: Position, c: Candle1m, trades: seq<PublicTrade>)
    ensures Booked(p) && p.state.status == Active && TapeOf(c, trades)
    ensures StepCandle(p, c).state.status == Entered && RunTrades(p, trades).pnl < StepCandle(p, c).pnl
  {
    p, c := Standing(Active, Levels(130.0, 0.1), 1_000 * MINUTE), Range(100.0, 112.0);
    trades := EarnsLess(p, c);
    CandleLabel(p, c);
  }

  /** An expiry inside the minute is booked although an entry came before it. */
  lemma ExpiryOvercredited() returns (p: Position, c: Candle1m, trades: seq<PublicTrade>)
    ensures Booked(p) && p.state.status == Active && TapeOf(c, trades)
    ensures StepCandle(p, c).state.status == Expired && RunTrades(p, trades).pnl < StepCandle(p, c).pnl
  {
    p, c := Standing(Active, Levels(130.0, 0.1), 30_000_000), Range(98.0, 102.0);
    trades := EarnsLess(p, c);
    CandleLabel(p, c);
  }

  // ---------- a waiting candle the replay and the live machine read differently ----------

  /** The open lies beyond the stop and the range reaches back to the entry: invalidated there, ambiguous here. */
  lemma ReadApart() returns (p: Position, k: Candle1m)
    ensures Booked(p) && SamePlan(CANDIDATE, p.state) && p.state.status == Active && !ReadAlike(CANDIDATE, k)
    ensures StepCandle(p, k).state.status == Ambiguous && Judge(1, CANDIDATE, Waiting, k).Done?
    ensures Judge(1, CANDIDATE, Waiting, k).outcome.status == OutcomeInvalidated
  {
    hide Booked, StepCandle, SamePlan;
    p, k := Published(), Candle1m("BTCUSDT", 0, 85.0, 100.0, 85.0, 100.0, 1.0, 1.0);
    PublishedIsBooked();
    PublishedIsThePlan();
    CandleLabel(p, k);
  }

  function Published(): Position {
    Standing(Active, Levels(120.0, 0.0), CANDIDATE.expiresAt * MINUTE)
  }

  lemma PublishedIsBooked()
    ensures Booked(Published())
  {
  }

  lemma PublishedIsThePlan()
    ensures SamePlan(CANDIDATE, Published().state)
  {
    hide FullExitPnl, EntryFee, BookedPnl, BookedFees;
    PlanTerms();
    PlanMoney(Levels(120.0, 0.0));
  }

  lemma PlanTerms()
    ensures TradePlans.TermsOf(Long, PLAN, 0.0, 480) == Levels(120.0, 0.0)
  {
  }

  lemma PlanMoney(t: Terms)
    requires t.quantity == 1.0 && t.feeRate == 0.0
    ensures EntryFee(t) == 0.0 && FullExitPnl(t, t.stopLoss) == SignedMove(t.direction, t.plannedEntry, t.stopLoss)
  {
    assert FullExitFees(t, t.stopLoss) == 0.0;
  }

  // ---------- a proven merge that misses a trade ----------

  function Printed(id: string, at: int, sequence: int): PublicTrade {
    PublicTrade(id, "BTCUSDT", 100.0, at, sequence)
  }

  const PRINTS := [Printed("0", 5, 0), Printed("1", 5, 1), Printed("2", 6, 2)]

  lemma PrintsAreALog()
    ensures ExchangeLog(PRINTS)
  {
    var a, b, c := Printed("0", 5, 0), Printed("1", 5, 1), Printed("2", 6, 2);
    assert a.tradeId != b.tradeId && b.tradeId != c.tradeId && a.tradeId != c.tradeId by {
      assert a.tradeId[0] == '0' && b.tradeId[0] == '1' && c.tradeId[0] == '2';
    }
    assert KeyLe(a, b) && KeyLe(b, c) && KeyLe(a, c) && !KeyLe(b, a) && !KeyLe(c, b) && !KeyLe(c, a);
  }

  /**
   * Two trades share the anchor's time; the windows start with the second, and the proof of coverage does not notice.
   */
  lemma FirstTradeMissed() returns (log: seq<PublicTrade>)
    ensures ExchangeLog(log) && Windows(log, 1, 3, 2, 3)
    ensures MergeTradeCoverage(log[1..3], log[2..3], 5) == Proven(log[1..3]) && FromAnchor(log, 5, 3) == log
  {
    hide ExchangeLog, MergeTradeCoverage;
    log := PRINTS;
    PrintsAreALog();
    PairOverlaps(log[1], log[2]);
    assert log[1..3] == [log[1], log[2]] && log[2..3] == [log[2]];
    MergedIsSlice(log, 1, 3, 2, 3, 5);
    assert FirstSince(log, 5) == 0;
  }

  lemma PairOverlaps(a: PublicTrade, b: PublicTrade)
    requires a.symbol == b.symbol && a.executedAt <= 5
    ensures MergeTradeCoverage([a, b], [b], 5).Proven?
  {
    assert b in [a, b] && b in [b] && b.tradeId in Ids([a, b]) * Ids([b]);
    assert Symbols([a, b] + [b]) == {a.symbol} by {
      assert a in [a, b] + [b];
    }
  }

  // ---------- a live candle that leaves a stale aggregate ----------

  function MinuteRow(minute: int, volume: real): Candle1m {
    Candle1m("BTCUSDT", minute, 100.0, 101.0, 99.0, 100.0, volume, 1.0)
  }

  const FIVE := Interval("BTCUSDT", M5, 0)

  function FullMinutes(): map<MinuteKey, Candle1m> {
    map m: int | 0 <= m < 5 :: MinuteKey("BTCUSDT", m) := MinuteRow(m, 1.0)
  }

  lemma OnlyFiveIsFull(i: Interval)
    requires Aligned(i) && i != FIVE
    ensures Recomputed(FullMinutes(), i) == None
  {
    hide Recomputed;
    IntervalsNest(i.start, i.timeframe, i.timeframe);
    var m := if i.symbol == "BTCUSDT" && i.start == 0 then 5 else i.start;
    MissingMinuteWithholds(FullMinutes(), i, m);
  }

  /** The third minute of a finished, aggregated interval arrives again with another volume: no job recomputes it. */
  lemma LiveLeavesStale() returns (t: Tables, c: Candle1m)
    ensures WellStored(t) && Honest(t) && t.jobs == map[] && !Honest(IngestLiveCandle(t, c, 0).0)
  {
    hide Recomputed, Honest, FullMinutes, ChangesNothing, IngestLiveCandle, WellStored;
    CachedFiveIsHonest();
    t, c := FiveCached(), MinuteRow(2, 7.0);
    LiveHonestIff(t, c, 0);
    StillFull(c);
    InFive(c);
  }

  lemma InFive(c: Candle1m)
    requires c == MinuteRow(2, 7.0)
    ensures !Completes(c, M5) && IntervalOf(c, M5) == FIVE
  {
  }

  function FiveCached(): Tables {
    Tables(FullMinutes(), map[FIVE := Recomputed(FullMinutes(), FIVE).GetOr(NONE)], map[],
      map["BTCUSDT" := Checkpoint(Ready, Some(4))])
  }

  const NONE := AggregatedCandle("", M5, 0, 0, 0.0, 0.0, 0.0, 0.0, 0.0, 0.0, 0)

  lemma FiveIsFull()
    ensures Aligned(FIVE) && Recomputed(FullMinutes(), FIVE).Some?
  {
    hide Summary;
    FullInterval(FullMinutes(), FIVE);
  }

  lemma CachedFiveIsHonest()
    ensures WellStored(FiveCached()) && Honest(FiveCached())
  {
    hide Recomputed, Aligned, FullMinutes;
    FiveIsFull();
    forall i | Aligned(i) ensures Cached(FiveCached(), i) == Recomputed(FullMinutes(), i) {
      if i != FIVE {
        OnlyFiveIsFull(i);
      }
    }
    OwnKeys();
  }

  lemma OwnKeys()
    ensures forall k :: k in FullMinutes() ==> KeyOf(FullMinutes()[k]) == k
  {
  }

  lemma StillFull(c: Candle1m)
    requires c == MinuteRow(2, 7.0)
    ensures !ChangesNothing(FullMinutes(), FIVE, c)
  {
    assert KeyOf(c) in FullMinutes() && FullMinutes()[KeyOf(c)].volume == 1.0;
    assert forall m :: 0 <= m < 5 ==> MinuteKey("BTCUSDT", m) in FullMinutes();
  }
}
