/** The replay's accounting against the live candle machine on the same plan and the same candles. */
module ReplayMatchesLive {
  import opened Wrappers
  import opened MarketModels
  import opened Lifecycle
  import opened Fallback
  import opened FallbackConservative
  import opened FallbackExact
  import opened TradePlans
  import opened Evaluator
  import opened ReplayLifecycle

  /** The candidate was published as this signal: same levels, same sizes, an expiry on a minute boundary. */
  predicate SamePlan(c: Candidate, s: LifecycleState) {
    && c.plan.Some? && s.terms
         == TermsOf(c.direction, c.plan.value, s.terms.fundingRate, s.terms.fundingIntervalMinutes)
    && c.plan.value.notional > 0.0 && EntryFee(s.terms) == c.plan.value.entryFee
    && FullExitPnl(s.terms, s.terms.stopLoss) == -c.plan.value.lossAtStop
    && s.expiresAt == c.expiresAt * MINUTE && s.symbol == c.symbol
  }

  /** Every plan the risk module builds meets the accounting part of that link. */
  lemma BuiltPlanIsConsistent(r: PlanRequest, config: RiskConfig, p: TradePlan, fundingRate: real, interval: int)
    requires ValidConfig(config) && BuildTradePlan(r, config) == Ok(p) && r.feeRate >= 0.0
    ensures var t := TermsOf(r.direction, p, fundingRate, interval);
            p.notional > 0.0 && EntryFee(t) == p.entryFee && FullExitPnl(t, t.stopLoss) == -p.lossAtStop
  {
    hide BuildTradePlan, Leverage, Ratio, Times, FullExitPnl;
    BuiltMeans(r, config, p);
    FeeRateRecovered(r, config, p, fundingRate, interval);
    FullStopLosesEstimate(r, config, p, fundingRate, interval);
    RateFromFee(p.quantity, r.Entry(), r.feeRate);
    FeeRegrouped(p.quantity, r.Entry(), r.feeRate);
  }

  lemma FeeRegrouped(quantity: real, entry: real, rate: real)
    ensures quantity * entry * rate == quantity * (entry * rate)
  {
  }

  lemma ResolvableWhenTraded(c: Candidate, s: LifecycleState)
    requires SamePlan(c, s) && WellFormedTerms(s.terms)
    ensures Resolvable(c.plan.value) && FeeRate(c.plan.value) == s.terms.feeRate
    ensures BreakevenOf(c.direction, c.plan.value) == Breakeven(s.terms)
  {
    hide FullExitPnl, EntryFee;
  }

  lemma StopFeesRegrouped(q: real, entry: real, stop: real, rate: real)
    ensures q * entry * rate + q * stop * rate == q * (entry + stop) * rate
  {
  }

  lemma FeesRegrouped(q: real, entry: real, first: real, second: real, rate: real)
    ensures q * entry * rate + q / 2.0 * first * rate + q / 2.0 * second * rate
            == (q * entry + q / 2.0 * first + q / 2.0 * second) * rate
  {
  }

  predicate LevelsOf(p: TradePlan, t: Terms) {
    && t.quantity == p.quantity && t.plannedEntry == p.plannedEntry && t.stopLoss == p.stopLoss
    && t.takeProfit1 == p.takeProfit1 && t.feeRate == FeeRate(p) && EntryFee(t) == p.entryFee
  }

  lemma TwoExitsAreLive(p: TradePlan, t: Terms, second: real)
    requires LevelsOf(p, t)
    ensures TwoExitPnl(t.direction, p, second) == Tp1ThenExitPnl(t, second)
    ensures TwoExitFees(p, second) == Tp1ThenExitFees(t, second)
  {
    hide FeeRate;
    FeesRegrouped(t.quantity, t.plannedEntry, t.takeProfit1, second, t.feeRate);
  }

  lemma FullStopIsLive(p: TradePlan, t: Terms)
    requires LevelsOf(p, t)
    ensures FullStopFees(p) == FullExitFees(t, t.stopLoss)
  {
    hide FeeRate;
    StopFeesRegrouped(t.quantity, t.plannedEntry, t.stopLoss, t.feeRate);
  }

  /** Stop, TP2 and post-TP1 stop book the same profit and fees as the live formulas. */
  lemma ReplayFormulasAreLive(c: Candidate, s: LifecycleState, second: real)
    requires SamePlan(c, s) && WellFormedTerms(s.terms)
    ensures var p := c.plan.value;
            && FullStopFees(p) == FullExitFees(s.terms, s.terms.stopLoss)
            && -p.lossAtStop == FullExitPnl(s.terms, s.terms.stopLoss)
            && TwoExitPnl(c.direction, p, second) == Tp1ThenExitPnl(s.terms, second)
            && TwoExitFees(p, second) == Tp1ThenExitFees(s.terms, second)
  {
    hide FullExitPnl, FullExitFees, EntryFee, Breakeven, TwoExitPnl, TwoExitFees, FullStopFees, Tp1ThenExitPnl,
      Tp1ThenExitFees;
    ResolvableWhenTraded(c, s);
    TwoExitsAreLive(c.plan.value, s.terms, second);
    FullStopIsLive(c.plan.value, s.terms);
  }

  // ---------- status by status ----------

  function LiveStatus(o: OutcomeStatus): SignalStatus {
    match o
    case OutcomeExpired => Expired
    case OutcomeInvalidated => Invalidated
    case OutcomeStopped => Stopped
    case OutcomeStoppedAfterTp1 => StoppedAtBreakeven
    case OutcomeTp2 => Tp2Completed
    case OutcomeAmbiguous => Ambiguous
    case OutcomeOpen => Active
  }

  function PhaseStatus(p: Phase): SignalStatus {
    if p == Waiting then Active else if p.tp1 then Tp1Reached else Entered
  }

  function VerdictStatus(v: Verdict): SignalStatus {
    match v
    case Continue(p) => PhaseStatus(p)
    case Done(o) => LiveStatus(o.status)
  }

  /**
   * The candles both machines read alike while waiting: one reaching the stop gapped beyond it at the open or
   * touched the entry, not both, and one that only enters stays short of the first target.
   */
  predicate ReadAlike(c: Candidate, k: Candle1m)
    requires c.plan.Some?
  {
    var p := c.plan.value;
    if ReachesStop(c.direction, p.stopLoss, k) then GappedBeyondStop(c.direction, p, k.openPrice) <==>
      !ReachesEntry(p, k)
    else ReachesEntry(p, k) ==> !ReachesTarget(c.direction, p.takeProfit1, k)
  }

  /**
   * The two machines take the same step exactly when the candle is read alike, an expiry comes, or the entry is behind.
   */
  lemma SameStepIff(n: nat, c: Candidate, p: Position, phase: Phase, k: Candle1m)
    requires Booked(p) && SamePlan(c, p.state) && Resolvable(c.plan.value) && k.symbol == c.symbol
    requires k.lowPrice <= k.openPrice <= k.highPrice
    requires p.state.status == PhaseStatus(phase)
    ensures StepCandle(p, k).state.status == VerdictStatus(Judge(n, c, phase, k))
            <==> (phase == Waiting && k.openMinute < c.expiresAt ==> ReadAlike(c, k))
  {
    hide FullExitPnl, FullExitFees, EntryFee, Breakeven, BreakevenOf, BookedPnl, BookedFees;
    CandleLabel(p, k);
    ResolvableWhenTraded(c, p.state);
  }

  /** The fees and the stop a live candle leaves behind when it is ambiguous. */
  lemma AmbiguousFees(p: Position, k: Candle1m)
    requires Booked(p) && k.symbol == p.state.symbol && IsAmbiguous(p.state, k)
    ensures var q, t := StepCandle(p, k), p.state.terms;
            && q.state.currentStop == p.state.currentStop
            && q.fees == if p.state.status == Tp1Reached then Tp1ThenExitFees(t, Breakeven(t))
                 else FullExitFees(t, t.stopLoss)
  {
    hide FullExitPnl, FullExitFees, Tp1Pnl, Tp1Fees, Tp1ThenExitPnl, Tp1ThenExitFees, EntryFee, Breakeven;
    ApplyFewActions(p, EvaluateClosedCandle(p.state, k), CloseTime(k));
  }

  /** The breakeven level is not the original stop, so the stop a signal carries tells whether TP1 was reached. */
  lemma BreakevenIsNotTheStop(t: Terms)
    requires WellFormedTerms(t)
    ensures Breakeven(t) != t.stopLoss
  {
    hide Breakeven;
    UnitOrder(t);
    BreakevenNets(t);
  }

  /** The one kind of candle the two machines book differently: stop and TP2 both in reach after TP1. */
  predicate AmbiguousAfterTp1(o: Outcome, phase: Phase) {
    o.status == OutcomeAmbiguous && phase.Holding? && phase.tp1
  }

  /**
   * A finished replay step books the live profit exactly unless the candle is ambiguous after TP1; then it books a
   * full stop, strictly below the live result. Fees agree in every other case.
   */
  lemma SameMoney(n: nat, c: Candidate, p: Position, phase: Phase, k: Candle1m)
    requires Booked(p) && SamePlan(c, p.state) && Resolvable(c.plan.value) && k.symbol == c.symbol
    requires k.lowPrice <= k.openPrice <= k.highPrice
    requires p.state.status == PhaseStatus(phase) && Judge(n, c, phase, k).Done?
    requires StepCandle(p, k).state.status == VerdictStatus(Judge(n, c, phase, k))
    ensures var o, q := Judge(n, c, phase, k).outcome, StepCandle(p, k);
            && (o.pnl == q.pnl <==> !AmbiguousAfterTp1(o, phase))
            && (AmbiguousAfterTp1(o, phase) ==> o.pnl == -c.plan.value.lossAtStop < q.pnl)
            && (!AmbiguousAfterTp1(o, phase) ==> o.fees == q.fees)
            && (o.status == OutcomeAmbiguous ==> q.state.currentStop == p.state.currentStop)
  {
    hide FullExitPnl, FullExitFees, EntryFee, Breakeven, BreakevenOf, Tp1ThenExitPnl, Tp1ThenExitFees, TwoExitPnl,
      TwoExitFees,
      FullStopFees, IsAmbiguous, EvaluateClosedCandle;
    SameStepIff(n, c, p, phase, k);
    CandleBooks(p, k);
    CandleLabel(p, k);
    if IsAmbiguous(p.state, k) {
      AmbiguousFees(p, k);
    }
    ResolvableWhenTraded(c, p.state);
    ReplayFormulasAreLive(c, p.state, Breakeven(p.state.terms));
    ReplayFormulasAreLive(c, p.state, p.state.terms.takeProfit2);
    StatusValues(p.state.terms);
  }

  // ---------- whole runs ----------

  predicate RowsOf(c: Candidate, rows: seq<MarketRow>) {
    forall i :: 0 <= i < |rows| ==>
      && rows[i].candle.symbol == c.symbol
      && rows[i].candle.lowPrice <= rows[i].candle.openPrice <= rows[i].candle.highPrice
  }

  /** Every candle the replay meets while waiting for the entry is read alike. */
  predicate AlikeRun(n: nat, c: Candidate, phase: Phase, rows: seq<MarketRow>)
    requires c.plan.Some? && Resolvable(c.plan.value)
    decreases |rows|
  {
    rows == [] ||
    var k := rows[0].candle;
    && (phase == Waiting && k.openMinute < c.expiresAt ==> ReadAlike(c, k))
    && (Judge(n, c, phase, k).Continue? ==> AlikeRun(n, c, Judge(n, c, phase, k).phase, rows[1..]))
  }

  lemma {:induction false} FinishedStays(p: Position, candles: seq<Candle1m>)
    requires Booked(p) && p.state.status in {Expired, Invalidated, Stopped, StoppedAtBreakeven, Tp2Completed}
    ensures RunCandles(p, candles) == p
    decreases |candles|
  {
    hide BookedPnl, BookedFees, Breakeven;
    if candles != [] {
      ApplyFewActions(p, EvaluateClosedCandle(p.state, candles[0]), CloseTime(candles[0]));
      FinishedStays(p, candles[1..]);
    }
  }

  /** The live signal closed ambiguously on its breakeven stop. */
  predicate AmbiguousAtBreakeven(o: Outcome, q: Position)
    requires WellFormedTerms(q.state.terms)
  {
    o.status == OutcomeAmbiguous && q.state.currentStop == Breakeven(q.state.terms)
  }

  /** What the two machines report for the same candles. */
  predicate SameReport(o: Outcome, q: Position, c: Candidate)
    requires WellFormedTerms(q.state.terms) && c.plan.Some?
  {
    if o.status == OutcomeOpen then
      q.state.status in {Active, Entered, Tp1Reached} && (q.state.status == Active <==> o.enteredAt.None?)
    else
      && q.state.status == LiveStatus(o.status)
      && (o.pnl == q.pnl <==> !AmbiguousAtBreakeven(o, q))
      && (AmbiguousAtBreakeven(o, q) ==> o.pnl == -c.plan.value.lossAtStop < q.pnl)
      && (!AmbiguousAtBreakeven(o, q) ==> o.fees == q.fees)
  }

  lemma FirstCandle(rows: seq<MarketRow>)
    requires rows != []
    ensures CandlesOf(rows)[0] == rows[0].candle && CandlesOf(rows)[1..] == CandlesOf(rows[1..])
  {
  }

  /**
   * Over any run whose waiting candles are read alike, the replay reports the status, profit and fees the live candle
   * machine ends with; exactly a candle ambiguous after TP1 is booked lower, as a full stop.
   */
  lemma {:induction false} ReplayAgreesWithLive(n: nat, c: Candidate, p: Position, phase: Phase, rows: seq<MarketRow>)
    requires Booked(p) && SamePlan(c, p.state) && Resolvable(c.plan.value) && p.state.status == PhaseStatus(phase)
    requires RowsOf(c, rows) && AlikeRun(n, c, phase, rows)
    ensures var q := RunCandles(p, CandlesOf(rows));
            q.state.terms == p.state.terms && SameReport(ResolveFrom(n, c, phase, rows), q, c)
    decreases |rows|
  {
    hide Judge, ReadAlike, StepCandle, Resolvable, BookedPnl, BookedFees, BookedRemaining, CandlesOf, TermsOf,
      FullExitPnl, EntryFee, Breakeven;
    if rows == [] {
    } else {
      var k := rows[0].candle;
      FirstCandle(rows);
      SameStepIff(n, c, p, phase, k);
      CandleBooks(p, k);
      var q := StepCandle(p, k);
      match Judge(n, c, phase, k)
      case Continue(next) =>
        SamePlanKept(c, p.state, q.state);
        ReplayAgreesWithLive(n, c, q, next, rows[1..]);
      case Done(o) =>
        SameMoney(n, c, p, phase, k);
        BreakevenIsNotTheStop(p.state.terms);
        JudgedIsResolved(n, c, phase, k);
        if Booked(q) {
          JudgedStatus(n, c, phase, k);
          FinishedStays(q, CandlesOf(rows)[1..]);
        }
    }
  }

  lemma JudgedStatus(n: nat, c: Candidate, phase: Phase, k: Candle1m)
    requires c.plan.Some? && Resolvable(c.plan.value) && Judge(n, c, phase, k).Done?
    ensures LiveStatus(Judge(n, c, phase, k).outcome.status) in {Expired, Invalidated, Stopped, StoppedAtBreakeven,
            Tp2Completed, Ambiguous}
  {
    hide BreakevenOf;
  }

  lemma SamePlanKept(c: Candidate, a: LifecycleState, b: LifecycleState)
    requires SamePlan(c, a) && a.terms == b.terms && a.expiresAt == b.expiresAt && a.symbol == b.symbol
    ensures SamePlan(c, b)
  {
    hide FullExitPnl, EntryFee;
  }

  /**
   * For every plan the risk module accepts: the candidate replayed and the signal published from the same plan report
   * alike over any rows whose waiting candles are read alike.
   */
  lemma PlanReplaysAsItTrades(n: nat, r: PlanRequest, config: RiskConfig, c: Candidate, s: LifecycleState,
                              rows: seq<MarketRow>)
    requires ValidConfig(config) && Spaced(config) && r.feeRate >= 0.0 && r.target > 0.0
    requires c.plan.Some? && Accepted(r, config, c.plan.value) && c.direction == r.direction
    requires s.terms == TermsOf(r.direction, c.plan.value, s.terms.fundingRate, s.terms.fundingIntervalMinutes)
    requires s.status == Active && s.currentStop == s.terms.stopLoss
    requires s.symbol == c.symbol && s.expiresAt == c.expiresAt * MINUTE && RowsOf(c, rows)
    ensures WellFormedTerms(s.terms) && Resolvable(c.plan.value)
    ensures AlikeRun(n, c, Waiting, rows) ==>
              var q := RunCandles(Position(s, 0.0, 0.0, s.terms.quantity), CandlesOf(rows));
              q.state.terms == s.terms && SameReport(ResolveFrom(n, c, Waiting, rows), q, c)
  {
    hide BuildTradePlan, FullExitPnl, EntryFee, Breakeven, TermsOf, CandlesOf, Judge, AlikeRun, SameReport, RowsOf,
      Spaced;
    AcceptedIsWellFormed(r, config, c.plan.value, s.terms.fundingRate, s.terms.fundingIntervalMinutes);
    BuiltPlanIsConsistent(r, config, c.plan.value, s.terms.fundingRate, s.terms.fundingIntervalMinutes);
    ResolvableWhenTraded(c, s);
    if AlikeRun(n, c, Waiting, rows) {
      ReplayAgreesWithLive(n, c, Position(s, 0.0, 0.0, s.terms.quantity), Waiting, rows);
    }
  }
}
