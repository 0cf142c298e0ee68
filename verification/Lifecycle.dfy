/** The trade-by-trade signal machine: one public trade against one tracked signal. */
module Lifecycle {
  import opened Wrappers

  datatype Direction = Long | Short

  datatype SignalStatus =
    | Suppressed | Preparing | Active | Expired | Invalidated | Entered | Stopped
    | Tp1Reached | StoppedAtBreakeven | Tp2Completed | Ambiguous | CoverageFailed

  /** The immutable levels and sizes a signal is published with. */
  datatype Terms = Terms(
    direction: Direction,
    entryLower: real, entryUpper: real, plannedEntry: real,
    stopLoss: real, takeProfit1: real, takeProfit2: real,
    quantity: real, riskAmount: real, feeRate: real,
    fundingRate: real, fundingIntervalMinutes: int)

  /** Times are microseconds since the epoch. */
  datatype LifecycleState = LifecycleState(
    signalId: nat, symbol: string, terms: Terms, status: SignalStatus,
    expiresAt: int, currentStop: real,
    enteredAt: Option<int>, tp1ReachedAt: Option<int>)

  datatype EventType =
    | SignalPrepared | SignalSuppressed | SignalExpired | EntryInvalidated | EntryFilled
    | StopLossFilled | TakeProfit1Filled | BreakevenStopFilled | TakeProfit2Filled
    | FallbackSignalExpired | FallbackEntryInvalidated
    | FallbackAmbiguousStop | FallbackAmbiguousBreakeven
    | TradeCoverageReady | TradeCoverageFailed | TradeCoverageFallbackRecovered

  datatype Action = Action(
    target: SignalStatus, eventType: EventType,
    realizedPnl: Option<real>, fees: Option<real>, rMultiple: Option<real>,
    currentStop: Option<real>, remainingQuantity: Option<real>)

  datatype PublicTrade = PublicTrade(
    tradeId: string, symbol: string, price: real, executedAt: int, sequence: int)

  /** No division in the lifecycle formulas is by zero. */
  predicate Divisible(t: Terms) {
    t.riskAmount != 0.0 && t.feeRate != 1.0 && t.feeRate != -1.0
  }

  // ---------- price tests and profit formulas ----------

  predicate BeyondStop(d: Direction, stop: real, price: real) {
    if d == Long then price <= stop else price >= stop
  }

  predicate TargetReached(d: Direction, target: real, price: real) {
    if d == Long then price >= target else price <= target
  }

  predicate InEntryZone(t: Terms, price: real) {
    t.entryLower <= price <= t.entryUpper
  }

  function SignedMove(d: Direction, entry: real, exit: real): real {
    if d == Long then exit - entry else entry - exit
  }

  function EntryFee(t: Terms): real {
    t.quantity * t.plannedEntry * t.feeRate
  }

  function FullExitFees(t: Terms, price: real): real {
    t.quantity * (t.plannedEntry + price) * t.feeRate
  }

  function FullExitPnl(t: Terms, price: real): real {
    t.quantity * SignedMove(t.direction, t.plannedEntry, price) - FullExitFees(t, price)
  }

  function Tp1Fees(t: Terms): real {
    (t.quantity * t.plannedEntry + t.quantity / 2.0 * t.takeProfit1) * t.feeRate
  }

  function Tp1Pnl(t: Terms): real {
    t.quantity / 2.0 * SignedMove(t.direction, t.plannedEntry, t.takeProfit1) - Tp1Fees(t)
  }

  function Tp1ThenExitFees(t: Terms, second: real): real {
    (t.quantity * t.plannedEntry + t.quantity / 2.0 * t.takeProfit1 + t.quantity / 2.0 * second) * t.feeRate
  }

  function Tp1ThenExitPnl(t: Terms, second: real): real {
    t.quantity / 2.0 * (SignedMove(t.direction, t.plannedEntry, t.takeProfit1)
                        + SignedMove(t.direction, t.plannedEntry, second))
    - Tp1ThenExitFees(t, second)
  }

  function Breakeven(t: Terms): real
    requires t.feeRate != 1.0 && t.feeRate != -1.0
  {
    if t.direction == Long
    then t.plannedEntry * (1.0 + t.feeRate) / (1.0 - t.feeRate)
    else t.plannedEntry * (1.0 - t.feeRate) / (1.0 + t.feeRate)
  }

  // ---------- evaluate_public_trade ----------

  function Notice(target: SignalStatus, eventType: EventType): Action {
    Action(target, eventType, None, None, None, None, None)
  }

  function Fill(t: Terms, target: SignalStatus, eventType: EventType, pnl: real, fees: real,
                stop: Option<real>, remaining: Option<real>): Action
    requires t.riskAmount != 0.0
  {
    Action(target, eventType, Some(pnl), Some(fees), Some(pnl / t.riskAmount), stop, remaining)
  }

  function Tp1Action(t: Terms): Action
    requires Divisible(t)
  {
    Fill(t, Tp1Reached, TakeProfit1Filled, Tp1Pnl(t), Tp1Fees(t), Some(Breakeven(t)), Some(t.quantity / 2.0))
  }

  function Tp2Action(t: Terms): Action
    requires Divisible(t)
  {
    Fill(t, Tp2Completed, TakeProfit2Filled, Tp1ThenExitPnl(t, t.takeProfit2), Tp1ThenExitFees(t, t.takeProfit2),
         None, Some(0.0))
  }

  function EvaluatePublicTrade(s: LifecycleState, trade: PublicTrade): seq<Action>
    requires Divisible(s.terms)
  {
    var t := s.terms;
    if trade.symbol != s.symbol then []
    else if s.status == Active then
      if trade.executedAt >= s.expiresAt then [Notice(Expired, SignalExpired)]
      else if BeyondStop(t.direction, t.stopLoss, trade.price) then [Notice(Invalidated, EntryInvalidated)]
      else if InEntryZone(t, trade.price) then
        [Fill(t, Entered, EntryFilled, -EntryFee(t), EntryFee(t), None, None)]
      else []
    else if s.status == Entered then
      if BeyondStop(t.direction, s.currentStop, trade.price) then
        [Fill(t, Stopped, StopLossFilled, FullExitPnl(t, s.currentStop), FullExitFees(t, s.currentStop), None,
          Some(0.0))]
      else if TargetReached(t.direction, t.takeProfit2, trade.price) then [Tp1Action(t), Tp2Action(t)]
      else if TargetReached(t.direction, t.takeProfit1, trade.price) then [Tp1Action(t)]
      else []
    else if s.status == Tp1Reached then
      if BeyondStop(t.direction, s.currentStop, trade.price) then
        [Fill(t, StoppedAtBreakeven, BreakevenStopFilled, Tp1ThenExitPnl(t, s.currentStop),
              Tp1ThenExitFees(t, s.currentStop), None, Some(0.0))]
      else if TargetReached(t.direction, t.takeProfit2, trade.price) then [Tp2Action(t)]
      else []
    else []
  }

  // ---------- what a tracked position does with the emitted actions ----------

  /** A tracked signal with the money fields of its virtual trade, funding not yet deducted. */
  datatype Position = Position(state: LifecycleState, pnl: real, fees: real, remaining: real)

  function ApplyAction(p: Position, a: Action, at: int): Position {
    Position(
      p.state.(
        status := a.target,
        currentStop := a.currentStop.GetOr(p.state.currentStop),
        enteredAt := if a.target == Entered then Some(at) else p.state.enteredAt,
        tp1ReachedAt := if a.target == Tp1Reached then Some(at) else p.state.tp1ReachedAt),
      a.realizedPnl.GetOr(p.pnl),
      a.fees.GetOr(p.fees),
      a.remainingQuantity.GetOr(p.remaining))
  }

  function ApplyActions(p: Position, actions: seq<Action>, at: int): (r: Position)
    ensures r.state.terms == p.state.terms && r.state.symbol == p.state.symbol
    ensures r.state.signalId == p.state.signalId && r.state.expiresAt == p.state.expiresAt
    decreases |actions|
  {
    if actions == [] then p else ApplyActions(ApplyAction(p, actions[0], at), actions[1..], at)
  }

  function StepTrade(p: Position, trade: PublicTrade): (r: Position)
    requires Divisible(p.state.terms)
    ensures r.state.terms == p.state.terms && r.state.symbol == p.state.symbol
    ensures r.state.signalId == p.state.signalId && r.state.expiresAt == p.state.expiresAt
  {
    ApplyActions(p, EvaluatePublicTrade(p.state, trade), trade.executedAt)
  }

  function RunTrades(p: Position, trades: seq<PublicTrade>): (r: Position)
    requires Divisible(p.state.terms)
    ensures r.state.terms == p.state.terms && r.state.symbol == p.state.symbol
    ensures r.state.signalId == p.state.signalId && r.state.expiresAt == p.state.expiresAt
    decreases |trades|
  {
    if trades == [] then p else RunTrades(StepTrade(p, trades[0]), trades[1..])
  }

  lemma {:induction false} RunTradesConcat(p: Position, a: seq<PublicTrade>, b: seq<PublicTrade>)
    requires Divisible(p.state.terms)
    ensures RunTrades(p, a + b) == RunTrades(RunTrades(p, a), b)
    decreases |a|
  {
    if a == [] {
      assert a + b == b;
    } else {
      assert (a + b)[1..] == a[1..] + b;
      RunTradesConcat(StepTrade(p, a[0]), a[1..], b);
    }
  }

  // ---------- well-formed signals ----------

  predicate WellFormedTerms(t: Terms) {
    && 0.0 <= t.feeRate < 1.0 && t.quantity > 0.0 && t.riskAmount > 0.0
    && t.entryLower <= t.plannedEntry <= t.entryUpper
    && (if t.direction == Long
        then 0.0 < t.stopLoss < t.entryLower && t.entryUpper < t.takeProfit1 < t.takeProfit2
             && Breakeven(t) < t.takeProfit2
        else 0.0 < t.takeProfit2 < t.takeProfit1 < t.entryLower && t.entryUpper < t.stopLoss
             && t.takeProfit2 < Breakeven(t))
  }

  /** The stop a signal in this status carries: the original one until TP1, the breakeven level after it. */
  predicate WellFormed(s: LifecycleState) {
    && WellFormedTerms(s.terms)
    && (s.status in {Preparing, Active, Expired, Invalidated, Entered, Stopped} ==> s.currentStop == s.terms.stopLoss)
    && (s.status in {Tp1Reached, StoppedAtBreakeven, Tp2Completed} ==> s.currentStop == Breakeven(s.terms))
  }

  /** The money an exactly tracked signal shows in each status. */
  function BookedPnl(t: Terms, status: SignalStatus): real
    requires WellFormedTerms(t)
  {
    match status
    case Entered => -EntryFee(t)
    case Stopped => FullExitPnl(t, t.stopLoss)
    case Tp1Reached => Tp1Pnl(t)
    case StoppedAtBreakeven => Tp1ThenExitPnl(t, Breakeven(t))
    case Tp2Completed => Tp1ThenExitPnl(t, t.takeProfit2)
    case _ => 0.0
  }

  function BookedFees(t: Terms, status: SignalStatus): real
    requires WellFormedTerms(t)
  {
    match status
    case Entered => EntryFee(t)
    case Stopped => FullExitFees(t, t.stopLoss)
    case Tp1Reached => Tp1Fees(t)
    case StoppedAtBreakeven => Tp1ThenExitFees(t, Breakeven(t))
    case Tp2Completed => Tp1ThenExitFees(t, t.takeProfit2)
    case _ => 0.0
  }

  function BookedRemaining(t: Terms, status: SignalStatus): real {
    match status
    case Tp1Reached => t.quantity / 2.0
    case Stopped | StoppedAtBreakeven | Tp2Completed => 0.0
    case _ => t.quantity
  }

  predicate Booked(p: Position): (b: bool)
    ensures b ==> Divisible(p.state.terms)
  {
    && WellFormed(p.state)
    && p.state.status !in {Suppressed, Ambiguous, CoverageFailed}
    && p.pnl == BookedPnl(p.state.terms, p.state.status)
    && p.fees == BookedFees(p.state.terms, p.state.status)
    && p.remaining == BookedRemaining(p.state.terms, p.state.status)
  }

  lemma ApplyFewActions(p: Position, acts: seq<Action>, at: int)
    ensures |acts| == 0 ==> ApplyActions(p, acts, at) == p
    ensures |acts| == 1 ==> ApplyActions(p, acts, at) == ApplyAction(p, acts[0], at)
    ensures |acts| == 2 ==> ApplyActions(p, acts, at) == ApplyAction(ApplyAction(p, acts[0], at), acts[1], at)
  {
    if |acts| == 1 {
      assert acts[1..] == [];
    } else if |acts| == 2 {
      var rest, p1 := acts[1..], ApplyAction(p, acts[0], at);
      assert rest == [acts[1]] && rest[1..] == [];
      assert ApplyActions(p1, rest, at) == ApplyActions(ApplyAction(p1, rest[0], at), rest[1..], at);
    }
  }

  /** One trade keeps the books: afterwards the money is again a function of the status alone. */
  lemma StepKeepsBooks(p: Position, trade: PublicTrade)
    requires Booked(p)
    ensures Booked(StepTrade(p, trade))
  {
    hide FullExitPnl, FullExitFees, Tp1Pnl, Tp1Fees, Tp1ThenExitPnl, Tp1ThenExitFees, EntryFee, Breakeven;
    var acts := EvaluatePublicTrade(p.state, trade);
    ApplyFewActions(p, acts, trade.executedAt);
  }

  /** Over any tape the realised profit, the fees and the open quantity stay a function of the status. */
  lemma {:induction false} RunKeepsBooks(p: Position, trades: seq<PublicTrade>)
    requires Booked(p)
    ensures Booked(RunTrades(p, trades))
    decreases |trades|
  {
    if trades != [] {
      StepKeepsBooks(p, trades[0]);
      RunKeepsBooks(StepTrade(p, trades[0]), trades[1..]);
    }
  }
}
