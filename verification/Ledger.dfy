/** Double-entry check of the lifecycle's money fields: every fill is a cash movement, and the books must agree. */
module Ledger {
  import opened Wrappers
  import opened MarketModels
  import opened Lifecycle
  import opened Fallback
  import opened FallbackConservative

  /** Signed units traded at a price: positive buys, negative sells. */
  datatype Fill = Fill(units: real, price: real)

  /** Cash after fees, units held (negative when short) and the fees paid so far. */
  datatype Account = Account(cash: real, units: real, fees: real)

  const EMPTY := Account(0.0, 0.0, 0.0)

  function Abs(x: real): real {
    if x < 0.0 then -x else x
  }

  function Settle(a: Account, f: Fill, feeRate: real): Account {
    var fee := Abs(f.units) * f.price * feeRate;
    Account(a.cash - f.units * f.price - fee, a.units + f.units, a.fees + fee)
  }

  function SettleAll(a: Account, fills: seq<Fill>, feeRate: real): Account
    decreases |fills|
  {
    if fills == [] then a else SettleAll(Settle(a, fills[0], feeRate), fills[1..], feeRate)
  }

  function Opening(t: Terms): real {
    if t.direction == Long then t.quantity else -t.quantity
  }

  /** The fills a status change stands for; an ambiguous candle before entry both enters and stops out. */
  function FillsOf(s: LifecycleState, a: Action): seq<Fill> {
    var t, open := s.terms, Opening(s.terms);
    match a.target
    case Entered => [Fill(open, t.plannedEntry)]
    case Stopped => [Fill(-open, s.currentStop)]
    case Tp1Reached => [Fill(-open / 2.0, t.takeProfit1)]
    case StoppedAtBreakeven => [Fill(-open / 2.0, s.currentStop)]
    case Tp2Completed => [Fill(-open / 2.0, t.takeProfit2)]
    case Ambiguous =>
      if s.status == Active then [Fill(open, t.plannedEntry), Fill(-open, s.currentStop)]
      else if s.status == Entered then [Fill(-open, s.currentStop)]
      else [Fill(-open / 2.0, s.currentStop)]
    case _ => []
  }

  function SettleActions(p: Position, a: Account, acts: seq<Action>, at: int): Account
    decreases |acts|
  {
    if acts == [] then a
    else SettleActions(ApplyAction(p, acts[0], at),
                       SettleAll(a, FillsOf(p.state, acts[0]), p.state.terms.feeRate), acts[1..], at)
  }

  datatype MarketEvent = TradeEvent(trade: PublicTrade) | CandleEvent(candle: Candle1m)

  function ActionsFor(s: LifecycleState, e: MarketEvent): seq<Action>
    requires Tracked(s)
  {
    match e
    case TradeEvent(trade) => EvaluatePublicTrade(s, trade)
    case CandleEvent(candle) => EvaluateClosedCandle(s, candle)
  }

  function EventTime(e: MarketEvent): int {
    match e
    case TradeEvent(trade) => trade.executedAt
    case CandleEvent(candle) => CloseTime(candle)
  }

  function StepEvent(p: Position, e: MarketEvent): Position
    requires Tracked(p.state)
  {
    ApplyActions(p, ActionsFor(p.state, e), EventTime(e))
  }

  /** The account of a signal in an exactly booked status. */
  function BookedAccount(t: Terms, status: SignalStatus): Account
    requires WellFormedTerms(t)
  {
    var units := match status
      case Entered => Opening(t)
      case Tp1Reached => Opening(t) / 2.0
      case _ => 0.0;
    Account(BookedPnl(t, status) - units * t.plannedEntry, units, BookedFees(t, status))
  }

  lemma SettleFew(a: Account, fills: seq<Fill>, feeRate: real)
    ensures |fills| == 0 ==> SettleAll(a, fills, feeRate) == a
    ensures |fills| == 1 ==> SettleAll(a, fills, feeRate) == Settle(a, fills[0], feeRate)
    ensures |fills| == 2 ==> SettleAll(a, fills, feeRate) == Settle(Settle(a, fills[0], feeRate), fills[1], feeRate)
  {
    hide Settle;
    if |fills| == 1 {
      assert fills[1..] == [];
    } else if |fills| == 2 {
      var rest, a1 := fills[1..], Settle(a, fills[0], feeRate);
      assert rest == [fills[1]] && rest[1..] == [];
      assert SettleAll(a1, rest, feeRate) == SettleAll(Settle(a1, rest[0], feeRate), rest[1..], feeRate);
    }
  }

  lemma EntrySettles(t: Terms)
    requires WellFormedTerms(t)
    ensures Settle(EMPTY, Fill(Opening(t), t.plannedEntry), t.feeRate) == BookedAccount(t, Entered)
  {
    hide Breakeven;
  }

  lemma FullExitSettles(t: Terms)
    requires WellFormedTerms(t)
    ensures Settle(BookedAccount(t, Entered), Fill(-Opening(t), t.stopLoss), t.feeRate) == BookedAccount(t, Stopped)
  {
    hide Breakeven;
    var entryValue, exitValue := t.quantity * t.plannedEntry, t.quantity * t.stopLoss;
    assert FullExitFees(t, t.stopLoss) == entryValue * t.feeRate + exitValue * t.feeRate;
    assert t.quantity * (t.stopLoss - t.plannedEntry) == exitValue - entryValue;
  }

  lemma HalfExitSettles(t: Terms)
    requires WellFormedTerms(t)
    ensures Settle(BookedAccount(t, Entered), Fill(-Opening(t) / 2.0, t.takeProfit1), t.feeRate)
            == BookedAccount(t, Tp1Reached)
  {
    hide Breakeven;
  }

  lemma SecondExitSettles(t: Terms, status: SignalStatus, price: real)
    requires WellFormedTerms(t)
    requires (status == StoppedAtBreakeven && price == Breakeven(t))
             || (status == Tp2Completed && price == t.takeProfit2)
    ensures Settle(BookedAccount(t, Tp1Reached), Fill(-Opening(t) / 2.0, price), t.feeRate) == BookedAccount(t, status)
  {
    hide Breakeven;
  }

  /** The account is exactly the one the status calls for; an ambiguous close has the account of the stop it took. */
  predicate Reconciled(p: Position, a: Account) {
    if p.state.status == Ambiguous then
      && WellFormed(p.state) && p.remaining == 0.0
      && ((a == BookedAccount(p.state.terms, Stopped) && p.pnl == BookedPnl(p.state.terms, Stopped)
           && p.fees == BookedFees(p.state.terms, Stopped))
          || (a == BookedAccount(p.state.terms, StoppedAtBreakeven)
               && p.pnl == BookedPnl(p.state.terms, StoppedAtBreakeven)
              && p.fees == BookedFees(p.state.terms, StoppedAtBreakeven)))
    else Booked(p) && a == BookedAccount(p.state.terms, p.state.status)
  }

  lemma SettleFewActions(p: Position, a: Account, acts: seq<Action>, at: int)
    ensures |acts| == 0 ==> SettleActions(p, a, acts, at) == a
    ensures |acts| == 1 ==>
              SettleActions(p, a, acts, at) == SettleAll(a, FillsOf(p.state, acts[0]), p.state.terms.feeRate)
    ensures |acts| == 2 ==>
              SettleActions(p, a, acts, at)
              == SettleAll(SettleAll(a, FillsOf(p.state, acts[0]), p.state.terms.feeRate),
                           FillsOf(ApplyAction(p, acts[0], at).state, acts[1]), p.state.terms.feeRate)
  {
    hide FillsOf, SettleAll;
    if |acts| == 1 {
      assert acts[1..] == [];
    } else if |acts| == 2 {
      var rest, p1, a1 := acts[1..], ApplyAction(p, acts[0], at),
        SettleAll(a, FillsOf(p.state, acts[0]), p.state.terms.feeRate);
      assert rest == [acts[1]] && rest[1..] == [];
      assert SettleActions(p1, a1, rest, at)
             == SettleActions(ApplyAction(p1, rest[0], at),
               SettleAll(a1, FillsOf(p1.state, rest[0]), p1.state.terms.feeRate), rest[1..], at);
    }
  }

  /** The fills of one action carry the account of the old status to that of the new one. */
  lemma FillsReconcile(s: LifecycleState, a: Account, act: Action, outcome: SignalStatus)
    requires WellFormed(s) && a == BookedAccount(s.terms, s.status)
    requires act.target == outcome
             || (act.target == Ambiguous && outcome == if s.status == Tp1Reached then StoppedAtBreakeven else Stopped)
    requires match s.status
             case Active => outcome in {Expired, Invalidated, Entered}
               || (outcome == Stopped && act.target == Ambiguous)
             case Entered => outcome in {Stopped, Tp1Reached}
             case Tp1Reached => outcome in {StoppedAtBreakeven, Tp2Completed}
             case _ => false
    ensures SettleAll(a, FillsOf(s, act), s.terms.feeRate) == BookedAccount(s.terms, outcome)
  {
    var t := s.terms;
    SettleFew(a, FillsOf(s, act), t.feeRate);
    EntrySettles(t);
    FullExitSettles(t);
    HalfExitSettles(t);
    SecondExitSettles(t, StoppedAtBreakeven, Breakeven(t));
    SecondExitSettles(t, Tp2Completed, t.takeProfit2);
    hide Settle, BookedFees, Breakeven, FullExitPnl, Tp1Pnl, Tp1ThenExitPnl, EntryFee, FullExitFees, Tp1Fees,
      Tp1ThenExitFees;
  }

  /** The actions one event can emit, by their targets. */
  lemma EmittedTargets(p: Position, e: MarketEvent)
    requires Booked(p)
    ensures var acts := ActionsFor(p.state, e);
            && |acts| <= 2
            && (|acts| == 2 ==>
                  p.state.status == Entered && acts[0].target == Tp1Reached && acts[1].target == Tp2Completed)
            && (|acts| >= 1 ==> match p.state.status
                  case Active => acts[0].target in {Expired, Invalidated, Entered, Ambiguous}
                  case Entered => acts[0].target in {Stopped, Tp1Reached, Ambiguous}
                  case Tp1Reached => acts[0].target in {StoppedAtBreakeven, Tp2Completed, Ambiguous}
                  case _ => false)
            && Reconciled(StepEvent(p, e), BookedAccount(p.state.terms, OutcomeOf(p.state.status, acts)))
  {
    hide FullExitPnl, FullExitFees, Tp1Pnl, Tp1Fees, Tp1ThenExitPnl, Tp1ThenExitFees, EntryFee, Breakeven,
      BookedAccount;
    ApplyFewActions(p, ActionsFor(p.state, e), EventTime(e));
  }

  /** The exactly booked status whose account the emitted actions lead to. */
  function OutcomeOf(status: SignalStatus, acts: seq<Action>): SignalStatus {
    if acts == [] then status
    else if acts[|acts| - 1].target != Ambiguous then acts[|acts| - 1].target
    else if status == Tp1Reached then StoppedAtBreakeven
    else Stopped
  }

  lemma StepReconciles(p: Position, a: Account, e: MarketEvent)
    requires Reconciled(p, a)
    ensures Reconciled(StepEvent(p, e), SettleActions(p, a, ActionsFor(p.state, e), EventTime(e)))
  {
    hide BookedAccount, BookedPnl, BookedFees, Breakeven, FillsOf, SettleAll, EvaluatePublicTrade, EvaluateClosedCandle;
    var acts, at := ActionsFor(p.state, e), EventTime(e);
    SettleFewActions(p, a, acts, at);
    if p.state.status == Ambiguous {
      AmbiguousIsOver(p, e);
    } else {
      EmittedTargets(p, e);
      if |acts| >= 1 {
        FillsReconcile(p.state, a, acts[0], OutcomeOf(p.state.status, [acts[0]]));
        if |acts| == 2 {
          Tp1Position(p, e);
          FillsReconcile(ApplyAction(p, acts[0], at).state, BookedAccount(p.state.terms, Tp1Reached), acts[1],
            Tp2Completed);
        }
      }
    }
  }

  lemma AmbiguousIsOver(p: Position, e: MarketEvent)
    requires Tracked(p.state) && p.state.status == Ambiguous
    ensures ActionsFor(p.state, e) == [] && StepEvent(p, e) == p
  {
  }

  lemma Tp1Position(p: Position, e: MarketEvent)
    requires Booked(p) && |ActionsFor(p.state, e)| == 2
    ensures var q := ApplyAction(p, ActionsFor(p.state, e)[0], EventTime(e));
            WellFormed(q.state) && q.state.status == Tp1Reached && q.state.terms == p.state.terms
  {
    hide FullExitPnl, FullExitFees, Tp1Pnl, Tp1Fees, Tp1ThenExitPnl, Tp1ThenExitFees, EntryFee, Breakeven;
  }

  /** A run of trades and candles, in any mix, with the account its fills are settled on. */
  function Run(p: Position, a: Account, events: seq<MarketEvent>): (r: (Position, Account))
    requires Reconciled(p, a)
    ensures Reconciled(r.0, r.1) && r.0.state.terms == p.state.terms
    decreases |events|
  {
    if events == [] then (p, a)
    else
      StepReconciles(p, a, events[0]);
      Run(StepEvent(p, events[0]), SettleActions(p, a, ActionsFor(p.state, events[0]), EventTime(events[0])),
        events[1..])
  }

  predicate InMarket(status: SignalStatus) {
    status == Entered || status == Tp1Reached
  }

  /**
   * Conservation: however the events run, the overwritten money fields equal what the fills moved. Fees are those
   * paid, the realised profit is the cash plus the open units at their entry price, the open quantity is what is
   * held while in the market, and a signal out of the market holds nothing.
   */
  lemma BooksEqualLedger(s: LifecycleState, events: seq<MarketEvent>)
    requires WellFormed(s) && s.status == Active
    ensures var p0 := Position(s, 0.0, 0.0, s.terms.quantity);
            Reconciled(p0, EMPTY) &&
            var r := Run(p0, EMPTY, events);
            var p, a := r.0, r.1;
            && p.fees == a.fees
            && p.pnl == a.cash + a.units * s.terms.plannedEntry
            && Abs(a.units) == (if InMarket(p.state.status) then p.remaining else 0.0)
            && (!InMarket(p.state.status) ==> p.pnl == a.cash)
  {
    hide Reconciled, Run, Abs, WellFormed;
    PublishedReconciles(s);
    var r := Run(Position(s, 0.0, 0.0, s.terms.quantity), EMPTY, events);
    AccountMeaning(r.0, r.1);
  }

  lemma PublishedReconciles(s: LifecycleState)
    requires WellFormed(s) && s.status == Active
    ensures Reconciled(Position(s, 0.0, 0.0, s.terms.quantity), EMPTY)
  {
    hide FullExitPnl, Tp1Pnl, Tp1ThenExitPnl, EntryFee, Breakeven;
  }

  lemma AccountMeaning(p: Position, a: Account)
    requires Reconciled(p, a)
    ensures p.fees == a.fees && p.pnl == a.cash + a.units * p.state.terms.plannedEntry
    ensures Abs(a.units) == if InMarket(p.state.status) then p.remaining else 0.0
    ensures !InMarket(p.state.status) ==> p.pnl == a.cash
  {
    hide FullExitPnl, FullExitFees, Tp1Pnl, Tp1Fees, Tp1ThenExitPnl, Tp1ThenExitFees, EntryFee, Breakeven;
  }
}
