/** The lifecycle service on top of the store: evaluated actions become transactions, and none is ever refused. */
module SignalTracking {
  import opened Wrappers
  import opened MarketModels
  import opened Lifecycle
  import opened Fallback
  import opened Ledger
  import opened Funding
  import opened StateMachine
  import opened SignalStore

  predicate Known(s: Store, id: nat) {
    id < |s.signals| && id in s.trades
  }

  function StateOf(s: Store, id: nat): LifecycleState
    requires Known(s, id)
  {
    var signal, trade := s.signals[id], s.trades[id];
    LifecycleState(id, signal.symbol, signal.terms, signal.status, signal.expiresAt, trade.currentStop,
                   signal.enteredAt, signal.tp1ReachedAt)
  }

  /** The stored rows as a position; the stored profit already has the funding estimate deducted. */
  function View(s: Store, id: nat): Position
    requires Known(s, id)
  {
    var trade := s.trades[id];
    Position(StateOf(s, id), trade.realizedPnl + trade.estimatedFunding, trade.fees, trade.remainingQuantity)
  }

  predicate ChargesFunding(a: Action) {
    a.realizedPnl.Some? && a.target in {Tp1Reached, Stopped, StoppedAtBreakeven, Tp2Completed, Ambiguous}
  }

  /** The transaction `_apply_action` asks for. */
  function Request(state: LifecycleState, a: Action, e: MarketEvent, index: nat): Transition
    requires state.terms.riskAmount != 0.0
  {
    var funding := if ChargesFunding(a) then EstimateFundingCost(state, EventTime(e), a.target) else 0.0;
    Transition(
      state.signalId, a.target, EventTime(e),
      (match e
       case TradeEvent(trade) => TradeKey(state.signalId, trade.tradeId, a.target, index)
       case CandleEvent(candle) => FallbackKey(state.signalId, candle.openMinute, a.target, index)),
      a.eventType,
      (if ChargesFunding(a) then Some(a.realizedPnl.value - funding) else a.realizedPnl),
      a.fees, Some(funding),
      (if ChargesFunding(a) then Some((a.realizedPnl.value - funding) / state.terms.riskAmount) else a.rMultiple),
      (if e.CandleEvent? then Some(a.target == Ambiguous) else None),
      a.currentStop, a.remainingQuantity)
  }

  /** Applies the actions one by one, each with the state the store then has; a repeated key is skipped. */
  function ProcessActions(s: Store, id: nat, acts: seq<Action>, e: MarketEvent, index: nat): Result<Store,
                          TransitionError>
    requires Known(s, id) && s.signals[id].terms.riskAmount != 0.0
    decreases |acts|
  {
    if acts == [] then Ok(s)
    else
      var (s', r) := ApplyTransition(s, Request(StateOf(s, id), acts[0], e, index));
      match r
      case Err(error) => Err(error)
      case Ok(_) => ProcessActions(s', id, acts[1..], e, index + 1)
  }

  function ProcessEvent(s: Store, id: nat, e: MarketEvent): Result<Store, TransitionError>
    requires Known(s, id) && Tracked(StateOf(s, id))
  {
    ProcessActions(s, id, ActionsFor(StateOf(s, id), e), e, 0)
  }

  // ---------- the emitted actions fit the tables ----------

  predicate Chain(status: SignalStatus, acts: seq<Action>)
    decreases |acts|
  {
    acts == [] || (acts[0].target in SignalTransitions(status) && Chain(acts[0].target, acts[1..]))
  }

  /** Whatever trade or candle arrives, the emitted actions are a legal path from the current status. */
  lemma EmittedActionsChain(s: LifecycleState, e: MarketEvent)
    requires Tracked(s)
    ensures Chain(s.status, ActionsFor(s, e)) && |ActionsFor(s, e)| <= 2
  {
    hide FullExitPnl, FullExitFees, Tp1Pnl, Tp1Fees, Tp1ThenExitPnl, Tp1ThenExitFees, EntryFee, Breakeven;
    var acts := ActionsFor(s, e);
    if |acts| == 1 {
      assert acts[1..] == [];
    } else if |acts| == 2 {
      var rest := acts[1..];
      assert rest == [acts[1]] && rest[1..] == [];
      assert Chain(rest[0].target, rest[1..]);
    }
  }

  // ---------- one action, one transaction ----------

  /** No money has been charged to a signal that has not entered. */
  predicate Trackable(s: Store, id: nat) {
    && Known(s, id) && Tracked(StateOf(s, id))
    && (s.signals[id].status in {Preparing, Active} ==> s.trades[id].estimatedFunding == 0.0)
  }

  /** A status that is still to come has not been recorded under any key of its own. */
  lemma ActionKeyIsFresh(s: Store, id: nat, a: Action, e: MarketEvent, index: nat)
    requires Consistent(s) && Trackable(s, id) && a.target in SignalTransitions(s.signals[id].status)
    ensures FindEvent(s.events, Request(StateOf(s, id), a, e, index).key).None?
  {
    TablesAgree(s.signals[id].status, a.target);
    var found := FindEvent(s.events, Request(StateOf(s, id), a, e, index).key);
    assert found.Some? ==> HistoryFits(s, found.value);
  }

  lemma ActionAccepted(s: Store, id: nat, a: Action, e: MarketEvent, index: nat)
    requires Consistent(s) && Trackable(s, id) && a.target in SignalTransitions(s.signals[id].status)
    ensures var t := Request(StateOf(s, id), a, e, index);
            var (s', r) := ApplyTransition(s, t);
            && r == Ok(TransitionResult(true, a.target)) && Consistent(s')
            && s'.signals == s.signals[id := MovedSignal(s.signals[id], t)]
            && s'.trades == s.trades[id := MovedTrade(s.trades[id], t)]
  {
    var t := Request(StateOf(s, id), a, e, index);
    ActionKeyIsFresh(s, id, a, e, index);
    TablesAgree(s.signals[id].status, a.target);
    ApplyKeepsConsistent(s, t);
    hide HistoryFits, KeyFits, EstimateFundingCost, SignalTransitions, VirtualTradeTransitions, MovedSignal, MovedTrade;
  }

  /** The moved rows show the position the pure machine moved to, funding included. */
  lemma MovedRowsView(s: Store, s': Store, id: nat, a: Action, e: MarketEvent, index: nat)
    requires Trackable(s, id) && a.target !in {Preparing, Active}
    requires s.signals[id].status in {Preparing, Active} || a.realizedPnl.Some?
    requires var t := Request(StateOf(s, id), a, e, index);
             && s'.signals == s.signals[id := MovedSignal(s.signals[id], t)]
             && s'.trades == s.trades[id := MovedTrade(s.trades[id], t)]
    ensures Known(s', id) && View(s', id) == ApplyAction(View(s, id), a, EventTime(e))
    ensures forall other :: other != id && Known(s, other) ==> Known(s', other) && View(s', other) == View(s, other)
  {
    hide EstimateFundingCost, SignalTransitions, VirtualTradeTransitions, Divisible;
  }

  lemma {:induction false} ActionsProcess(s: Store, id: nat, acts: seq<Action>, e: MarketEvent, index: nat)
    requires Consistent(s) && Trackable(s, id) && Chain(s.signals[id].status, acts)
    requires forall a :: a in acts ==> a.target !in {Preparing, Active}
    requires acts != [] && s.signals[id].status in {Preparing, Active} ==> forall k :: 0 < k < |acts| ==>
               acts[k].realizedPnl.Some?
    requires s.signals[id].status !in {Preparing, Active} ==> forall k :: 0 <= k < |acts| ==> acts[k].realizedPnl.Some?
    ensures var r := ProcessActions(s, id, acts, e, index);
            && r.Ok? && Consistent(r.value) && Known(r.value, id)
            && View(r.value, id) == ApplyActions(View(s, id), acts, EventTime(e))
            && (forall other :: other != id && Known(s, other) ==>
                  Known(r.value, other) && View(r.value, other) == View(s, other))
    decreases |acts|
  {
    hide Consistent, EstimateFundingCost, MovedSignal, MovedTrade, Request;
    if acts != [] {
      assert acts[0] in acts;
      ActionAccepted(s, id, acts[0], e, index);
      var s' := ApplyTransition(s, Request(StateOf(s, id), acts[0], e, index)).0;
      MovedRowsView(s, s', id, acts[0], e, index);
      ActionsProcess(s', id, acts[1..], e, index + 1);
    }
  }

  /** Emitted actions never lead back to waiting, and all but the closing notices of a waiting signal carry money. */
  lemma EmittedActionsCarryMoney(s: LifecycleState, e: MarketEvent)
    requires Tracked(s)
    ensures forall a :: a in ActionsFor(s, e) ==> a.target !in {Preparing, Active}
    ensures forall k :: 0 <= k < |ActionsFor(s, e)| && (k > 0 || s.status !in {Preparing, Active}) ==>
              ActionsFor(s, e)[k].realizedPnl.Some?
  {
    hide FullExitPnl, FullExitFees, Tp1Pnl, Tp1Fees, Tp1ThenExitPnl, Tp1ThenExitFees, EntryFee, Breakeven;
  }

  /**
   * Processing one event never fails: every emitted action is accepted by both tables under a fresh key, the store
   * stays consistent, the signal's rows move exactly as the pure machine does, and no other signal moves.
   */
  lemma EventProcesses(s: Store, id: nat, e: MarketEvent)
    requires Consistent(s) && Trackable(s, id)
    ensures var r := ProcessEvent(s, id, e);
            && r.Ok? && Consistent(r.value) && Trackable(r.value, id)
            && View(r.value, id) == StepEvent(View(s, id), e)
            && (forall other :: other != id && Known(s, other) ==>
                  Known(r.value, other) && View(r.value, other) == View(s, other))
  {
    var acts := ActionsFor(StateOf(s, id), e);
    EmittedActionsChain(StateOf(s, id), e);
    EmittedActionsCarryMoney(StateOf(s, id), e);
    ActionsProcess(s, id, acts, e, 0);
    hide Consistent, Request, Chain, EvaluatePublicTrade, EvaluateClosedCandle, ProcessActions;
    if acts != [] {
      FewActionsEnd(View(s, id), acts, EventTime(e));
    } else {
      assert ProcessActions(s, id, acts, e, 0) == Ok(s);
    }
  }

  lemma FewActionsEnd(p: Position, acts: seq<Action>, at: int)
    requires 1 <= |acts| <= 2
    ensures ApplyActions(p, acts, at).state.status == acts[|acts| - 1].target
  {
    ApplyFewActions(p, acts, at);
  }

  /** Events of one signal, processed in order. */
  function ProcessEvents(s: Store, id: nat, events: seq<MarketEvent>): (r: Store)
    requires Consistent(s) && Trackable(s, id)
    ensures Consistent(r) && Trackable(r, id)
    decreases |events|
  {
    if events == [] then s
    else
      EventProcesses(s, id, events[0]);
      ProcessEvents(ProcessEvent(s, id, events[0]).value, id, events[1..])
  }

  lemma {:induction false} EventsReconcile(s: Store, id: nat, a: Account, events: seq<MarketEvent>)
    requires Consistent(s) && Trackable(s, id) && Reconciled(View(s, id), a)
    ensures var s' := ProcessEvents(s, id, events);
            && Consistent(s') && Trackable(s', id)
            && View(s', id) == Run(View(s, id), a, events).0
            && Reconciled(View(s', id), Run(View(s, id), a, events).1)
    decreases |events|
  {
    hide Consistent, Reconciled, ProcessEvent, StepEvent, Divisible, SettleActions, ActionsFor;
    if events != [] {
      var e := events[0];
      EventProcesses(s, id, e);
      StepReconciles(View(s, id), a, e);
      EventsReconcile(ProcessEvent(s, id, e).value, id,
        SettleActions(View(s, id), a, ActionsFor(StateOf(s, id), e), EventTime(e)), events[1..]);
    }
  }

  /**
   * End to end: after any run of trades and candles the stored rows of an activated signal equal its fill ledger.
   * The stored profit is the ledger's profit less the stored funding estimate.
   */
  lemma StoredMoneyEqualsLedger(s: Store, id: nat, events: seq<MarketEvent>)
    requires Consistent(s) && Trackable(s, id)
    requires s.signals[id].status == Active && WellFormed(StateOf(s, id))
    requires View(s, id) == Position(StateOf(s, id), 0.0, 0.0, s.signals[id].terms.quantity)
    ensures Reconciled(View(s, id), EMPTY)
    ensures var row, account := ProcessEvents(s, id, events).trades[id], Run(View(s, id), EMPTY, events).1;
            && row.fees == account.fees
            && row.realizedPnl + row.estimatedFunding == account.cash + account.units * s.signals[id].terms.plannedEntry
            && (Abs(account.units) == if InMarket(ProcessEvents(s, id, events).signals[id].status)
                 then row.remainingQuantity else 0.0)
  {
    hide Reconciled, Consistent, Divisible, ProcessEvents, Run, Abs, WellFormed;
    PublishedReconciles(StateOf(s, id));
    EventsReconcile(s, id, EMPTY, events);
    var r := Run(View(s, id), EMPTY, events);
    AccountMeaning(r.0, r.1);
  }
}
