/** The lifecycle service as an object: its cache of tracked signals beside the signal tables it writes. */
module SignalService {
  import opened Wrappers
  import opened MarketModels
  import opened Lifecycle
  import opened Fallback
  import opened Coverage
  import opened Ledger
  import Funding
  import opened StateMachine
  import opened SignalStore
  import opened SignalTracking
  import Portfolio
  import opened Resume
  import opened TrackedSignals
  import Sequences

  /** The cached copy after an applied transition. */
  function MovedCopy(v: TrackedSignal, t: Transition): TrackedSignal {
    v.(state := v.state.(
         status := t.target,
         currentStop := t.currentStop.GetOr(v.state.currentStop),
         enteredAt := if t.target == Entered then Some(t.at) else v.state.enteredAt,
         tp1ReachedAt := if t.target == Tp1Reached then Some(t.at) else v.state.tp1ReachedAt),
       remaining := t.remainingQuantity.GetOr(v.remaining))
  }

  function Checkpointed(s: Store, id: nat, mark: TradeMark): Store
    requires id in s.trades
  {
    s.(trades := s.trades[id := CheckpointTrade(s.trades[id], mark)])
  }

  /** The transition is applied: the store stays consistent and exactly the signal's two rows move. */
  ghost predicate MovesTo(s: Store, t: Transition) {
    && t.signalId < |s.signals| && t.signalId in s.trades
    && ApplyTransition(s, t).1 == Ok(TransitionResult(true, t.target)) && Consistent(ApplyTransition(s, t).0)
    && ApplyTransition(s, t).0.signals == s.signals[t.signalId := MovedSignal(s.signals[t.signalId], t)]
    && ApplyTransition(s, t).0.trades == s.trades[t.signalId := MovedTrade(s.trades[t.signalId], t)]
  }

  predicate Holds(cache: map<string, TrackedSignal>, symbol: string, v: TrackedSignal) {
    symbol in cache && cache[symbol] == v
  }

  /** A request the service makes for a cached signal: only a preparing one is activated, and without money fields. */
  predicate Requested(v: TrackedSignal, t: Transition) {
    && t.signalId == v.state.signalId && WellKeyed(t)
    && (t.target == Active ==> v.state.status == Preparing && t.currentStop.None? && t.estimatedFunding.None?)
  }

  /** An accepted request is applied, repeated or refused; applied, it moves the signal's two rows. */
  lemma TransitionCases(s: Store, t: Transition)
    requires Consistent(s) && WellKeyed(t)
    ensures var (s', r) := ApplyTransition(s, t);
            && Consistent(s')
            && (r.Err? || !r.value.applied ==> s' == s)
            && (r.Ok? && r.value.applied ==>
                  MovesTo(s, t) && t.target in SignalTransitions(s.signals[t.signalId].status))
  {
    ApplyKeepsConsistent(s, t);
    hide Consistent, MovedSignal, MovedTrade;
  }

  lemma MovedStaysLoadable(s: Store, s': Store, v: TrackedSignal, t: Transition)
    requires Loadable(s) && Mirrors(s, v) && Requested(v, t) && OthersKept(s, s', t.signalId)
    requires t.target in SignalTransitions(s.signals[t.signalId].status)
    requires s'.signals == s.signals[t.signalId := MovedSignal(s.signals[t.signalId], t)]
    requires s'.trades == s.trades[t.signalId := MovedTrade(s.trades[t.signalId], t)]
    ensures Loadable(s')
  {
    hide Divisible, Loadable, OthersKept;
    StaysLoadable(s, s', t.signalId);
  }

  /** The copy of a moved signal is again a mirror, unless the move was the last one. */
  lemma MovedCopyMirrors(s: Store, s': Store, v: TrackedSignal, t: Transition)
    requires Mirrors(s, v) && Requested(v, t) && !Terminal(t.target)
             && t.target in SignalTransitions(s.signals[t.signalId].status)
    requires s'.signals == s.signals[t.signalId := MovedSignal(s.signals[t.signalId], t)]
    requires s'.trades == s.trades[t.signalId := MovedTrade(s.trades[t.signalId], t)]
    ensures Mirrors(s', MovedCopy(v, t))
  {
    hide MarkLe, Divisible;
  }

  lemma MarkedRow(r: VirtualTradeRecord, mark: TradeMark)
    ensures CheckpointTrade(r, mark) == r.(lastTrade := CheckpointTrade(r, mark).lastTrade)
  {
  }

  lemma CheckpointConsistent(s: Store, id: nat, mark: TradeMark)
    requires Consistent(s) && id in s.trades
    ensures Consistent(Checkpointed(s, id, mark))
  {
    hide KeyFits, IsTransition, Notices, UniqueKeys, CheckpointTrade, Rank;
    MarkedRow(s.trades[id], mark);
    var s' := Checkpointed(s, id, mark);
    forall e | e in s'.events ensures HistoryFits(s', e) {
      assert HistoryFits(s, e);
    }
  }

  lemma CheckpointKeeps(s: Store, id: nat, mark: TradeMark)
    requires Consistent(s) && id in s.trades
    ensures Consistent(Checkpointed(s, id, mark)) && OthersKept(s, Checkpointed(s, id, mark), id)
    ensures Trackable(s, id) ==>
              Trackable(Checkpointed(s, id, mark), id) && View(Checkpointed(s, id, mark), id) == View(s, id)
  {
    hide Consistent, CheckpointTrade;
    CheckpointConsistent(s, id, mark);
    MarkedRow(s.trades[id], mark);
  }

  lemma CheckpointedCopyMirrors(s: Store, v: TrackedSignal, mark: TradeMark)
    requires Mirrors(s, v)
    ensures Mirrors(Checkpointed(s, v.state.signalId, mark), v.(mark := Some(mark)))
  {
    hide Divisible;
    MarkLeReflexive(mark);
  }

  lemma CheckpointStaysLoadable(s: Store, v: TrackedSignal, mark: TradeMark)
    requires Loadable(s) && Mirrors(s, v)
    ensures Loadable(Checkpointed(s, v.state.signalId, mark))
  {
    hide Tracked, ActiveStatus, MarkLe;
    MarkedRow(s.trades[v.state.signalId], mark);
  }

  // ---------- requests ----------

  function CoverageRequest(v: TrackedSignal, target: SignalStatus, at: int, anchor: int,
                           eventType: EventType): Transition {
    Transition(v.state.signalId, target, at, CoverageKey(v.state.signalId, anchor), eventType, None, None, None, None,
      None, None, None)
  }

  /** The key of a coverage decision is unused as long as the signal is still preparing, so it is applied. */
  lemma CoverageAccepted(s: Store, v: TrackedSignal, target: SignalStatus, at: int, anchor: int, eventType: EventType)
    requires Consistent(s) && Mirrors(s, v) && v.state.status == Preparing && target in {Active, CoverageFailed}
    ensures MovesTo(s, CoverageRequest(v, target, at, anchor, eventType))
  {
    var t := CoverageRequest(v, target, at, anchor, eventType);
    var found := FindEvent(s.events, t.key);
    assert found.Some? ==> HistoryFits(s, found.value);
    TablesAgree(Preparing, target);
    ApplyKeepsConsistent(s, t);
    hide HistoryFits, KeyFits, MovedSignal, MovedTrade;
  }

  lemma MovedRowsKeepOthers(s: Store, s': Store, t: Transition)
    requires t.signalId < |s.signals| && t.signalId in s.trades
    requires s'.signals == s.signals[t.signalId := MovedSignal(s.signals[t.signalId], t)]
    requires s'.trades == s.trades[t.signalId := MovedTrade(s.trades[t.signalId], t)]
    ensures OthersKept(s, s', t.signalId)
  {
    hide MovedSignal, MovedTrade;
  }

  /** The tables a proven merge is replayed on: a preparing signal is activated first. */
  function ReplayBase(s: Store, v: TrackedSignal, anchor: int): Store {
    if v.state.status == Preparing
      then ApplyTransition(s, CoverageRequest(v, Active, anchor, anchor, TradeCoverageReady)).0 else s
  }

  /**
   * A proven merge: the signal is active or further, the merged trades are processed and the last one is checkpointed.
   */
  ghost predicate Replayed(s: Store, s': Store, v: TrackedSignal, anchor: int, trades: seq<PublicTrade>) {
    var start, id := ReplayBase(s, v, anchor), v.state.signalId;
    && Consistent(start) && Trackable(start, id)
    && (v.state.status == Preparing ==> start.signals[id].status == Active)
    && s' == AfterReplay(ProcessEvents(start, id, TradeEvents(trades)), id, trades)
  }

  /** An unproven merge for a preparing signal: coverage has failed, and nothing else happened. */
  ghost predicate CoverageGivenUp(s: Store, s': Store, v: TrackedSignal, now: int, anchor: int) {
    && s' == ApplyTransition(s, CoverageRequest(v, CoverageFailed, now, anchor, TradeCoverageFailed)).0
    && v.state.signalId < |s'.signals| && s'.signals[v.state.signalId].status == CoverageFailed
  }

  // ---------- the outside world ----------

  /** What the service asks for: recent REST trades, the stream's buffer since a time, and reconciled candles. */
  datatype World = World(
    rest: string -> seq<PublicTrade>,
    buffered: (string, int) -> seq<PublicTrade>,
    candles: (string, int, int) -> seq<Candle1m>)

  /** The stream buffers the trades of each symbol apart; REST answers need not be of the symbol. */
  ghost predicate OwnTrades(w: World) {
    forall symbol, since :: OfSymbol(symbol, w.buffered(symbol, since))
  }

  /** The last minute that has closed by now. */
  function LastClosedMinute(now: int): int {
    now / MINUTE - 1
  }

  function LostCandles(w: World, symbol: string, anchor: int, now: int): seq<Candle1m> {
    if LastClosedMinute(now) < anchor / MINUTE then [] else w.candles(symbol, anchor / MINUTE, LastClosedMinute(now))
  }

  function ReplayFrom(now: int): int {
    (LastClosedMinute(now) + 1) * MINUTE
  }

  /** The tables after `_recover_with_candles`. */
  function AfterRecovery(s: Store, id: nat, symbol: string, anchor: int, w: World, now: int): Store
    requires Consistent(s) && Trackable(s, id)
  {
    var candles := LostCandles(w, symbol, anchor, now);
    if candles == [] then s
    else AfterCandles(s, id, candles, anchor, ReplayFrom(now), w.buffered(symbol, ReplayFrom(now)))
  }

  function MergeFor(w: World, symbol: string, anchor: int): TradeCoverage {
    MergeTradeCoverage(w.rest(symbol), w.buffered(symbol, anchor), anchor)
  }

  /** What `_establish_coverage` does to the tables for the cached signal v. */
  ghost predicate Covered(s: Store, s': Store, v: TrackedSignal, symbol: string, anchor: int, w: World, now: int) {
    var merge, id := MergeFor(w, symbol, anchor), v.state.signalId;
    && Consistent(s) && Trackable(s, id)
    && (merge.Proven? ==> Replayed(s, s', v, anchor, merge.trades))
    && (merge.Unproven? && v.state.status == Preparing ==> CoverageGivenUp(s, s', v, now, anchor))
    && (merge.Unproven? && v.state.status != Preparing ==> s' == AfterRecovery(s, id, symbol, anchor, w, now))
  }

  /** The tables after one trade of a tracked signal. */
  function AfterTrade(s: Store, id: nat, trade: PublicTrade, checkpoint: bool): Store
    requires Consistent(s) && Trackable(s, id)
  {
    EventKeepsTrackable(s, id, TradeEvent(trade));
    var s' := ProcessEvent(s, id, TradeEvent(trade)).value;
    if checkpoint && !Terminal(s'.signals[id].status) then Checkpointed(s', id, MarkOf(trade)) else s'
  }

  // ---------- the service ----------

  /** What the service holds for each symbol. */
  datatype Tracking = Tracking(
    signals: map<string, TrackedSignal>, pending: map<string, int>, ready: set<string>, subscribed: set<string>)

  predicate OnlyFor(symbol: string, a: Tracking, b: Tracking) {
    && a.signals - {symbol} == b.signals - {symbol} && a.pending - {symbol} == b.pending - {symbol}
    && a.ready - {symbol} == b.ready - {symbol} && a.subscribed - {symbol} == b.subscribed - {symbol}
  }

  /** A closed signal is forgotten altogether. */
  function Dropped(c: Tracking, symbol: string): Tracking {
    Tracking(c.signals - {symbol}, c.pending - {symbol}, c.ready - {symbol}, c.subscribed - {symbol})
  }

  function Refreshed(c: Tracking, s: Store, symbol: string): Tracking {
    match FirstOf(ListTracking(s), symbol)
    case Some(row) => c.(signals := c.signals[symbol := row])
    case None => c.(signals := c.signals - {symbol})
  }

  /** The cache after `_transition`: an unapplied request reloads the row, an error changes nothing. */
  function AfterMove(c: Tracking, s: Store, symbol: string, v: TrackedSignal, t: Transition): Tracking {
    match ApplyTransition(s, t).1
    case Err(_) => c
    case Ok(result) =>
      if !result.applied then Refreshed(c, s, symbol)
      else if Terminal(t.target) then Dropped(c, symbol)
      else c.(signals := c.signals[symbol := MovedCopy(v, t)])
  }

  /** The cached row is still the signal's, with the mark it had. */
  predicate SameSignal(a: TrackedSignal, b: TrackedSignal) {
    a.state.signalId == b.state.signalId && a.state.symbol == b.state.symbol && a.mark == b.mark
      && a.createdAt == b.createdAt
  }

  /**
   * After coverage was attempted: an open signal stays cached, a proven one is no longer pending, and a recovery
   * with nothing buffered leaves the mark where it was.
   */
  predicate StillCached(s: Store, c: Tracking, v: TrackedSignal, symbol: string, anchor: int, w: World, now: int) {
    var id, merge := v.state.signalId, MergeFor(w, symbol, anchor);
    && id < |s.signals| && (symbol in c.signals <==> !Terminal(s.signals[id].status))
    && (merge.Proven? ==> symbol !in c.pending)
    && (symbol in c.signals ==> c.signals[symbol].state.signalId == id)
    && (symbol in c.signals && merge.Unproven? && w.buffered(symbol, ReplayFrom(now)) == [] ==>
          SameSignal(c.signals[symbol], v))
  }

  class SignalLifecycleService {
    const repository: SignalRepository
    var signals: map<string, TrackedSignal>
    var coveragePending: map<string, int>
    var streamReady: set<string>
    var subscribed: set<string>
    var lastCheckpoint: map<string, int>

    ghost predicate Valid()
      reads this, repository
    {
      var s := repository.Contents();
      Consistent(s) && Loadable(s) && CacheMirrors(s, signals)
    }

    function Cached(): Tracking
      reads this
    {
      Tracking(signals, coveragePending, streamReady, subscribed)
    }

    constructor (repository: SignalRepository)
      requires Consistent(repository.Contents()) && Loadable(repository.Contents())
      ensures Valid() && this.repository == repository && Cached() == Tracking(map[], map[], {}, {})
              && lastCheckpoint == map[]
    {
      this.repository := repository;
      signals, coveragePending, streamReady, subscribed, lastCheckpoint := map[], map[], {}, {}, map[];
    }

    // ---------- loading ----------

    /** Unsubscribes the symbols that have no open signal any more. */
    method Forget(gone: set<string>)
      modifies this`coveragePending, this`lastCheckpoint, this`streamReady, this`subscribed
      ensures Cached() == Without(old(Cached()), gone) && lastCheckpoint == old(lastCheckpoint) - gone
    {
      hide Without;
      NoneGone(old(Cached()), lastCheckpoint);
      var done: set<string> := {};
      while done != gone
        invariant done <= gone && Cached() == Without(old(Cached()), done)
                  && lastCheckpoint == old(lastCheckpoint) - done
        decreases |gone - done|
      {
        var symbol :| symbol in gone - done;
        OneMoreGone(old(Cached()), old(lastCheckpoint), done, symbol);
        subscribed := subscribed - {symbol};
        coveragePending := coveragePending - {symbol};
        lastCheckpoint := lastCheckpoint - {symbol};
        streamReady := streamReady - {symbol};
        done := done + {symbol};
      }
    }

    /** The first half of `_reconcile`: the open signals are loaded, and symbols that lost theirs are forgotten. */
    method Load()
      requires Valid()
      modifies this
      ensures Valid() && Cached() == AfterLoad(old(Cached()), repository.Contents())
      ensures lastCheckpoint == old(lastCheckpoint) - (old(signals).Keys - signals.Keys)
    {
      hide Consistent, CacheMirrors, Loadable, ListTracking, BySymbol, Without;
      var current := BySymbol(ListTracking(repository.Contents()));
      LoadedCacheMirrors(repository.Contents());
      Forget(signals.Keys - current.Keys);
      SignalsApart(old(Cached()), old(signals).Keys - current.Keys);
      signals := current;
    }

    method RefreshSignal(symbol: string)
      requires Valid()
      modifies this`signals
      ensures Valid() && Cached() == Refreshed(old(Cached()), repository.Contents(), symbol)
    {
      hide Consistent, Mirrors, Loadable;
      var rows := ListTracking(repository.Contents());
      match FirstOf(rows, symbol) {
        case None => signals := signals - {symbol};
        case Some(row) =>
          LoadedMirrors(repository.Contents(), row);
          signals := signals[symbol := row];
      }
    }

    // ---------- transitions ----------

    /** `_transition`: write the tables, then move, drop or reload the cached copy. */
    method Move(symbol: string, v: TrackedSignal, t: Transition) returns (r: Result<TransitionResult, TransitionError>)
      requires Valid() && Holds(signals, symbol, v) && Requested(v, t)
      modifies this`signals, this`coveragePending, this`streamReady, this`subscribed, repository
      ensures Valid() && (repository.Contents(), r) == old(ApplyTransition(repository.Contents(), t))
      ensures Cached() == AfterMove(old(Cached()), old(repository.Contents()), symbol, v, t)
    {
      hide Consistent, Mirrors, MovedSignal, MovedTrade, MovedCopy, OthersKept, ApplyTransition, Loadable, ListTracking;
      ghost var before := repository.Contents();
      OneRowPerSymbol(before, signals, symbol);
      MirrorIsKnown(before, v);
      TransitionCases(before, t);
      r := repository.Apply(t);
      if r.Err? {
        return;
      }
      if !r.value.applied {
        RefreshSignal(symbol);
        return;
      }
      ghost var after := repository.Contents();
      MovedRowsKeepOthers(before, after, t);
      OthersStayMirrored(before, after, t.signalId, signals);
      MovedStaysLoadable(before, after, v, t);
      if t.target in {Expired, Invalidated, Stopped, StoppedAtBreakeven, Tp2Completed, Ambiguous, CoverageFailed} {
        signals := signals - {symbol};
        coveragePending := coveragePending - {symbol};
        streamReady := streamReady - {symbol};
        subscribed := subscribed - {symbol};
      } else {
        MovedCopyMirrors(before, after, v, t);
        signals := signals[symbol := MovedCopy(v, t)];
        SameSymbol(v, t);
      }
    }

    /** The loop over an event's actions, shared by `_process_trade` and `_recover_with_candles`. */
    method ApplyEvent(symbol: string, e: MarketEvent)
      requires Valid() && symbol in signals
      modifies this`signals, this`coveragePending, this`streamReady, this`subscribed, repository
      ensures Valid() && symbol in old(signals) && OnlyFor(symbol, old(Cached()), Cached())
      ensures var id := old(signals)[symbol].state.signalId;
              && Trackable(old(repository.Contents()), id)
              && ProcessEvent(old(repository.Contents()), id, e) == Ok(repository.Contents())
              && id < |repository.Contents().signals|
              && (symbol in signals <==> !Terminal(repository.Contents().signals[id].status))
      ensures symbol in signals ==> SameSignal(signals[symbol], old(signals)[symbol])
      ensures symbol in signals ==> Cached() == old(Cached()).(signals := signals)
      ensures symbol !in signals ==> Cached() == Dropped(old(Cached()), symbol)
    {
      hide Consistent, Request, MovedCopy, MovedSignal, MovedTrade, ApplyTransition, Chain, Mirrors, OthersKept,
        Remaining,
        EvaluatePublicTrade, EvaluateClosedCandle, Loadable, Terminal, Refreshed;
      var signal := signals[symbol];
      var id := signal.state.signalId;
      ghost var before := repository.Contents();
      MirrorIsKnown(before, signal);
      var acts := ActionsFor(signal.state, e);
      StartRemaining(before, id, e);
      var k := 0;
      assert acts[0..] == acts;
      while k < |acts|
        invariant 0 <= k <= |acts| && Valid() && symbol in signals && signals[symbol] == signal
                  && signal.state.signalId == id
        invariant SameSignal(signal, old(signals)[symbol])
        invariant Trackable(repository.Contents(), id) && Remaining(repository.Contents(), id, acts[k..])
        invariant ProcessEvent(before, id, e) == ProcessActions(repository.Contents(), id, acts[k..], e, k)
        invariant Cached() == old(Cached()).(signals := signals) && signals - {symbol} == old(signals) - {symbol}
      {
        ghost var now := repository.Contents();
        MirrorIsKnown(now, signal);
        NextActionAccepted(now, id, acts[k..], e, k);
        assert acts[k..][0] == acts[k] && acts[k..][1..] == acts[k + 1..];
        var t := Request(signal.state, acts[k], e, k);
        RequestTarget(signal.state, acts[k], e, k);
        var result := Move(symbol, signal, t);
        MovedStatus(now, repository.Contents(), t);
        if symbol !in signals {
          return;
        }
        SameSymbol(signal, t);
        signal := signals[symbol];
        k := k + 1;
      }
      MirrorIsKnown(repository.Contents(), signal);
    }

    // ---------- trades ----------

    /** `_checkpoint`: the stored mark only moves forward, the cached one is overwritten. */
    method SaveCheckpoint(symbol: string, trade: PublicTrade, now: int)
      requires Valid() && symbol in signals
      modifies this`signals, this`lastCheckpoint, repository
      ensures Valid() && repository.Contents()
              == Checkpointed(old(repository.Contents()), old(signals)[symbol].state.signalId, MarkOf(trade))
      ensures signals == old(signals)[symbol := old(signals)[symbol].(mark := Some(MarkOf(trade)))]
      ensures lastCheckpoint == old(lastCheckpoint)[symbol := now]
    {
      hide Consistent, Mirrors, OthersKept, CheckpointTrade, Loadable;
      var v, mark := signals[symbol], MarkOf(trade);
      ghost var before := repository.Contents();
      OneRowPerSymbol(before, signals, symbol);
      MirrorIsKnown(before, v);
      CheckpointKeeps(before, v.state.signalId, mark);
      CheckpointedCopyMirrors(before, v, mark);
      CheckpointStaysLoadable(before, v, mark);
      OthersStayMirrored(before, Checkpointed(before, v.state.signalId, mark), v.state.signalId, signals);
      var found := repository.Checkpoint(v.state.signalId, mark);
      lastCheckpoint := lastCheckpoint[symbol := now];
      signals := signals[symbol := v.(mark := Some(mark))];
    }

    /** `_process_trade`: the actions, then a checkpoint when one is due. */
    method ProcessTrade(trade: PublicTrade, checkpoint: bool, now: int, interval: int)
      requires Valid()
      modifies this, repository
      ensures Valid() && OnlyFor(trade.symbol, old(Cached()), Cached())
      ensures trade.symbol !in old(signals) ==>
                repository.Contents() == old(repository.Contents()) && Cached() == old(Cached())
                  && lastCheckpoint == old(lastCheckpoint)
      ensures trade.symbol in old(signals) ==>
                var s, v := old(repository.Contents()), old(signals)[trade.symbol];
                var id, due := v.state.signalId, checkpoint && Due(old(lastCheckpoint), trade.symbol, now, interval);
                && Consistent(s) && Trackable(s, id) && id < |repository.Contents().signals|
                && repository.Contents() == AfterTrade(s, id, trade, due)
                && (trade.symbol in signals <==> !Terminal(repository.Contents().signals[id].status))
                && (trade.symbol in signals ==>
                      && Cached() == old(Cached()).(signals := signals)
                      && SameSignal(signals[trade.symbol], if due then v.(mark := Some(MarkOf(trade))) else v)
                      && lastCheckpoint == if due then old(lastCheckpoint)[trade.symbol := now]
                           else old(lastCheckpoint))
                && (trade.symbol !in signals ==>
                      Cached() == Dropped(old(Cached()), trade.symbol) && lastCheckpoint == old(lastCheckpoint))
    {
      hide Consistent, Mirrors, ProcessEvent, CheckpointTrade, Loadable, Terminal;
      if trade.symbol !in signals {
        return;
      }
      ghost var s, id := repository.Contents(), signals[trade.symbol].state.signalId;
      MirrorIsKnown(s, signals[trade.symbol]);
      EventKeepsTrackable(s, id, TradeEvent(trade));
      ApplyEvent(trade.symbol, TradeEvent(trade));
      if trade.symbol !in signals {
        return;
      }
      if checkpoint && Due(lastCheckpoint, trade.symbol, now, interval) {
        SaveCheckpoint(trade.symbol, trade, now);
      }
    }

    /** The replay of merged or buffered trades: stop when the signal is closed, checkpoint the last one otherwise. */
    method ReplayTrades(symbol: string, trades: seq<PublicTrade>, now: int)
      requires Valid() && symbol in signals && OfSymbol(symbol, trades)
      modifies this, repository
      ensures Valid() && OnlyFor(symbol, old(Cached()), Cached())
      ensures var s, id := old(repository.Contents()), old(signals)[symbol].state.signalId;
              && Consistent(s) && Trackable(s, id) && id < |repository.Contents().signals|
              && (symbol in signals <==> !Terminal(repository.Contents().signals[id].status))
              && repository.Contents() == AfterReplay(ProcessEvents(s, id, TradeEvents(trades)), id, trades)
      ensures symbol in signals ==>
                Cached() == old(Cached()).(signals := signals)
                  && signals[symbol].state.signalId == old(signals)[symbol].state.signalId
      ensures symbol !in signals ==> Cached() == Dropped(old(Cached()), symbol)
      ensures symbol in signals && trades == [] ==> SameSignal(signals[symbol], old(signals)[symbol])
      ensures Ticked(old(lastCheckpoint), lastCheckpoint, now)
    {
      hide Consistent, Mirrors, ProcessEvent, CheckpointTrade, ProcessEvents, Terminal, Loadable;
      ghost var s, id := repository.Contents(), signals[symbol].state.signalId;
      MirrorIsKnown(s, signals[symbol]);
      var k := 0;
      assert trades[0..] == trades;
      while k < |trades| && symbol in signals
        invariant 0 <= k <= |trades| && Valid() && Trackable(repository.Contents(), id)
        invariant symbol in signals ==> SameSignal(signals[symbol], old(signals)[symbol])
        invariant symbol in signals <==> !Terminal(repository.Contents().signals[id].status)
        invariant ProcessEvents(s, id, TradeEvents(trades))
                  == ProcessEvents(repository.Contents(), id, TradeEvents(trades[k..]))
        invariant OnlyFor(symbol, old(Cached()), Cached())
        invariant Cached() == if symbol in signals then old(Cached()).(signals := signals)
                  else Dropped(old(Cached()), symbol)
        invariant lastCheckpoint == old(lastCheckpoint)
      {
        EventKeepsTrackable(repository.Contents(), id, TradeEvent(trades[k]));
        FirstOfRest(repository.Contents(), id, trades, k);
        ProcessTrade(trades[k], false, now, 0);
        k := k + 1;
      }
      if symbol in signals {
        assert trades[k..] == [];
        NoEvents(repository.Contents(), id);
      } else {
        ClosedIsQuiet(repository.Contents(), id, TradeEvents(trades[k..]));
      }
      if trades != [] && symbol in signals {
        SaveCheckpoint(symbol, trades[|trades| - 1], now);
      }
    }

    // ---------- coverage ----------

    /** The loop of `_recover_with_candles` over the candles of the lost window. */
    method ReplayCandles(symbol: string, candles: seq<Candle1m>)
      requires Valid() && symbol in signals
      modifies this`signals, this`coveragePending, this`streamReady, this`subscribed, repository
      ensures Valid() && OnlyFor(symbol, old(Cached()), Cached())
      ensures var s, v := old(repository.Contents()), old(signals)[symbol];
              && Consistent(s) && Trackable(s, v.state.signalId) && v.state.signalId < |repository.Contents().signals|
              && repository.Contents() == ProcessEvents(s, v.state.signalId, CandleEvents(candles))
              && (symbol in signals <==> !Terminal(repository.Contents().signals[v.state.signalId].status))
              && (symbol in signals ==> SameSignal(signals[symbol], v))
    {
      hide Consistent, Mirrors, ProcessEvent, ProcessEvents, Terminal, Loadable;
      ghost var s, id := repository.Contents(), signals[symbol].state.signalId;
      MirrorIsKnown(s, signals[symbol]);
      var k := 0;
      assert candles[0..] == candles;
      while k < |candles| && symbol in signals
        invariant 0 <= k <= |candles| && Valid() && Trackable(repository.Contents(), id)
        invariant symbol in signals ==> SameSignal(signals[symbol], old(signals)[symbol])
        invariant symbol in signals <==> !Terminal(repository.Contents().signals[id].status)
        invariant ProcessEvents(s, id, CandleEvents(candles))
                  == ProcessEvents(repository.Contents(), id, CandleEvents(candles[k..]))
        invariant OnlyFor(symbol, old(Cached()), Cached())
      {
        EventKeepsTrackable(repository.Contents(), id, CandleEvent(candles[k]));
        FirstCandleOfRest(repository.Contents(), id, candles, k);
        ApplyEvent(symbol, CandleEvent(candles[k]));
        k := k + 1;
      }
      if symbol in signals {
        assert candles[k..] == [];
        NoEvents(repository.Contents(), id);
      } else {
        ClosedIsQuiet(repository.Contents(), id, CandleEvents(candles[k..]));
      }
    }

    /** `_recover_with_candles`: the candles of the lost window, then the trades buffered after it. */
    method RecoverWithCandles(symbol: string, anchor: int, w: World, now: int) returns (recovered: bool)
      requires Valid() && symbol in signals && OwnTrades(w)
      modifies this, repository
      ensures Valid() && OnlyFor(symbol, old(Cached()), Cached())
      ensures recovered == (LostCandles(w, symbol, anchor, now) != [])
      ensures var s, id := old(repository.Contents()), old(signals)[symbol].state.signalId;
              && Consistent(s) && Trackable(s, id) && id < |repository.Contents().signals|
              && repository.Contents() == AfterRecovery(s, id, symbol, anchor, w, now)
              && (symbol in signals <==> !Terminal(repository.Contents().signals[id].status))
              && (symbol in signals ==> signals[symbol].state.signalId == id)
      ensures if recovered then symbol !in coveragePending else Cached() == old(Cached())
      ensures Ticked(old(lastCheckpoint), lastCheckpoint, now)
      ensures symbol in signals && w.buffered(symbol, ReplayFrom(now)) == [] ==>
                SameSignal(signals[symbol], old(signals)[symbol])
    {
      hide Consistent, Mirrors, ProcessEvents, Terminal, RecordTrackingEvent, AfterReplay, Loadable, Tracked, StateOf,
        ActiveStatus, CacheMirrors;
      var tracked := signals[symbol].state.signalId;
      ghost var s := repository.Contents();
      CachedIsKnown(s, signals, symbol);
      var from, end := anchor / MINUTE, LastClosedMinute(now);
      if end < from {
        return false;
      }
      var candles := w.candles(symbol, from, end);
      if candles == [] {
        return false;
      }
      ReplayCandles(symbol, candles);
      coveragePending := coveragePending - {symbol};
      recovered := true;
      if symbol !in signals {
        return;
      }
      var at, key := (end + 1) * MINUTE, RecoveryKey(tracked, anchor);
      Portfolio.TrackingKeeps(repository.Contents(), tracked, TradeCoverageFallbackRecovered, at, key);
      RecordKeepsMirrors(repository.Contents(), tracked, TradeCoverageFallbackRecovered, at, key, signals);
      var created := repository.Record(tracked, TradeCoverageFallbackRecovered, at, key);
      ReplayTrades(symbol, w.buffered(symbol, at), now);
    }

    /** The proven half of `_establish_coverage`: activate a waiting signal, then replay the merged trades. */
    method FollowTrades(symbol: string, anchor: int, trades: seq<PublicTrade>, now: int)
      requires Valid() && symbol in signals && OfSymbol(symbol, trades)
      modifies this, repository
      ensures Valid() && OnlyFor(symbol, old(Cached()), Cached()) && Ticked(old(lastCheckpoint), lastCheckpoint, now)
      ensures var v := old(signals)[symbol];
              && Replayed(old(repository.Contents()), repository.Contents(), v, anchor, trades)
              && v.state.signalId < |repository.Contents().signals| && symbol !in coveragePending
              && (symbol in signals <==> !Terminal(repository.Contents().signals[v.state.signalId].status))
              && (symbol in signals ==> signals[symbol].state.signalId == v.state.signalId)
    {
      hide Consistent, Mirrors, ProcessEvents, ApplyTransition, AfterReplay, MovedCopy, MovedSignal, MovedTrade,
        Loadable, Tracked,
        ActiveStatus, SignalTransitions, CacheMirrors, Refreshed;
      var v := signals[symbol];
      ghost var s := repository.Contents();
      CachedIsKnown(s, signals, symbol);
      if v.state.status == Preparing {
        var t := CoverageRequest(v, Active, anchor, anchor, TradeCoverageReady);
        CoverageAccepted(s, v, Active, anchor, anchor, TradeCoverageReady);
        var activated := Move(symbol, v, t);
        MovedStatus(s, repository.Contents(), t);
        SameSymbol(v, t);
        CachedIsKnown(repository.Contents(), signals, symbol);
      }
      coveragePending := coveragePending - {symbol};
      ReplayTrades(symbol, trades, now);
    }

    /** The unproven half for a waiting signal: coverage has failed, and so has the signal. */
    method GiveUp(symbol: string, anchor: int, now: int)
      requires Valid() && symbol in signals && signals[symbol].state.status == Preparing
      modifies this`signals, this`coveragePending, this`streamReady, this`subscribed, repository
      ensures Valid() && Cached() == Dropped(old(Cached()), symbol)
      ensures var v := old(signals)[symbol];
              && CoverageGivenUp(old(repository.Contents()), repository.Contents(), v, now, anchor)
    {
      hide Consistent, Mirrors, ApplyTransition, MovedCopy, MovedSignal, MovedTrade, Loadable, CacheMirrors, Refreshed;
      var v := signals[symbol];
      ghost var s := repository.Contents();
      CachedIsKnown(s, signals, symbol);
      var t := CoverageRequest(v, CoverageFailed, now, anchor, TradeCoverageFailed);
      CoverageAccepted(s, v, CoverageFailed, now, anchor, TradeCoverageFailed);
      var failed := Move(symbol, v, t);
      MovedStatus(s, repository.Contents(), t);
      coveragePending := coveragePending - {symbol};
    }

    /**
     * `_establish_coverage`: merge history and stream; activate and replay when the merge is proven, fail a waiting
     * signal or fall back to candles when it is not.
     */
    method EstablishCoverage(symbol: string, w: World, now: int)
      requires Valid() && OwnTrades(w)
      modifies this, repository
      ensures Valid() && OnlyFor(symbol, old(Cached()), Cached()) && Ticked(old(lastCheckpoint), lastCheckpoint, now)
      ensures symbol !in old(signals) || symbol !in old(coveragePending) ==>
                repository.Contents() == old(repository.Contents()) && Cached() == old(Cached())
      ensures symbol in old(signals) && symbol in old(coveragePending) ==>
                var s, v, anchor := old(repository.Contents()), old(signals)[symbol], old(coveragePending)[symbol];
                && Covered(s, repository.Contents(), v, symbol, anchor, w, now)
                && StillCached(repository.Contents(), Cached(), v, symbol, anchor, w, now)
    {
      hide Consistent, Mirrors, Replayed, AfterRecovery, MergeTradeCoverage, ApplyTransition, Loadable, Tracked,
        CacheMirrors, Terminal,
        LostCandles;
      if symbol !in signals || symbol !in coveragePending {
        return;
      }
      var v, anchor := signals[symbol], coveragePending[symbol];
      CachedIsKnown(repository.Contents(), signals, symbol);
      var rest, stream := w.rest(symbol), w.buffered(symbol, anchor);
      var merge := MergeTradeCoverage(rest, stream, anchor);
      if merge.Unproven? {
        if v.state.status == Preparing {
          ClosedByFailure();
          GiveUp(symbol, anchor, now);
          return;
        }
        var recovered := RecoverWithCandles(symbol, anchor, w, now);
        return;
      }
      MergedSymbols(rest, stream, anchor, symbol);
      FollowTrades(symbol, anchor, merge.trades, now);
    }

    // ---------- events and reconciliation ----------

    /** A trade from the stream; while coverage is pending it is left to the merge. */
    method OnTrade(trade: PublicTrade, now: int, interval: int)
      requires Valid()
      modifies this, repository
      ensures Valid() && OnlyFor(trade.symbol, old(Cached()), Cached())
      ensures trade.symbol in old(coveragePending) || trade.symbol !in old(signals) ==>
                repository.Contents() == old(repository.Contents()) && Cached() == old(Cached())
      ensures trade.symbol !in old(coveragePending) && trade.symbol in old(signals) ==>
                var s, v := old(repository.Contents()), old(signals)[trade.symbol];
                var id, due := v.state.signalId, Due(old(lastCheckpoint), trade.symbol, now, interval);
                && Consistent(s) && Trackable(s, id) && repository.Contents() == AfterTrade(s, id, trade, due)
                && id < |repository.Contents().signals|
                && (trade.symbol in signals <==> !Terminal(repository.Contents().signals[id].status))
                && (trade.symbol in signals ==>
                      && SameSignal(signals[trade.symbol], if due then v.(mark := Some(MarkOf(trade))) else v)
                      && Cached() == old(Cached()).(signals := signals)
                      && lastCheckpoint == if due then old(lastCheckpoint)[trade.symbol := now]
                           else old(lastCheckpoint))
    {
      if trade.symbol in coveragePending {
        return;
      }
      ProcessTrade(trade, true, now, interval);
    }

    /** A lost stream puts the signal back into pending coverage, anchored at its last processed trade. */
    method OnDisconnect(symbol: string)
      requires Valid()
      modifies this`streamReady, this`coveragePending
      ensures Valid() && streamReady == old(streamReady) - {symbol}
      ensures coveragePending == if symbol in signals
              then old(coveragePending)[symbol := signals[symbol].CoverageAnchor()] else old(coveragePending)
    {
      streamReady := streamReady - {symbol};
      if symbol in signals {
        coveragePending := coveragePending[symbol := signals[symbol].CoverageAnchor()];
      }
    }

    /** A stream that delivers again is the moment to prove coverage. */
    method OnReady(symbol: string, w: World, now: int)
      requires Valid() && OwnTrades(w)
      modifies this, repository
      ensures Valid() && OnlyFor(symbol, old(Cached()), Cached()) && Ticked(old(lastCheckpoint), lastCheckpoint, now)
      ensures symbol in old(signals) && symbol in old(coveragePending) ==>
                var s, v, anchor := old(repository.Contents()), old(signals)[symbol], old(coveragePending)[symbol];
                && Covered(s, repository.Contents(), v, symbol, anchor, w, now)
                && StillCached(repository.Contents(), Cached(), v, symbol, anchor, w, now)
      ensures symbol !in old(signals) || symbol !in old(coveragePending) ==>
                repository.Contents() == old(repository.Contents())
                  && Cached() == old(Cached()).(ready := old(streamReady) + {symbol})
    {
      streamReady := streamReady + {symbol};
      EstablishCoverage(symbol, w, now);
    }

    /** What `_reconcile` does for one loaded signal. */
    method Visit(symbol: string, v: TrackedSignal, w: World, now: int)
      requires Valid() && Holds(signals, symbol, v) && OwnTrades(w)
      modifies this, repository
      ensures Valid() && OnlyFor(symbol, old(Cached()), Cached()) && Ticked(old(lastCheckpoint), lastCheckpoint, now)
      ensures OthersKept(old(repository.Contents()), repository.Contents(), v.state.signalId)
      ensures v.state.signalId in repository.Contents().trades
      ensures Visited(old(repository.Contents()), repository.Contents(), old(Cached()), Cached(), symbol, v, w, now)
    {
      hide Consistent, Mirrors, ApplyTransition, MovedSignal, MovedTrade, Loadable, Covered, OthersKept;
      ghost var s := repository.Contents();
      MirrorIsKnown(s, v);
      NothingMoves(s, v.state.signalId);
      if v.state.status == Preparing && v.state.expiresAt <= now {
        ExpiryAccepted(s, v);
        var expired := Move(symbol, v, ExpiryRequest(v));
        MovedRowsKeepOthers(s, repository.Contents(), ExpiryRequest(v));
        return;
      }
      if v.state.status == Active && v.state.expiresAt <= now && symbol !in coveragePending && symbol in streamReady {
        ExpiryAccepted(s, v);
        var expired := Move(symbol, v, ExpiryRequest(v));
        MovedRowsKeepOthers(s, repository.Contents(), ExpiryRequest(v));
        return;
      }
      if symbol !in subscribed {
        subscribed := subscribed + {symbol};
        coveragePending := coveragePending[symbol := v.CoverageAnchor()];
      } else if symbol in coveragePending && symbol in streamReady {
        ghost var anchor := coveragePending[symbol];
        EstablishCoverage(symbol, w, now);
        CoverageKeepsOthers(s, repository.Contents(), v, symbol, anchor, w, now);
      }
    }

    /**
     * `_reconcile`: load the open signals, then visit each. Every loaded signal has been visited once, on its own
     * rows and its own part of the cache as they were loaded.
     */
    method Reconcile(w: World, now: int)
      requires Valid() && OwnTrades(w)
      modifies this, repository
      ensures Valid() && Ticked(old(lastCheckpoint), lastCheckpoint, now)
      ensures var s, loaded := old(repository.Contents()), AfterLoad(old(Cached()), old(repository.Contents()));
              && CacheMirrors(s, loaded.signals)
              && forall symbol :: symbol in loaded.signals ==>
                   VisitedOnce(s, repository.Contents(), loaded, Cached(), symbol, loaded.signals[symbol], w, now)
    {
      hide Consistent, Mirrors, Loadable, OthersKept, Visited, Progress, OnlyFor, ListTracking, Without;
      ghost var s := repository.Contents();
      LoadedCacheMirrors(s);
      Load();
      ghost var loaded := Cached();
      var items := signals;
      var left := items.Keys;
      NothingVisited(s, loaded, w, now);
      while left != {}
        invariant Valid() && left <= items.Keys && Progress(s, repository.Contents(), loaded, Cached(), left, w, now)
        invariant Ticked(old(lastCheckpoint), lastCheckpoint, now)
        decreases |left|
      {
        var symbol :| symbol in left;
        ghost var before, cached := repository.Contents(), Cached();
        NextIsUntouched(s, before, loaded, cached, left, symbol, w, now);
        Visit(symbol, items[symbol], w, now);
        ProgressMade(s, before, repository.Contents(), loaded, cached, Cached(), left, symbol, w, now);
        left := left - {symbol};
      }
      EachVisited(s, repository.Contents(), loaded, Cached(), w, now);
    }
  }

  // ---------- reconciliation ----------

  /** Nothing but the cached rows is left of the symbols that are gone. */
  function Without(c: Tracking, gone: set<string>): Tracking {
    Tracking(c.signals, c.pending - gone, c.ready - gone, c.subscribed - gone)
  }

  lemma OneMoreGone(c: Tracking, last: map<string, int>, gone: set<string>, symbol: string)
    ensures Without(c, gone + {symbol})
            == Tracking(c.signals, Without(c, gone).pending - {symbol}, Without(c, gone).ready - {symbol},
                                                    Without(c, gone).subscribed - {symbol})
    ensures last - (gone + {symbol}) == last - gone - {symbol}
  {
  }

  lemma SignalsApart(c: Tracking, gone: set<string>)
    ensures Without(c, gone).signals == c.signals
  {
  }

  lemma NoneGone(c: Tracking, last: map<string, int>)
    ensures Without(c, {}) == c && last - {} == last
  {
  }

  function AfterLoad(c: Tracking, s: Store): Tracking {
    var loaded := BySymbol(ListTracking(s));
    Without(c, c.signals.Keys - loaded.Keys).(signals := loaded)
  }

  function ExpiryRequest(v: TrackedSignal): Transition {
    Transition(v.state.signalId, Expired, v.state.expiresAt, ExpiryKey(v.state.signalId), SignalExpired,
               None, None, None, None, None, None, None)
  }

  lemma ExpiryAccepted(s: Store, v: TrackedSignal)
    requires Consistent(s) && Mirrors(s, v) && v.state.status in {Preparing, Active}
    ensures MovesTo(s, ExpiryRequest(v))
  {
    var t := ExpiryRequest(v);
    var found := FindEvent(s.events, t.key);
    assert found.Some? ==> HistoryFits(s, found.value);
    TablesAgree(v.state.status, Expired);
    ApplyKeepsConsistent(s, t);
    hide HistoryFits, KeyFits, MovedSignal, MovedTrade;
  }

  /** A waiting signal past its time; once active, only while its trades are covered. */
  predicate Overdue(c: Tracking, symbol: string, v: TrackedSignal, now: int) {
    && v.state.expiresAt <= now
    && (v.state.status == Preparing || (v.state.status == Active && symbol !in c.pending && symbol in c.ready))
  }

  ghost predicate Visited(s: Store, s': Store, c: Tracking, c': Tracking, symbol: string, v: TrackedSignal, w: World,
                          now: int) {
    if Overdue(c, symbol, v, now) then
      MovesTo(s, ExpiryRequest(v)) && s' == ApplyTransition(s, ExpiryRequest(v)).0 && c' == Dropped(c, symbol)
    else if symbol !in c.subscribed then
      s' == s && c' == c.(subscribed := c.subscribed + {symbol}, pending := c.pending[symbol := v.CoverageAnchor()])
    else if symbol in c.pending && symbol in c.ready then
      Covered(s, s', v, symbol, c.pending[symbol], w, now)
    else s' == s && c' == c
  }

  predicate SameRows(s: Store, s': Store, id: nat) {
    && id < |s.signals| && id < |s'.signals| && s.signals[id] == s'.signals[id]
    && id in s.trades && id in s'.trades && s.trades[id] == s'.trades[id]
  }

  predicate SameFor(symbol: string, a: Tracking, b: Tracking) {
    && (symbol in a.signals <==> symbol in b.signals)
    && (symbol in a.signals ==> a.signals[symbol] == b.signals[symbol])
    && (symbol in a.pending <==> symbol in b.pending)
    && (symbol in a.pending ==> a.pending[symbol] == b.pending[symbol])
    && (symbol in a.ready <==> symbol in b.ready) && (symbol in a.subscribed <==> symbol in b.subscribed)
  }

  predicate Untouched(s: Store, s': Store, c: Tracking, c': Tracking, symbol: string, v: TrackedSignal) {
    Holds(c'.signals, symbol, v) && SameRows(s, s', v.state.signalId) && SameFor(symbol, c, c')
  }

  /** The signal was visited once, on its own rows and its symbol's part of the cache as they were loaded. */
  ghost predicate VisitedOnce(s: Store, s': Store, c: Tracking, c': Tracking, symbol: string, v: TrackedSignal,
                              w: World, now: int) {
    exists s1, s2, c1, c2 ::
      Visited(s1, s2, c1, c2, symbol, v, w, now) && Around(s, s1, s2, s', c, c1, c2, c', symbol, v)
  }

  predicate Around(s: Store, s1: Store, s2: Store, s': Store, c: Tracking, c1: Tracking, c2: Tracking, c': Tracking,
                   symbol: string, v: TrackedSignal) {
    && Untouched(s, s1, c, c1, symbol, v)
    && SameRows(s2, s', v.state.signalId) && SameFor(symbol, c2, c')
  }

  lemma LoadedIsUntouched(s: Store, c: Tracking, symbol: string, v: TrackedSignal)
    requires CacheMirrors(s, c.signals) && Holds(c.signals, symbol, v)
    ensures Untouched(s, s, c, c, symbol, v)
  {
    hide MarkLe, Tracked;
  }

  lemma SameStays(s: Store, s': Store, c: Tracking, c': Tracking, symbol: string, id: nat, other: string, otherId: nat)
    requires OthersKept(s, s', id) && OnlyFor(symbol, c, c') && other != symbol && otherId != id
    ensures SameFor(other, c, c')
    ensures otherId < |s.signals| && otherId in s.trades ==> SameRows(s, s', otherId)
  {
    assert other in c.signals <==> other in c.signals - {symbol};
    assert other in c.pending <==> other in c.pending - {symbol};
    assert other in c.ready <==> other in c.ready - {symbol};
    assert other in c.subscribed <==> other in c.subscribed - {symbol};
  }

  lemma JustVisited(s: Store, before: Store, after: Store, c: Tracking, c1: Tracking, c2: Tracking, symbol: string,
                    v: TrackedSignal,
                    w: World, now: int)
    requires Untouched(s, before, c, c1, symbol, v) && Visited(before, after, c1, c2, symbol, v, w, now)
    requires OthersKept(before, after, v.state.signalId) && v.state.signalId in after.trades
    ensures VisitedOnce(s, after, c, c2, symbol, v, w, now)
  {
    hide Visited;
    assert Around(s, before, after, after, c, c1, c2, c2, symbol, v);
  }

  lemma VisitedElsewhere(s: Store, before: Store, after: Store, c: Tracking, c1: Tracking, c2: Tracking, symbol: string,
                         id: nat,
                         other: string, v: TrackedSignal, w: World, now: int)
    requires OthersKept(before, after, id) && OnlyFor(symbol, c1, c2) && other != symbol && v.state.signalId != id
    ensures Untouched(s, before, c, c1, other, v) ==> Untouched(s, after, c, c2, other, v)
    ensures VisitedOnce(s, before, c, c1, other, v, w, now) ==> VisitedOnce(s, after, c, c2, other, v, w, now)
  {
    hide Visited, OthersKept, OnlyFor;
    SameStays(before, after, c1, c2, symbol, id, other, v.state.signalId);
    if VisitedOnce(s, before, c, c1, other, v, w, now) {
      var s1, s2, a1, a2 :| Visited(s1, s2, a1, a2, other, v, w, now)
        && Around(s, s1, s2, before, c, a1, a2, c1, other, v);
      assert Around(s, s1, s2, after, c, a1, a2, c2, other, v);
    }
  }

  /** The signals still to visit are as loaded, the others have been visited once. */
  ghost predicate Progress(s: Store, s': Store, c: Tracking, c': Tracking, left: set<string>, w: World, now: int) {
    && CacheMirrors(s, c.signals)
    && (forall symbol :: symbol in c.signals && symbol in left ==> Untouched(s, s', c, c', symbol, c.signals[symbol]))
    && (forall symbol :: symbol in c.signals && symbol !in left ==>
          VisitedOnce(s, s', c, c', symbol, c.signals[symbol], w, now))
  }

  lemma NothingVisited(s: Store, c: Tracking, w: World, now: int)
    requires CacheMirrors(s, c.signals)
    ensures Progress(s, s, c, c, c.signals.Keys, w, now)
  {
    hide Mirrors, Untouched;
    forall symbol | symbol in c.signals ensures Untouched(s, s, c, c, symbol, c.signals[symbol]) {
      LoadedIsUntouched(s, c, symbol, c.signals[symbol]);
    }
  }

  lemma NextIsUntouched(s: Store, s': Store, c: Tracking, c': Tracking, left: set<string>, symbol: string, w: World,
                        now: int)
    requires Progress(s, s', c, c', left, w, now) && symbol in left && symbol in c.signals
    ensures Holds(c'.signals, symbol, c.signals[symbol])
  {
    hide VisitedOnce, Mirrors;
  }

  lemma ProgressMade(s: Store, before: Store, after: Store, c: Tracking, c1: Tracking, c2: Tracking, left: set<string>,
                     symbol: string,
                     w: World, now: int)
    requires Progress(s, before, c, c1, left, w, now) && symbol in left && symbol in c.signals
    requires Visited(before, after, c1, c2, symbol, c.signals[symbol], w, now) && OnlyFor(symbol, c1, c2)
    requires OthersKept(before, after, c.signals[symbol].state.signalId)
             && c.signals[symbol].state.signalId in after.trades
    ensures Progress(s, after, c, c2, left - {symbol}, w, now)
  {
    hide Mirrors, Untouched, VisitedOnce, Visited, OthersKept, OnlyFor;
    var v := c.signals[symbol];
    JustVisited(s, before, after, c, c1, c2, symbol, v, w, now);
    OneRowPerSymbol(s, c.signals, symbol);
    forall other | other in c.signals && other != symbol
      ensures other in left ==> Untouched(s, after, c, c2, other, c.signals[other])
      ensures other !in left ==> VisitedOnce(s, after, c, c2, other, c.signals[other], w, now)
    {
      VisitedElsewhere(s, before, after, c, c1, c2, symbol, v.state.signalId, other, c.signals[other], w, now);
    }
  }

  lemma EachVisited(s: Store, s': Store, c: Tracking, c': Tracking, w: World, now: int)
    requires Progress(s, s', c, c', {}, w, now)
    ensures CacheMirrors(s, c.signals)
    ensures forall symbol :: symbol in c.signals ==> VisitedOnce(s, s', c, c', symbol, c.signals[symbol], w, now)
  {
    hide VisitedOnce, Untouched, Mirrors;
  }

  /** After reconciling, an overdue signal is closed at its expiry time and forgotten. */
  lemma OverdueIsExpired(s: Store, s': Store, c: Tracking, c': Tracking, symbol: string, v: TrackedSignal, w: World,
                         now: int)
    requires VisitedOnce(s, s', c, c', symbol, v, w, now) && Overdue(c, symbol, v, now)
    ensures SameRows(s, s, v.state.signalId) && v.state.signalId < |s'.signals| && v.state.signalId in s'.trades
    ensures s'.signals[v.state.signalId] == MovedSignal(s.signals[v.state.signalId], ExpiryRequest(v))
    ensures s'.trades[v.state.signalId] == MovedTrade(s.trades[v.state.signalId], ExpiryRequest(v))
    ensures symbol !in c'.signals && symbol !in c'.pending && symbol !in c'.ready && symbol !in c'.subscribed
  {
    hide MovedSignal, MovedTrade, ApplyTransition, Consistent, Covered;
    var s1, s2, a1, a2 :| Visited(s1, s2, a1, a2, symbol, v, w, now) && Around(s, s1, s2, s', c, a1, a2, c', symbol, v);
  }

  /** A signal whose symbol was not streamed yet is subscribed and waits for coverage from its last known trade. */
  lemma NewcomerIsSubscribed(s: Store, s': Store, c: Tracking, c': Tracking, symbol: string, v: TrackedSignal, w: World,
                             now: int)
    requires VisitedOnce(s, s', c, c', symbol, v, w, now) && !Overdue(c, symbol, v, now) && symbol !in c.subscribed
    ensures SameRows(s, s', v.state.signalId) && Holds(c'.signals, symbol, v)
    ensures symbol in c'.subscribed && symbol in c'.pending && c'.pending[symbol] == v.CoverageAnchor()
  {
    hide ApplyTransition, Consistent, Covered;
    var s1, s2, a1, a2 :| Visited(s1, s2, a1, a2, symbol, v, w, now) && Around(s, s1, s2, s', c, a1, a2, c', symbol, v);
  }

  lemma NothingMoves(s: Store, id: nat)
    ensures OthersKept(s, s, id)
  {
  }

  // ---------- rows of other signals ----------

  lemma {:induction false} ActionsKeepOthers(s: Store, id: nat, acts: seq<Action>, e: MarketEvent, index: nat)
    requires Known(s, id) && s.signals[id].terms.riskAmount != 0.0
    ensures var r := ProcessActions(s, id, acts, e, index); r.Ok? ==> OthersKept(s, r.value, id)
    decreases |acts|
  {
    hide Request, MovedTrade;
    if acts != [] {
      var t := Request(StateOf(s, id), acts[0], e, index);
      RequestOf(StateOf(s, id), acts[0], e, index);
      var s' := ApplyTransition(s, t).0;
      assert OthersKept(s, s', id);
      ActionsKeepOthers(s', id, acts[1..], e, index + 1);
    }
  }

  lemma RequestOf(state: LifecycleState, a: Action, e: MarketEvent, index: nat)
    requires state.terms.riskAmount != 0.0
    ensures Request(state, a, e, index).signalId == state.signalId
  {
    hide Funding.EstimateFundingCost;
  }

  lemma {:induction false} EventsKeepOthers(s: Store, id: nat, events: seq<MarketEvent>)
    requires Consistent(s) && Trackable(s, id)
    ensures OthersKept(s, ProcessEvents(s, id, events), id)
    decreases |events|
  {
    hide Consistent, OthersKept, ActionsFor, ProcessActions;
    if events == [] {
      NothingMoves(s, id);
    } else {
      EventProcesses(s, id, events[0]);
      var next := ProcessEvent(s, id, events[0]).value;
      ActionsKeepOthers(s, id, ActionsFor(StateOf(s, id), events[0]), events[0], 0);
      EventsKeepOthers(next, id, events[1..]);
      OthersKeptTwice(s, next, ProcessEvents(s, id, events), id);
    }
  }

  lemma ReplayKeepsOthers(s: Store, id: nat, trades: seq<PublicTrade>)
    requires Consistent(s) && Trackable(s, id)
    ensures OthersKept(s, AfterReplay(ProcessEvents(s, id, TradeEvents(trades)), id, trades), id)
    ensures id in AfterReplay(ProcessEvents(s, id, TradeEvents(trades)), id, trades).trades
  {
    hide Consistent, ProcessEvents, CheckpointTrade, OthersKept;
    EventsKeepOthers(s, id, TradeEvents(trades));
    var moved := ProcessEvents(s, id, TradeEvents(trades));
    NothingMoves(moved, id);
    if trades != [] {
      CheckpointKeeps(moved, id, MarkOf(trades[|trades| - 1]));
    }
    OthersKeptTwice(s, moved, AfterReplay(moved, id, trades), id);
  }

  lemma RecoveryKeepsOthers(s: Store, id: nat, symbol: string, anchor: int, w: World, now: int)
    requires Consistent(s) && Trackable(s, id)
    ensures OthersKept(s, AfterRecovery(s, id, symbol, anchor, w, now), id)
    ensures id in AfterRecovery(s, id, symbol, anchor, w, now).trades
  {
    hide Consistent, ProcessEvents, AfterReplay, OthersKept, RecordTrackingEvent;
    var candles, at, key := LostCandles(w, symbol, anchor, now), ReplayFrom(now), RecoveryKey(id, anchor);
    NothingMoves(s, id);
    if candles != [] {
      EventsKeepOthers(s, id, CandleEvents(candles));
      var closed := ProcessEvents(s, id, CandleEvents(candles));
      if !Terminal(closed.signals[id].status) {
        Portfolio.TrackingKeeps(closed, id, TradeCoverageFallbackRecovered, at, key);
        RecordKeepsRows(closed, id, TradeCoverageFallbackRecovered, at, key);
        var recorded := RecordTrackingEvent(closed, id, TradeCoverageFallbackRecovered, at, key);
        SameTablesKeepOthers(closed, recorded, id);
        ReplayKeepsOthers(recorded, id, w.buffered(symbol, at));
        OthersKeptTwice(s, closed, recorded, id);
        OthersKeptTwice(s, recorded, AfterRecovery(s, id, symbol, anchor, w, now), id);
      }
    }
  }

  lemma SameTablesKeepOthers(s: Store, s': Store, id: nat)
    requires s'.signals == s.signals && s'.trades == s.trades
    ensures OthersKept(s, s', id)
  {
  }

  lemma CoverageKeepsOthers(s: Store, s': Store, v: TrackedSignal, symbol: string, anchor: int, w: World, now: int)
    requires Mirrors(s, v) && Covered(s, s', v, symbol, anchor, w, now)
    ensures OthersKept(s, s', v.state.signalId) && v.state.signalId in s'.trades
  {
    hide Consistent, ProcessEvents, AfterReplay, AfterRecovery, OthersKept, ApplyTransition, MovedSignal, MovedTrade,
      MergeTradeCoverage;
    var id, merge := v.state.signalId, MergeFor(w, symbol, anchor);
    MirrorIsKnown(s, v);
    NothingMoves(s, id);
    if v.state.status == Preparing {
      var target, at := if merge.Proven? then Active else CoverageFailed, if merge.Proven? then anchor else now;
      var t := CoverageRequest(v, target, at, anchor, if merge.Proven? then TradeCoverageReady
        else TradeCoverageFailed);
      CoverageAccepted(s, v, target, at, anchor, t.eventType);
      MovedRowsKeepOthers(s, ApplyTransition(s, t).0, t);
    } else if merge.Unproven? {
      RecoveryKeepsOthers(s, id, symbol, anchor, w, now);
    }
    if merge.Proven? {
      var start := ReplayBase(s, v, anchor);
      ReplayKeepsOthers(start, id, merge.trades);
      OthersKeptTwice(s, start, s', id);
    }
  }

  predicate Due(last: map<string, int>, symbol: string, now: int, interval: int) {
    now - (if symbol in last then last[symbol] else 0) >= interval
  }

  /** Checkpoint times are old ones or now. */
  predicate Ticked(last: map<string, int>, last': map<string, int>, now: int) {
    forall symbol :: symbol in last' ==> last'[symbol] == now || (symbol in last && last'[symbol] == last[symbol])
  }

  function TradeEvents(trades: seq<PublicTrade>): (r: seq<MarketEvent>)
    ensures |r| == |trades| && forall i :: 0 <= i < |r| ==> r[i] == TradeEvent(trades[i])
  {
    seq(|trades|, i requires 0 <= i < |trades| => TradeEvent(trades[i]))
  }

  function CandleEvents(candles: seq<Candle1m>): (r: seq<MarketEvent>)
    ensures |r| == |candles| && forall i :: 0 <= i < |r| ==> r[i] == CandleEvent(candles[i])
  {
    seq(|candles|, i requires 0 <= i < |candles| => CandleEvent(candles[i]))
  }

  /** The replay's checkpoint, when the signal is still open after it. */
  function AfterReplay(s: Store, id: nat, trades: seq<PublicTrade>): Store
    requires id < |s.signals| && id in s.trades
  {
    if trades != [] && !Terminal(s.signals[id].status) then Checkpointed(s, id, MarkOf(trades[|trades| - 1])) else s
  }

  /** The tables after a candle recovery: the candles, the recovery event, the buffered trades and their checkpoint. */
  function AfterCandles(s: Store, id: nat, candles: seq<Candle1m>, anchor: int, replayFrom: int,
                        buffered: seq<PublicTrade>): Store
    requires Consistent(s) && Trackable(s, id)
  {
    var closed := ProcessEvents(s, id, CandleEvents(candles));
    if Terminal(closed.signals[id].status) then closed
    else
      Portfolio.TrackingKeeps(closed, id, TradeCoverageFallbackRecovered, replayFrom, RecoveryKey(id, anchor));
      RecordKeepsRows(closed, id, TradeCoverageFallbackRecovered, replayFrom, RecoveryKey(id, anchor));
      var recorded := RecordTrackingEvent(closed, id, TradeCoverageFallbackRecovered, replayFrom,
        RecoveryKey(id, anchor));
      AfterReplay(ProcessEvents(recorded, id, TradeEvents(buffered)), id, buffered)
  }

  lemma RecordKeepsRows(s: Store, id: nat, eventType: EventType, at: int, key: EventKey)
    ensures var s' := RecordTrackingEvent(s, id, eventType, at, key); s'.signals == s.signals && s'.trades == s.trades
    ensures Trackable(s, id) ==> Trackable(RecordTrackingEvent(s, id, eventType, at, key), id)
  {
    hide FindEvent, Tracked;
  }

  lemma RecordKeepsMirrors(s: Store, id: nat, eventType: EventType, at: int, key: EventKey, cache: map<string,
                           TrackedSignal>)
    requires CacheMirrors(s, cache) && Loadable(s)
    ensures CacheMirrors(RecordTrackingEvent(s, id, eventType, at, key), cache)
            && Loadable(RecordTrackingEvent(s, id, eventType, at, key))
  {
    hide FindEvent, Tracked, MarkLe;
    RecordKeepsRows(s, id, eventType, at, key);
  }

  lemma EventKeepsTrackable(s: Store, id: nat, e: MarketEvent)
    requires Consistent(s) && Trackable(s, id)
    ensures ProcessEvent(s, id, e).Ok? && Consistent(ProcessEvent(s, id, e).value)
            && Trackable(ProcessEvent(s, id, e).value, id)
  {
    hide Consistent, ProcessEvent, Trackable;
    EventProcesses(s, id, e);
  }

  lemma FirstOfRest(s: Store, id: nat, trades: seq<PublicTrade>, k: nat)
    requires Consistent(s) && Trackable(s, id) && k < |trades|
    ensures ProcessEvent(s, id, TradeEvent(trades[k])).Ok?
    ensures var s' := ProcessEvent(s, id, TradeEvent(trades[k])).value;
            && Consistent(s') && Trackable(s', id)
            && ProcessEvents(s, id, TradeEvents(trades[k..])) == ProcessEvents(s', id, TradeEvents(trades[k + 1..]))
  {
    hide Consistent, ProcessEvent, Trackable;
    EventKeepsTrackable(s, id, TradeEvent(trades[k]));
    assert TradeEvents(trades[k..])[0] == TradeEvent(trades[k]);
    assert TradeEvents(trades[k..])[1..] == TradeEvents(trades[k + 1..]);
  }

  lemma FirstCandleOfRest(s: Store, id: nat, candles: seq<Candle1m>, k: nat)
    requires Consistent(s) && Trackable(s, id) && k < |candles|
    ensures ProcessEvent(s, id, CandleEvent(candles[k])).Ok?
    ensures var s' := ProcessEvent(s, id, CandleEvent(candles[k])).value;
            && Consistent(s') && Trackable(s', id)
            && ProcessEvents(s, id, CandleEvents(candles[k..])) == ProcessEvents(s', id, CandleEvents(candles[k + 1..]))
  {
    hide Consistent, ProcessEvent, Trackable;
    EventKeepsTrackable(s, id, CandleEvent(candles[k]));
    assert CandleEvents(candles[k..])[0] == CandleEvent(candles[k]);
    assert CandleEvents(candles[k..])[1..] == CandleEvents(candles[k + 1..]);
  }

  lemma ClosedByFailure()
    ensures Terminal(CoverageFailed)
  {
  }

  lemma NoEvents(s: Store, id: nat)
    requires Consistent(s) && Trackable(s, id)
    ensures ProcessEvents(s, id, TradeEvents([])) == s && ProcessEvents(s, id, CandleEvents([])) == s
  {
    hide Consistent;
  }

  /** A closed signal ignores whatever comes. */
  lemma {:induction false} ClosedIsQuiet(s: Store, id: nat, events: seq<MarketEvent>)
    requires Consistent(s) && Trackable(s, id) && Terminal(s.signals[id].status)
    ensures ProcessEvents(s, id, events) == s
    decreases |events|
  {
    hide Consistent;
    if events != [] {
      ClosedIgnores(s, id, events[0]);
      ClosedIsQuiet(s, id, events[1..]);
    }
  }

  lemma ClosedIgnores(s: Store, id: nat, e: MarketEvent)
    requires Trackable(s, id) && Terminal(s.signals[id].status)
    ensures ProcessEvent(s, id, e) == Ok(s)
  {
    assert ActionsFor(StateOf(s, id), e) == [];
  }

  lemma {:induction false} UpsertAddsOnly(known: seq<PublicTrade>, trade: PublicTrade)
    ensures forall x :: x in Upsert(known, trade) ==> x in known || x == trade
  {
    if known != [] {
      UpsertAddsOnly(known[1..], trade);
    }
  }

  lemma {:induction false} ByIdAddsOnly(known: seq<PublicTrade>, trades: seq<PublicTrade>)
    ensures forall x :: x in ById(known, trades) ==> x in known || x in trades
    decreases |trades|
  {
    if trades != [] {
      UpsertAddsOnly(known, trades[0]);
      ByIdAddsOnly(Upsert(known, trades[0]), trades[1..]);
    }
  }

  lemma MergedSymbols(rest: seq<PublicTrade>, stream: seq<PublicTrade>, anchor: int, symbol: string)
    requires MergeTradeCoverage(rest, stream, anchor).Proven? && OfSymbol(symbol, stream)
    ensures OfSymbol(symbol, MergeTradeCoverage(rest, stream, anchor).trades)
  {
    hide ById, Sequences.Sort, Sequences.Filter, KeyLe;
    var recent := Sequences.Filter(Since(anchor), rest + stream);
    ByIdAddsOnly([], recent);
    Sequences.SortMembers(KeyLe, ById([], recent));
    var trades := MergeTradeCoverage(rest, stream, anchor).trades;
    forall i | 0 <= i < |trades| ensures trades[i].symbol == symbol {
      assert trades[i] in trades && trades[i] in rest + stream && stream[0] in rest + stream;
      assert stream[0].symbol in Symbols(rest + stream);
      assert trades[i].symbol in Symbols(rest + stream);
    }
  }

  /** What is left to do of an event's actions, seen from the rows as they are now. */
  ghost predicate Remaining(s: Store, id: nat, acts: seq<Action>) {
    && Trackable(s, id) && Chain(s.signals[id].status, acts)
    && (forall a :: a in acts ==> a.target !in {Preparing, Active})
    && (forall k :: 0 <= k < |acts| && (k > 0 || s.signals[id].status !in {Preparing, Active}) ==>
          acts[k].realizedPnl.Some?)
  }

  lemma ActionMoves(s: Store, id: nat, a: Action, e: MarketEvent, index: nat)
    requires Consistent(s) && Trackable(s, id) && a.target in SignalTransitions(s.signals[id].status)
    ensures var t := Request(StateOf(s, id), a, e, index); MovesTo(s, t) && t.signalId == id && t.target == a.target
  {
    RequestTarget(StateOf(s, id), a, e, index);
    ActionAccepted(s, id, a, e, index);
    hide Consistent, ApplyTransition, Request, MovedSignal, MovedTrade;
  }

  /** The first of the remaining actions is accepted and leaves the others remaining. */
  lemma NextActionAccepted(s: Store, id: nat, acts: seq<Action>, e: MarketEvent, index: nat)
    requires Consistent(s) && acts != [] && Remaining(s, id, acts)
    ensures var t := Request(StateOf(s, id), acts[0], e, index);
            var s' := ApplyTransition(s, t).0;
            && MovesTo(s, t) && t.signalId == id && t.target == acts[0].target && t.target !in {Preparing, Active}
            && Remaining(s', id, acts[1..]) && Trackable(s', id)
            && ProcessActions(s, id, acts, e, index) == ProcessActions(s', id, acts[1..], e, index + 1)
    ensures Terminal(acts[0].target) ==> acts[1..] == []
  {
    hide Consistent, ApplyTransition, Request, MovedTrade, MovedSignal;
    assert acts[0] in acts;
    ActionMoves(s, id, acts[0], e, index);
    var t := Request(StateOf(s, id), acts[0], e, index);
    MovedRowsView(s, ApplyTransition(s, t).0, id, acts[0], e, index);
    MovedTrackable(s, t);
    TablesAgree(acts[0].target, Active);
  }

  lemma MovedTrackable(s: Store, t: Transition)
    requires MovesTo(s, t) && Trackable(s, t.signalId) && t.target !in {Preparing, Active}
    ensures Trackable(ApplyTransition(s, t).0, t.signalId)
            && ApplyTransition(s, t).0.signals[t.signalId].status == t.target
  {
    hide Consistent, ApplyTransition, Divisible;
  }

  lemma StartRemaining(s: Store, id: nat, e: MarketEvent)
    requires Trackable(s, id)
    ensures Remaining(s, id, ActionsFor(StateOf(s, id), e))
  {
    hide EvaluatePublicTrade, EvaluateClosedCandle;
    EmittedActionsChain(StateOf(s, id), e);
    EmittedActionsCarryMoney(StateOf(s, id), e);
  }

  lemma RequestTarget(state: LifecycleState, a: Action, e: MarketEvent, index: nat)
    requires state.terms.riskAmount != 0.0
    ensures Request(state, a, e, index).target == a.target && Request(state, a, e, index).signalId == state.signalId
    ensures WellKeyed(Request(state, a, e, index))
  {
    hide Funding.EstimateFundingCost;
  }

  lemma MovedStatus(s: Store, s': Store, t: Transition)
    requires t.signalId < |s.signals| && s' == ApplyTransition(s, t).0
             && ApplyTransition(s, t).1 == Ok(TransitionResult(true, t.target))
    ensures |s'.signals| == |s.signals| && s'.signals[t.signalId].status == t.target
  {
    hide FindEvent, SignalTransitions, VirtualTradeTransitions, MovedTrade;
  }

  lemma SameSymbol(v: TrackedSignal, t: Transition)
    ensures SameSignal(MovedCopy(v, t), v)
  {
  }
}
