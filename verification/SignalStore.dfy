/** Signals, virtual trades, events and outbox rows, and the one transaction that moves a signal on. */
module SignalStore {
  import opened Wrappers
  import opened Sequences
  import opened Lifecycle
  import opened StateMachine
  import opened SignalPolicy

  datatype SignalRecord = SignalRecord(
    candidateId: int, symbol: string, terms: Terms, status: SignalStatus,
    expiresAt: int, createdAt: int,
    activatedAt: Option<int>, enteredAt: Option<int>, tp1ReachedAt: Option<int>, closedAt: Option<int>,
    version: nat)

  /** The last public trade a worker has processed for a signal. */
  datatype TradeMark = TradeMark(executedAt: int, sequence: int, tradeId: string)

  datatype VirtualTradeRecord = VirtualTradeRecord(
    status: VirtualTradeStatus, currentStop: real, remainingQuantity: real,
    realizedPnl: real, fees: real, estimatedFunding: real, rMultiple: real, ambiguous: bool,
    enteredAt: Option<int>, resolvedAt: Option<int>, lastTrade: Option<TradeMark>, version: nat)

  /** Idempotency keys, one constructor per format string. */
  datatype EventKey =
    | PublicationKey(candidateId: int)
    | TradeKey(signalId: nat, tradeId: string, target: SignalStatus, index: nat)
    | FallbackKey(signalId: nat, openMinute: int, target: SignalStatus, index: nat)
    | CoverageKey(signalId: nat, anchor: int)
    | ExpiryKey(signalId: nat)
    | RecoveryKey(signalId: nat, anchor: int)

  datatype SignalEvent = SignalEvent(
    signalId: nat, eventType: EventType, from: Option<SignalStatus>, to: SignalStatus, at: int, key: EventKey)

  datatype NotificationType =
    | NewSignal | EntryNotice | TakeProfit1Notice | SignalResult | SignalWarning | ExpiredNotice | InvalidatedNotice

  datatype OutboxRecord = OutboxRecord(key: EventKey, kind: NotificationType, signalId: nat, availableAt: int)

  datatype Store = Store(
    signals: seq<SignalRecord>, trades: map<nat, VirtualTradeRecord>,
    events: seq<SignalEvent>, outbox: seq<OutboxRecord>)

  datatype Transition = Transition(
    signalId: nat, target: SignalStatus, at: int, key: EventKey, eventType: EventType,
    realizedPnl: Option<real>, fees: Option<real>, estimatedFunding: Option<real>, rMultiple: Option<real>,
    ambiguous: Option<bool>, currentStop: Option<real>, remainingQuantity: Option<real>)

  datatype TransitionError =
    | KeyOfAnotherSignal | UnknownSignal | InvalidSignalTransition | MissingVirtualTrade | InvalidTradeTransition

  datatype TransitionResult = TransitionResult(applied: bool, status: SignalStatus)

  function NotificationFor(status: SignalStatus): NotificationType {
    match status
    case Active => NewSignal
    case Entered => EntryNotice
    case Tp1Reached => TakeProfit1Notice
    case Stopped | StoppedAtBreakeven | Tp2Completed => SignalResult
    case Expired => ExpiredNotice
    case Invalidated => InvalidatedNotice
    case _ => SignalWarning
  }

  function FindEvent(events: seq<SignalEvent>, key: EventKey): (r: Option<SignalEvent>)
    ensures r.Some? ==> r.value in events && r.value.key == key
    ensures r.None? ==> forall e :: e in events ==> e.key != key
  {
    if events == [] then None
    else if events[0].key == key then Some(events[0])
    else FindEvent(events[1..], key)
  }

  function MovedSignal(r: SignalRecord, t: Transition): SignalRecord {
    r.(status := t.target, version := r.version + 1,
       activatedAt := if t.target == Active then Some(t.at) else r.activatedAt,
       enteredAt := if t.target == Entered then Some(t.at) else r.enteredAt,
       tp1ReachedAt := if t.target == Tp1Reached then Some(t.at) else r.tp1ReachedAt,
       closedAt := if Terminal(t.target) then Some(t.at) else r.closedAt)
  }

  function MovedTrade(r: VirtualTradeRecord, t: Transition): VirtualTradeRecord {
    r.(status := VirtualTradeTarget(t.target).GetOr(r.status), version := r.version + 1,
       enteredAt := if t.target == Entered then Some(t.at) else r.enteredAt,
       resolvedAt := if Terminal(t.target) then Some(t.at) else r.resolvedAt,
       realizedPnl := t.realizedPnl.GetOr(r.realizedPnl),
       fees := t.fees.GetOr(r.fees),
       estimatedFunding := t.estimatedFunding.GetOr(r.estimatedFunding),
       rMultiple := t.rMultiple.GetOr(r.rMultiple),
       ambiguous := t.ambiguous.GetOr(r.ambiguous),
       currentStop := t.currentStop.GetOr(r.currentStop),
       remainingQuantity := t.remainingQuantity.GetOr(r.remainingQuantity))
  }

  /** One `apply_transition` transaction: a known key changes nothing, an error rolls everything back. */
  function ApplyTransition(s: Store, t: Transition): (Store, Result<TransitionResult, TransitionError>) {
    var duplicate := FindEvent(s.events, t.key);
    if duplicate.Some? then
      if duplicate.value.signalId != t.signalId then (s, Err(KeyOfAnotherSignal))
      else if t.signalId >= |s.signals| then (s, Err(UnknownSignal))
      else (s, Ok(TransitionResult(false, s.signals[t.signalId].status)))
    else if t.signalId >= |s.signals| then (s, Err(UnknownSignal))
    else
      var signal := s.signals[t.signalId];
      if t.target !in SignalTransitions(signal.status) then (s, Err(InvalidSignalTransition))
      else if t.signalId !in s.trades then (s, Err(MissingVirtualTrade))
      else
        var trade := s.trades[t.signalId];
        var tradeTarget := VirtualTradeTarget(t.target);
        if tradeTarget.Some? && tradeTarget.value !in VirtualTradeTransitions(trade.status)
        then (s, Err(InvalidTradeTransition))
        else
          (Store(s.signals[t.signalId := MovedSignal(signal, t)],
                 s.trades[t.signalId := MovedTrade(trade, t)],
                 s.events + [SignalEvent(t.signalId, t.eventType, Some(signal.status), t.target, t.at, t.key)],
                 s.outbox + [OutboxRecord(t.key, NotificationFor(t.target), t.signalId, t.at)]),
           Ok(TransitionResult(true, t.target)))
  }

  // ---------- publication ----------

  function Observe(signals: seq<SignalRecord>): (r: seq<Observation>)
    ensures |r| == |signals|
    ensures forall i :: 0 <= i < |r| ==> r[i] == Observation(signals[i].symbol, signals[i].status, signals[i].createdAt)
  {
    seq(|signals|, i requires 0 <= i < |signals| => Observation(signals[i].symbol, signals[i].status,
      signals[i].createdAt))
  }

  predicate Accepted(c: PublicationCandidate) {
    c.accepted && c.plan.Some?
  }

  function IsAccepted(): PublicationCandidate -> bool {
    (c: PublicationCandidate) => Accepted(c)
  }

  /** The rows one decided candidate adds: a signal and an event, and a waiting virtual trade when it is allowed. */
  function AddSignal(s: Store, c: PublicationCandidate, allowed: bool, now: int): Store
    requires Accepted(c)
  {
    var id, t, status := |s.signals|, c.plan.value, if allowed then Preparing else Suppressed;
    Store(
      s.signals + [SignalRecord(c.candidateId, c.symbol, t, status, c.expiresAt, now, None, None, None, None, 1)],
      if allowed
      then s.trades[id := VirtualTradeRecord(WaitingEntry, t.stopLoss, t.quantity, 0.0, 0.0, 0.0, 0.0, false, None,
        None, None, 1)]
      else s.trades,
      s.events + [SignalEvent(id, if allowed then SignalPrepared
        else SignalSuppressed, None, status, now, PublicationKey(c.candidateId))],
      s.outbox)
  }

  /** Decides the accepted candidates one after the other, each seeing the earlier ones of the same batch. */
  function PublishEach(s: Store, seen: seq<Observation>, batch: seq<PublicationCandidate>, config: PolicyConfig,
                       now: int): Store
    requires forall c :: c in batch ==> Accepted(c)
    decreases |batch|
  {
    if batch == [] then s
    else
      var allowed := EvaluatePublication(batch[0], seen, now, config).None?;
      PublishEach(AddSignal(s, batch[0], allowed, now),
                  seen + [Observation(batch[0].symbol, if allowed then Preparing else Suppressed, now)],
                  batch[1..], config, now)
  }

  /** One `publish_candidates` transaction: only the signals the database still loads are observed. */
  function Publish(s: Store, batch: seq<PublicationCandidate>, config: PolicyConfig, now: int): Store {
    PublishEach(s, Filter(Loaded(now, config), Observe(s.signals)), Filter(IsAccepted(), batch), config, now)
  }

  /** `checkpoint_trade`: the mark only moves forward in (time, sequence, id) order. */
  function CheckpointTrade(r: VirtualTradeRecord, mark: TradeMark): VirtualTradeRecord {
    if r.lastTrade.Some? && MarkLe(mark, r.lastTrade.value) then r else r.(lastTrade := Some(mark))
  }

  predicate MarkLe(a: TradeMark, b: TradeMark) {
    if a.executedAt != b.executedAt then a.executedAt < b.executedAt
    else if a.sequence != b.sequence then a.sequence < b.sequence
    else StringLe(a.tradeId, b.tradeId)
  }

  /** `record_tracking_event`: one more event that is not a status change. */
  function RecordTrackingEvent(s: Store, id: nat, eventType: EventType, at: int, key: EventKey): Store {
    if FindEvent(s.events, key).Some? || id >= |s.signals| then s
    else s.(events := s.events
      + [SignalEvent(id, eventType, Some(s.signals[id].status), s.signals[id].status, at, key)])
  }

  // ---------- the repository as an object ----------

  class SignalRepository {
    var signals: seq<SignalRecord>
    var trades: map<nat, VirtualTradeRecord>
    var events: seq<SignalEvent>
    var outbox: seq<OutboxRecord>

    function Contents(): Store
      reads this
    {
      Store(signals, trades, events, outbox)
    }

    constructor ()
      ensures Contents() == Store([], map[], [], [])
    {
      signals, trades, events, outbox := [], map[], [], [];
    }

    method Apply(t: Transition) returns (r: Result<TransitionResult, TransitionError>)
      modifies this
      ensures (Contents(), r) == ApplyTransition(old(Contents()), t)
    {
      hide FindEvent, SignalTransitions, VirtualTradeTransitions, NotificationFor, Terminal;
      var duplicate := FindEvent(events, t.key);
      if duplicate.Some? {
        if duplicate.value.signalId != t.signalId {
          return Err(KeyOfAnotherSignal);
        }
        if t.signalId >= |signals| {
          return Err(UnknownSignal);
        }
        return Ok(TransitionResult(false, signals[t.signalId].status));
      }
      if t.signalId >= |signals| {
        return Err(UnknownSignal);
      }
      var signal := signals[t.signalId];
      if t.target !in SignalTransitions(signal.status) {
        return Err(InvalidSignalTransition);
      }
      if t.signalId !in trades {
        return Err(MissingVirtualTrade);
      }
      var trade := trades[t.signalId];
      var tradeTarget := VirtualTradeTarget(t.target);
      if tradeTarget.Some? {
        if tradeTarget.value !in VirtualTradeTransitions(trade.status) {
          return Err(InvalidTradeTransition);
        }
        trade := trade.(status := tradeTarget.value);
      }
      var from := signal.status;
      signal := signal.(status := t.target, version := signal.version + 1);
      signal := signal.(
        activatedAt := if t.target == Active then Some(t.at) else signal.activatedAt,
        enteredAt := if t.target == Entered then Some(t.at) else signal.enteredAt,
        tp1ReachedAt := if t.target == Tp1Reached then Some(t.at) else signal.tp1ReachedAt,
        closedAt := if Terminal(t.target) then Some(t.at) else signal.closedAt);
      trade := trade.(
        version := trade.version + 1,
        enteredAt := if t.target == Entered then Some(t.at) else trade.enteredAt,
        resolvedAt := if Terminal(t.target) then Some(t.at) else trade.resolvedAt);
      trade := trade.(
        realizedPnl := t.realizedPnl.GetOr(trade.realizedPnl),
        fees := t.fees.GetOr(trade.fees),
        estimatedFunding := t.estimatedFunding.GetOr(trade.estimatedFunding),
        rMultiple := t.rMultiple.GetOr(trade.rMultiple),
        ambiguous := t.ambiguous.GetOr(trade.ambiguous),
        currentStop := t.currentStop.GetOr(trade.currentStop),
        remainingQuantity := t.remainingQuantity.GetOr(trade.remainingQuantity));
      signals := signals[t.signalId := signal];
      trades := trades[t.signalId := trade];
      events := events + [SignalEvent(t.signalId, t.eventType, Some(from), t.target, t.at, t.key)];
      outbox := outbox + [OutboxRecord(t.key, NotificationFor(t.target), t.signalId, t.at)];
      r := Ok(TransitionResult(true, t.target));
    }

    method PublishCandidates(batch: seq<PublicationCandidate>, config: PolicyConfig, now: int)
      returns (prepared: nat, suppressed: nat)
      modifies this
      ensures Contents() == Publish(old(Contents()), batch, config, now)
      ensures |signals| == old(|signals|) + prepared + suppressed
      ensures |trades| <= old(|trades|) + prepared
    {
      hide EvaluatePublication, Observe, Filter;
      var accepted := Filter(IsAccepted(), batch);
      var seen := Filter(Loaded(now, config), Observe(signals));
      prepared, suppressed := 0, 0;
      var k := 0;
      assert accepted[0..] == accepted;
      while k < |accepted|
        invariant 0 <= k <= |accepted|
        invariant forall c :: c in accepted[k..] ==> Accepted(c)
        invariant PublishEach(Contents(), seen, accepted[k..], config, now)
                  == Publish(old(Contents()), batch, config, now)
        invariant |signals| == old(|signals|) + prepared + suppressed
        invariant |trades| <= old(|trades|) + prepared
      {
        var c := accepted[k];
        assert c in accepted && accepted[k..][1..] == accepted[k + 1..];
        var allowed := EvaluatePublication(c, seen, now, config).None?;
        var id, t, status := |signals|, c.plan.value, if allowed then Preparing else Suppressed;
        signals := signals
          + [SignalRecord(c.candidateId, c.symbol, t, status, c.expiresAt, now, None, None, None, None, 1)];
        events := events
          + [SignalEvent(id, if allowed then SignalPrepared
          else SignalSuppressed, None, status, now, PublicationKey(c.candidateId))];
        seen := seen + [Observation(c.symbol, status, now)];
        if allowed {
          trades := trades[id := VirtualTradeRecord(WaitingEntry, t.stopLoss, t.quantity, 0.0, 0.0, 0.0, 0.0, false,
            None, None, None, 1)];
          prepared := prepared + 1;
        } else {
          suppressed := suppressed + 1;
        }
        k := k + 1;
      }
    }

    method Checkpoint(id: nat, mark: TradeMark) returns (found: bool)
      modifies this`trades
      ensures found == (id in old(trades))
      ensures trades == if found then old(trades)[id := CheckpointTrade(old(trades)[id], mark)] else old(trades)
    {
      if id !in trades {
        return false;
      }
      var trade := trades[id];
      if trade.lastTrade.None? || !MarkLe(mark, trade.lastTrade.value) {
        trades := trades[id := trade.(lastTrade := Some(mark))];
      } else {
        assert trades == trades[id := trade];
      }
      found := true;
    }

    /** `record_tracking_event`: a known key is reported, an unknown signal is an error. */
    method Record(id: nat, eventType: EventType, at: int, key: EventKey) returns (r: Result<bool, TransitionError>)
      modifies this`events
      ensures Contents() == RecordTrackingEvent(old(Contents()), id, eventType, at, key)
      ensures var known := FindEvent(old(events), key).Some?;
              r == if known then Ok(false) else if id < |signals| then Ok(true) else Err(UnknownSignal)
    {
      if FindEvent(events, key).Some? {
        return Ok(false);
      }
      if id >= |signals| {
        return Err(UnknownSignal);
      }
      events := events + [SignalEvent(id, eventType, Some(signals[id].status), signals[id].status, at, key)];
      r := Ok(true);
    }
  }

  // ---------- the invariant ----------

  predicate IsTransition(e: SignalEvent) {
    e.from.Some? && e.from.value != e.to
  }

  /** The key of an event names the signal and the status it moved to. */
  predicate KeyFits(e: SignalEvent) {
    match e.key
    case PublicationKey(_) => e.from.None?
    case TradeKey(id, _, target, _) => IsTransition(e) && e.signalId == id && e.to == target
    case FallbackKey(id, _, target, _) => IsTransition(e) && e.signalId == id && e.to == target
    case CoverageKey(id, _) => IsTransition(e) && e.signalId == id && e.to in {Active, CoverageFailed}
    case ExpiryKey(id) => IsTransition(e) && e.signalId == id && e.to == Expired
    case RecoveryKey(id, _) => e.from == Some(e.to) && e.signalId == id
  }

  predicate WellKeyed(t: Transition) {
    match t.key
    case TradeKey(id, _, target, _) => t.signalId == id && t.target == target
    case FallbackKey(id, _, target, _) => t.signalId == id && t.target == target
    case CoverageKey(id, _) => t.signalId == id && t.target in {Active, CoverageFailed}
    case ExpiryKey(id) => t.signalId == id && t.target == Expired
    case _ => false
  }

  function ChangesOf(id: nat): SignalEvent -> bool {
    (e: SignalEvent) => e.signalId == id && IsTransition(e)
  }

  /** The outbox rows the event history calls for: one for each status change, in order. */
  function Notices(events: seq<SignalEvent>): seq<OutboxRecord> {
    if events == [] then []
    else
      var e, rest := events[|events| - 1], Notices(events[..|events| - 1]);
      if IsTransition(e) then rest + [OutboxRecord(e.key, NotificationFor(e.to), e.signalId, e.at)] else rest
  }

  predicate UniqueKeys(events: seq<SignalEvent>) {
    forall i, j :: 0 <= i < j < |events| ==> events[i].key != events[j].key
  }

  /** Signal and virtual trade carry paired statuses; only suppressed signals have no trade. */
  predicate LockStep(s: Store) {
    && (forall id :: id in s.trades ==> id < |s.signals|)
    && (forall id :: 0 <= id < |s.signals| ==> (id in s.trades <==> s.signals[id].status != Suppressed))
    && (forall id :: id in s.trades ==> s.trades[id].status == Paired(s.signals[id].status))
  }

  predicate HistoryFits(s: Store, e: SignalEvent) {
    && e.signalId < |s.signals| && KeyFits(e)
    && (IsTransition(e) ==> Rank(s.signals[e.signalId].status) <= Rank(e.to))
  }

  predicate Consistent(s: Store) {
    && LockStep(s)
    && UniqueKeys(s.events)
    && (forall e :: e in s.events ==> HistoryFits(s, e))
    && (forall id :: 0 <= id < |s.signals| ==> |Filter(ChangesOf(id), s.events)| + Rank(s.signals[id].status) <= 4)
    && s.outbox == Notices(s.events)
  }

  /** In a consistent store the virtual trade never refuses what the signal table accepts. */
  lemma TradeNeverRefuses(s: Store, t: Transition)
    requires LockStep(s)
    ensures var r := ApplyTransition(s, t).1;
            r != Err(MissingVirtualTrade) && r != Err(InvalidTradeTransition)
  {
    if t.signalId < |s.signals| {
      TablesAgree(s.signals[t.signalId].status, t.target);
    }
  }

  /** A repeated key of the same signal changes nothing and reports that it changed nothing. */
  lemma RepeatedKeyIsNoOp(s: Store, t: Transition, again: Transition)
    requires Consistent(s) && again.key == t.key && again.signalId == t.signalId && ApplyTransition(s, t).1.Ok?
    ensures var s' := ApplyTransition(s, t).0;
            ApplyTransition(s', again).0 == s' && ApplyTransition(s', again).1
              == Ok(TransitionResult(false, s'.signals[t.signalId].status))
  {
    var s' := ApplyTransition(s, t).0;
    if FindEvent(s.events, t.key).None? {
      assert s'.events[|s.events|] in s'.events;
      var e := FindEvent(s'.events, t.key).value;
      assert e in s.events || e == s'.events[|s.events|];
    }
  }

  lemma ApplyKeepsHistory(s: Store, t: Transition)
    requires Consistent(s) && WellKeyed(t)
    ensures var s' := ApplyTransition(s, t).0; forall e :: e in s'.events ==> HistoryFits(s', e)
  {
    var s' := ApplyTransition(s, t).0;
    if s' != s {
      TablesAgree(s.signals[t.signalId].status, t.target);
      forall e | e in s'.events ensures HistoryFits(s', e) {
        assert e in s.events || e == s'.events[|s.events|];
      }
    }
  }

  lemma ApplyCountsChanges(s: Store, t: Transition, id: nat)
    requires Consistent(s) && id < |s.signals|
    ensures var s' := ApplyTransition(s, t).0; |Filter(ChangesOf(id), s'.events)| + Rank(s'.signals[id].status) <= 4
  {
    var s' := ApplyTransition(s, t).0;
    if s' != s {
      TablesAgree(s.signals[t.signalId].status, t.target);
      FilterConcat(ChangesOf(id), s.events, s'.events[|s.events|..]);
      assert s'.events == s.events + s'.events[|s.events|..];
    }
  }

  lemma ApplyKeepsPairs(s: Store, t: Transition)
    requires LockStep(s)
    ensures LockStep(ApplyTransition(s, t).0)
  {
    hide FindEvent, MovedSignal;
    if ApplyTransition(s, t).0 != s {
      TablesAgree(s.signals[t.signalId].status, t.target);
      MovedStatuses(s.signals[t.signalId], s.trades[t.signalId], t);
      hide SignalTransitions, VirtualTradeTransitions, MovedTrade;
    }
  }

  lemma MovedStatuses(r: SignalRecord, v: VirtualTradeRecord, t: Transition)
    ensures MovedSignal(r, t).status == t.target
    ensures MovedTrade(v, t).status == VirtualTradeTarget(t.target).GetOr(v.status)
  {
  }

  lemma ApplyKeepsKeys(s: Store, t: Transition)
    requires UniqueKeys(s.events) && s.outbox == Notices(s.events)
    ensures var s' := ApplyTransition(s, t).0; UniqueKeys(s'.events) && s'.outbox == Notices(s'.events)
  {
    hide MovedSignal, MovedTrade;
    var s' := ApplyTransition(s, t).0;
    if s' != s {
      TablesAgree(s.signals[t.signalId].status, t.target);
      hide SignalTransitions, VirtualTradeTransitions;
      assert s'.events[..|s'.events| - 1] == s.events;
      assert forall i :: 0 <= i < |s.events| ==> s.events[i] in s.events;
    }
  }

  /** Every transition keeps the store consistent, whether it is applied, repeated or refused. */
  lemma ApplyKeepsConsistent(s: Store, t: Transition)
    requires Consistent(s) && WellKeyed(t)
    ensures Consistent(ApplyTransition(s, t).0)
  {
    var s' := ApplyTransition(s, t).0;
    ApplyKeepsHistory(s, t);
    ApplyKeepsPairs(s, t);
    ApplyKeepsKeys(s, t);
    forall id | 0 <= id < |s'.signals| ensures |Filter(ChangesOf(id), s'.events)| + Rank(s'.signals[id].status) <= 4 {
      ApplyCountsChanges(s, t, id);
    }
  }

  /** Terminal signals absorb: no transition changes them or their virtual trade. */
  lemma TerminalAbsorbs(s: Store, t: Transition)
    requires t.signalId < |s.signals| && Terminal(s.signals[t.signalId].status)
    ensures ApplyTransition(s, t).0 == s
  {
    TablesAgree(s.signals[t.signalId].status, t.target);
  }
}
