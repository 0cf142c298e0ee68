/** Whole histories of publications and transitions: the limits hold and the store stays consistent throughout. */
module Portfolio {
  import opened Wrappers
  import opened Sequences
  import opened MarketModels
  import opened Lifecycle
  import opened StateMachine
  import opened SignalPolicy
  import opened SignalStore

  datatype Step =
    | PublishBatch(batch: seq<PublicationCandidate>, now: int)
    | Move(transition: Transition)
    | TrackingEvent(signalId: nat, eventType: EventType, at: int, key: EventKey)

  function Take(s: Store, step: Step, config: PolicyConfig): Store {
    match step
    case PublishBatch(batch, now) => Publish(s, batch, config, now)
    case Move(t) => ApplyTransition(s, t).0
    case TrackingEvent(id, eventType, at, key) => RecordTrackingEvent(s, id, eventType, at, key)
  }

  /** The candidates of a batch are new: each candidate row is created in the transaction that publishes it. */
  predicate NewCandidates(s: Store, batch: seq<PublicationCandidate>) {
    && (forall i, j :: 0 <= i < j < |batch| ==> batch[i].candidateId != batch[j].candidateId)
    && (forall c, e :: c in batch && e in s.events ==> e.key != PublicationKey(c.candidateId))
  }

  /** What a step needs from its caller: publication times do not go back, keys are built as the service builds them. */
  ghost predicate Permitted(s: Store, step: Step) {
    match step
    case PublishBatch(batch, now) => NoneAfter(Observe(s.signals), now) && NewCandidates(s, Filter(IsAccepted(), batch))
    case Move(t) => WellKeyed(t)
    case TrackingEvent(id, _, _, key) => key.RecoveryKey? && key.signalId == id
  }

  ghost predicate Sound(s: Store, config: PolicyConfig) {
    Consistent(s) && WithinLimits(Observe(s.signals), config)
  }

  /** An event that is no status change leaves the counts and the outbox as they are. */
  lemma QuietEvent(events: seq<SignalEvent>, e: SignalEvent)
    requires !IsTransition(e)
    ensures Notices(events + [e]) == Notices(events)
    ensures forall id :: Filter(ChangesOf(id), events + [e]) == Filter(ChangesOf(id), events)
  {
    assert (events + [e])[..|events|] == events;
    forall id ensures Filter(ChangesOf(id), events + [e]) == Filter(ChangesOf(id), events) {
      FilterConcat(ChangesOf(id), events, [e]);
    }
  }

  lemma FreshKeyUnique(events: seq<SignalEvent>, e: SignalEvent)
    requires UniqueKeys(events) && forall known :: known in events ==> known.key != e.key
    ensures UniqueKeys(events + [e])
  {
    assert forall i :: 0 <= i < |events| ==> events[i] in events;
  }

  lemma AddKeepsHistory(s: Store, c: PublicationCandidate, allowed: bool, now: int)
    requires Consistent(s) && Accepted(c)
    ensures var s' := AddSignal(s, c, allowed, now);
            (forall e :: e in s'.events ==> HistoryFits(s', e)) && Filter(ChangesOf(|s.signals|), s.events) == []
  {
    var s' := AddSignal(s, c, allowed, now);
    forall e | e in s'.events ensures HistoryFits(s', e) {
      assert e in s.events || e == s'.events[|s.events|];
    }
    FilterNone(ChangesOf(|s.signals|), s.events);
  }

  lemma AddKeepsConsistent(s: Store, c: PublicationCandidate, allowed: bool, now: int)
    requires Consistent(s) && Accepted(c) && forall e :: e in s.events ==> e.key != PublicationKey(c.candidateId)
    ensures Consistent(AddSignal(s, c, allowed, now))
  {
    hide HistoryFits, UniqueKeys, Filter, Notices;
    var s' := AddSignal(s, c, allowed, now);
    AddKeepsHistory(s, c, allowed, now);
    var e := s'.events[|s.events|];
    assert s'.events == s.events + [e];
    QuietEvent(s.events, e);
    FreshKeyUnique(s.events, e);
  }

  /** Within one transaction the loaded observations decide as the whole history would, candidate by candidate. */
  lemma {:induction false} PublishEachKeeps(s: Store, seen: seq<Observation>, batch: seq<PublicationCandidate>,
                                            config: PolicyConfig, now: int)
    requires ValidConfig(config) && Sound(s, config) && NoneAfter(Observe(s.signals), now) && NewCandidates(s, batch)
    requires forall c :: c in batch ==> Accepted(c)
    requires seen == Filter(Loaded(now, config), Observe(s.signals))
    ensures Sound(PublishEach(s, seen, batch, config, now), config)
    decreases |batch|
  {
    hide Consistent, WithinLimits, EvaluatePublication;
    if batch != [] {
      var c := batch[0];
      assert c in batch;
      PrunedDecision(c, Observe(s.signals), now, config);
      var allowed := EvaluatePublication(c, seen, now, config).None?;
      DecisionKeepsLimits(c, Observe(s.signals), now, config);
      AddKeepsConsistent(s, c, allowed, now);
      var s' := AddSignal(s, c, allowed, now);
      var o := Observation(c.symbol, if allowed then Preparing else Suppressed, now);
      assert Observe(s'.signals) == Observe(s.signals) + [o];
      FilterConcat(Loaded(now, config), Observe(s.signals), [o]);
      assert Filter(Loaded(now, config), [o]) == [o];
      StillNew(s, s', batch);
      PublishEachKeeps(s', seen + [o], batch[1..], config, now);
    }
  }

  lemma StillNew(s: Store, s': Store, batch: seq<PublicationCandidate>)
    requires batch != [] && NewCandidates(s, batch) && |s'.events| == |s.events| + 1
    requires s'.events[..|s.events|] == s.events && s'.events[|s.events|].key == PublicationKey(batch[0].candidateId)
    ensures NewCandidates(s', batch[1..])
  {
    forall c, e | c in batch[1..] && e in s'.events ensures e.key != PublicationKey(c.candidateId) {
      assert e in s.events || e == s'.events[|s.events|];
      var i :| 0 <= i < |batch[1..]| && batch[1..][i] == c;
      assert batch[i + 1] == c;
    }
  }

  lemma TrackingKeeps(s: Store, id: nat, eventType: EventType, at: int, key: EventKey)
    requires Consistent(s) && key.RecoveryKey? && key.signalId == id
    ensures Consistent(RecordTrackingEvent(s, id, eventType, at, key))
  {
    hide UniqueKeys, Filter, Notices;
    var s' := RecordTrackingEvent(s, id, eventType, at, key);
    if s' != s {
      var added := s'.events[|s.events|];
      assert s'.events == s.events + [added];
      QuietEvent(s.events, added);
      FreshKeyUnique(s.events, added);
      forall e | e in s'.events ensures HistoryFits(s', e) {
        assert e in s.events || e == added;
      }
    }
  }

  /** Every permitted step keeps the store consistent and every portfolio limit. */
  lemma StepKeepsSound(s: Store, step: Step, config: PolicyConfig)
    requires ValidConfig(config) && Sound(s, config) && Permitted(s, step)
    ensures Sound(Take(s, step, config), config)
  {
    hide Consistent, WithinLimits;
    match step {
      case PublishBatch(batch, now) =>
        PublishEachKeeps(s, Filter(Loaded(now, config), Observe(s.signals)), Filter(IsAccepted(), batch), config, now);
      case Move(t) =>
        ApplyKeepsConsistent(s, t);
        var s' := ApplyTransition(s, t).0;
        if s' != s {
          var seen := Observe(s.signals);
          MoveKeepsLimits(seen, t.signalId, t.target, config);
          assert Observe(s'.signals) == seen[t.signalId := seen[t.signalId].(status := t.target)];
        }
      case TrackingEvent(id, eventType, at, key) =>
        TrackingKeeps(s, id, eventType, at, key);
    }
  }

  ghost predicate PermittedRun(s: Store, steps: seq<Step>, config: PolicyConfig)
    decreases |steps|
  {
    steps == [] || (Permitted(s, steps[0]) && PermittedRun(Take(s, steps[0], config), steps[1..], config))
  }

  function TakeAll(s: Store, steps: seq<Step>, config: PolicyConfig): Store
    decreases |steps|
  {
    if steps == [] then s else TakeAll(Take(s, steps[0], config), steps[1..], config)
  }

  const EMPTY := Store([], map[], [], [])

  lemma {:induction false} RunKeepsSound(s: Store, steps: seq<Step>, config: PolicyConfig)
    requires ValidConfig(config) && Sound(s, config) && PermittedRun(s, steps, config)
    ensures Sound(TakeAll(s, steps, config), config)
    decreases |steps|
  {
    hide Sound, Permitted;
    if steps != [] {
      StepKeepsSound(s, steps[0], config);
      RunKeepsSound(Take(s, steps[0], config), steps[1..], config);
    }
  }

  /**
   * Over every history of publications, transitions and tracking events: one active signal per symbol, the active
   * limit, every rolling hour, every burst window and every cooldown are respected, signal and virtual trade move in
   * lock step, no signal changes status more than four times, and every status change has exactly one outbox row.
   */
  lemma EveryHistoryIsSound(steps: seq<Step>, config: PolicyConfig)
    requires ValidConfig(config) && PermittedRun(EMPTY, steps, config)
    ensures var s := TakeAll(EMPTY, steps, config);
            && WithinLimits(Observe(s.signals), config)
            && LockStep(s)
            && (forall id :: 0 <= id < |s.signals| ==> |Filter(ChangesOf(id), s.events)| <= 4)
            && UniqueKeys(s.events) && s.outbox == Notices(s.events)
  {
    EmptyIsSound(config);
    RunKeepsSound(EMPTY, steps, config);
    var s := TakeAll(EMPTY, steps, config);
    hide WithinLimits, LockStep, TakeAll, HistoryFits, Filter;
    assert forall id :: 0 <= id < |s.signals| ==> |Filter(ChangesOf(id), s.events)| + Rank(s.signals[id].status) <= 4;
  }

  lemma EmptyIsSound(config: PolicyConfig)
    requires ValidConfig(config)
    ensures Sound(EMPTY, config)
  {
    var seen := Observe(EMPTY.signals);
    assert seen == [];
    assert forall end :: WindowCount(seen, end, HOUR) == 0;
    assert forall end :: WindowCount(seen, end, config.burstWindowMinutes * MINUTE) == 0;
  }
}
