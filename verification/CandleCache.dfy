/** The aggregate table as a cache of the minute table, kept honest by the job queue under every interleaving. */
module CandleCache {
  import opened Wrappers
  import opened MarketModels
  import opened CandleAggregation
  import opened MarketStore

  predicate Aligned(i: Interval) {
    IntervalStart(i.start, i.timeframe) == i.start
  }

  /** Rows are stored under their own keys, jobs and aggregates under aligned intervals. */
  ghost predicate WellStored(t: Tables) {
    && (forall k :: k in t.minutes ==> KeyOf(t.minutes[k]) == k)
    && (forall i :: i in t.jobs ==> Aligned(i))
  }

  /** Every interval whose stored aggregate is not what its minutes give has a job row. */
  ghost predicate Honest(t: Tables) {
    forall i | Aligned(i) :: Cached(t, i) != Recomputed(t.minutes, i) ==> i in t.jobs
  }

  // ---------- what a recomputation depends on ----------

  lemma {:induction false} RowsDependOnRange(a: map<MinuteKey, Candle1m>, b: map<MinuteKey, Candle1m>, symbol: string,
                                             since: int, until: int)
    requires forall m :: since <= m < until ==>
               (MinuteKey(symbol, m) in a <==> MinuteKey(symbol, m) in b)
               && (MinuteKey(symbol, m) in a ==> a[MinuteKey(symbol, m)] == b[MinuteKey(symbol, m)])
    ensures SourceRows(a, symbol, since, until) == SourceRows(b, symbol, since, until)
    decreases until - since
  {
    if since < until {
      RowsDependOnRange(a, b, symbol, since + 1, until);
    }
  }

  lemma {:induction false} RowsCount(minutes: map<MinuteKey, Candle1m>, symbol: string, since: int, until: int)
    requires since <= until
    ensures |SourceRows(minutes, symbol, since, until)| <= until - since
    ensures (exists m :: since <= m < until && MinuteKey(symbol, m) !in minutes) ==>
              |SourceRows(minutes, symbol, since, until)| < until - since
    decreases until - since
  {
    if since < until {
      RowsCount(minutes, symbol, since + 1, until);
    }
  }

  lemma {:induction false} RowsAreStored(minutes: map<MinuteKey, Candle1m>, symbol: string, since: int, until: int)
    requires forall k :: k in minutes ==> KeyOf(minutes[k]) == k
    ensures forall c :: c in SourceRows(minutes, symbol, since, until) ==>
              c.symbol == symbol && since <= c.openMinute && c.openMinute < until
    decreases until - since
  {
    if since < until {
      RowsAreStored(minutes, symbol, since + 1, until);
    }
  }

  /** With a minute of the interval missing there is nothing to aggregate. */
  lemma MissingMinuteWithholds(minutes: map<MinuteKey, Candle1m>, i: Interval, m: int)
    requires Aligned(i) && i.start <= m < IntervalEnd(i.start, i.timeframe) && MinuteKey(i.symbol, m) !in minutes
    ensures Recomputed(minutes, i) == None
  {
    hide AggregateCandles, IntervalStart;
    RowsCount(minutes, i.symbol, i.start, IntervalEnd(i.start, i.timeframe));
    AggregateMeaning(SourceRows(minutes, i.symbol, i.start, IntervalEnd(i.start, i.timeframe)), i.timeframe, i.start);
  }

  /** A recomputed aggregate belongs to the interval it was computed for. */
  lemma RecomputedBelongs(minutes: map<MinuteKey, Candle1m>, i: Interval)
    requires Aligned(i) && Recomputed(minutes, i).Some? && forall k :: k in minutes ==> KeyOf(minutes[k]) == k
    ensures var r := Recomputed(minutes, i).value; Interval(r.symbol, r.timeframe, r.openMinute) == i
  {
    hide AggregateCandles, IntervalStart;
    var rows := SourceRows(minutes, i.symbol, i.start, IntervalEnd(i.start, i.timeframe));
    RowsAreStored(minutes, i.symbol, i.start, IntervalEnd(i.start, i.timeframe));
    AggregateMeaning(rows, i.timeframe, i.start);
    var ordered := Sequences.Sort(ByOpen(), rows);
    Sequences.SortMembers(ByOpen(), rows);
    assert ordered[0] in ordered;
  }

  // ---------- storing minutes ----------

  lemma {:induction false} UpsertTouches(minutes: map<MinuteKey, Candle1m>, candles: seq<Candle1m>)
    requires forall k :: k in minutes ==> KeyOf(minutes[k]) == k
    ensures var after := UpsertCandles(minutes, candles);
            && (forall k :: k in after ==> KeyOf(after[k]) == k)
            && (forall k :: (k in after <==> k in minutes || exists c :: c in candles && KeyOf(c) == k))
            && (forall k :: k in minutes && (forall c :: c in candles ==> KeyOf(c) != k) ==> after[k] == minutes[k])
    decreases |candles|
  {
    if candles != [] {
      var m1 := minutes[KeyOf(candles[0]) := candles[0]];
      UpsertTouches(m1, candles[1..]);
      assert forall c :: c in candles <==> c == candles[0] || c in candles[1..];
    }
  }

  /** A minute lies in an aligned interval exactly when that interval is its own for the timeframe. */
  lemma OwnInterval(c: Candle1m, i: Interval)
    requires Aligned(i) && c.symbol == i.symbol
    ensures i.start <= c.openMinute < IntervalEnd(i.start, i.timeframe) <==> IntervalOf(c, i.timeframe) == i
  {
    if i.start <= c.openMinute < i.start + Minutes(i.timeframe) {
      AlignedStart(i.start, i.timeframe, c.openMinute);
    }
    IntervalsNest(c.openMinute, i.timeframe, i.timeframe);
  }

  /** Storing candles changes only the recomputation of the intervals they lie in. */
  lemma UnrelatedIntervalKept(minutes: map<MinuteKey, Candle1m>, candles: seq<Candle1m>, i: Interval)
    requires Aligned(i) && forall k :: k in minutes ==> KeyOf(minutes[k]) == k
    requires forall c :: c in candles ==> IntervalOf(c, i.timeframe) != i
    ensures Recomputed(UpsertCandles(minutes, candles), i) == Recomputed(minutes, i)
  {
    hide AggregateCandles, IntervalStart, UpsertCandles;
    var after := UpsertCandles(minutes, candles);
    UpsertTouches(minutes, candles);
    forall c | c in candles && c.symbol == i.symbol
      ensures !(i.start <= c.openMinute < IntervalEnd(i.start, i.timeframe))
    {
      OwnInterval(c, i);
    }
    forall m | i.start <= m < IntervalEnd(i.start, i.timeframe)
      ensures MinuteKey(i.symbol, m) in minutes <==> MinuteKey(i.symbol, m) in after
      ensures MinuteKey(i.symbol, m) in minutes ==> minutes[MinuteKey(i.symbol, m)] == after[MinuteKey(i.symbol, m)]
    {
      var k := MinuteKey(i.symbol, m);
      assert forall c :: c in candles ==> KeyOf(c) != k;
    }
    RowsDependOnRange(minutes, after, i.symbol, i.start, IntervalEnd(i.start, i.timeframe));
  }

  lemma WantedCovers(candles: seq<Candle1m>, c: Candle1m, tf: Timeframe)
    requires c in candles
    ensures IntervalOf(c, tf) in Wanted(candles, false)
    ensures Completes(c, tf) ==> IntervalOf(c, tf) in Wanted(candles, true)
  {
    assert tf in TIMEFRAMES by {
      match tf {
        case M5 => assert TIMEFRAMES[0] == tf;
        case M15 => assert TIMEFRAMES[1] == tf;
        case H1 => assert TIMEFRAMES[2] == tf;
        case H4 => assert TIMEFRAMES[3] == tf;
      }
    }
  }

  lemma WantedAligned(candles: seq<Candle1m>, completedOnly: bool)
    ensures forall i :: i in Wanted(candles, completedOnly) ==> Aligned(i)
  {
    hide IntervalStart, Completes;
    forall i | i in Wanted(candles, completedOnly) ensures Aligned(i) {
      var c, tf :| c in candles && tf in TIMEFRAMES && IntervalOf(c, tf) == i;
      StartsAligned(c, tf);
    }
  }

  lemma StartsAligned(c: Candle1m, tf: Timeframe)
    ensures Aligned(IntervalOf(c, tf))
  {
    IntervalsNest(c.openMinute, tf, tf);
  }

  // ---------- the one worker and its steps ----------

  /** The worker's memory: claimed jobs, the first of them being processed, its aggregate once loaded and computed. */
  datatype Worker = Idle | Busy(claims: seq<Claim>, loaded: Option<Option<AggregatedCandle>>)

  datatype System = System(tables: Tables, worker: Worker)

  datatype Step =
    | Save(symbol: string, candles: seq<Candle1m>, now: int)
    | Repair(candles: seq<Candle1m>, now: int)
    | Live(candle: Candle1m, now: int)
    | Seed(rows: seq<Candle1m>, now: int)
    | Mark(symbol: string, state: StreamState)
    | Complete(symbol: string, confirmed: int)
    | ClaimJobs(picked: seq<Interval>, now: int)
    | Load
    | Finish
    | Fail(now: int, delay: int)
    | Crash
    | Recover(cutoff: int, now: int)

  /** A live candle is newer than every stored minute of its symbol, or repeats a stored one. */
  predicate NewestOrSame(t: Tables, c: Candle1m) {
    (KeyOf(c) in t.minutes && t.minutes[KeyOf(c)] == c)
    || forall k :: k in t.minutes && k.symbol == c.symbol ==> k.minute < c.openMinute
  }

  predicate Distinct(picked: seq<Interval>) {
    forall i, j :: 0 <= i < j < |picked| ==> picked[i] != picked[j]
  }

  function ToSet(picked: seq<Interval>): set<Interval> {
    set i | i in picked
  }

  predicate Enabled(s: System, step: Step) {
    match step
    case Live(candle, _) => NewestOrSame(s.tables, candle)
    case ClaimJobs(picked, now) =>
      s.worker.Idle? && picked != [] && Distinct(picked) && forall i :: i in picked ==> Claimable(s.tables, i, now)
    case Load => s.worker.Busy? && s.worker.loaded.None?
    case Finish => s.worker.Busy? && s.worker.loaded.Some?
    case Fail(_, _) => s.worker.Busy?
    case Recover(_, _) => s.worker.Idle?
    case _ => true
  }

  function ClaimOf(t: Tables, i: Interval, now: int): Claim
    requires i in t.jobs
  {
    Claim(i, now, t.jobs[i].attempts + 1)
  }

  function Advance(w: Worker): Worker
    requires w.Busy?
  {
    if |w.claims| <= 1 then Idle else Busy(w.claims[1..], None)
  }

  function Next(s: System, step: Step): System
    requires Enabled(s, step) && (s.worker.Busy? ==> s.worker.claims != [])
  {
    var t, w := s.tables, s.worker;
    match step
    case Save(symbol, candles, now) => s.(tables := SaveBatch(t, symbol, candles, now))
    case Repair(candles, now) => s.(tables := RepairCandles(t, candles, now))
    case Live(candle, now) => s.(tables := IngestLiveCandle(t, candle, now).0)
    case Seed(rows, now) => s.(tables := SeedBatch(t, rows, now))
    case Mark(symbol, state) => s.(tables := MarkState(t, symbol, state))
    case Complete(symbol, confirmed) => s.(tables := CompleteGap(t, symbol, confirmed))
    case ClaimJobs(picked, now) =>
      System(ClaimAll(t, ToSet(picked), now),
             Busy(seq(|picked|, k requires 0 <= k < |picked| => assert picked[k] in picked; ClaimOf(t, picked[k], now)),
               None))
    case Load => s.(worker := Busy(w.claims, Some(Recomputed(t.minutes, w.claims[0].interval))))
    case Finish => System(FinishJob(t, w.claims[0], w.loaded.value), Advance(w))
    case Fail(now, delay) => System(FailJob(t, w.claims[0], now, delay), Advance(w))
    case Crash => s.(worker := Idle)
    case Recover(cutoff, now) => s.(tables := RecoverStale(t, cutoff, now))
  }

  /** Claimed rows still exist; a loaded aggregate that could be finished without a trace is still the right one. */
  ghost predicate WorkerOk(t: Tables, w: Worker) {
    w.Busy? ==>
      && w.claims != []
      && (forall i, j :: 0 <= i < j < |w.claims| ==> w.claims[i].interval != w.claims[j].interval)
      && (forall k :: 0 <= k < |w.claims| ==> w.claims[k].interval in t.jobs)
      && (w.loaded.Some? ==>
            && (Matches(t, w.claims[0]) ==> w.loaded.value == Recomputed(t.minutes, w.claims[0].interval))
            && (w.loaded.value.Some? ==>
                  var r := w.loaded.value.value; Interval(r.symbol, r.timeframe, r.openMinute) == w.claims[0].interval))
  }

  ghost predicate Invariant(s: System) {
    WellStored(s.tables) && Honest(s.tables) && WorkerOk(s.tables, s.worker)
  }

  // ---------- storing steps ----------

  /** Storing minutes and enqueuing every interval whose recomputation changes keeps the invariant. */
  lemma StoringKeeps(s: System, t': Tables, candles: seq<Candle1m>, completedOnly: bool, priority: int, now: int)
    requires Invariant(s)
    requires t'.minutes == UpsertCandles(s.tables.minutes, candles) && t'.aggregates == s.tables.aggregates
    requires t'.jobs == Enqueue(s.tables.jobs, Wanted(candles, completedOnly), priority, now)
    requires forall i :: Aligned(i) && i !in Wanted(candles, completedOnly) ==>
               Recomputed(t'.minutes, i) == Recomputed(s.tables.minutes, i)
    ensures Invariant(System(t', s.worker))
  {
    hide Recomputed, Wanted, IntervalStart;
    UpsertTouches(s.tables.minutes, candles);
    WantedAligned(candles, completedOnly);
    forall i | Aligned(i) && Cached(t', i) != Recomputed(t'.minutes, i) ensures i in t'.jobs {
      assert Cached(t', i) == Cached(s.tables, i);
    }
  }

  lemma AllWanted(minutes: map<MinuteKey, Candle1m>, candles: seq<Candle1m>)
    requires forall k :: k in minutes ==> KeyOf(minutes[k]) == k
    ensures forall i :: Aligned(i) && i !in Wanted(candles, false) ==>
              Recomputed(UpsertCandles(minutes, candles), i) == Recomputed(minutes, i)
  {
    hide Recomputed, Wanted, IntervalStart, UpsertCandles;
    forall i | Aligned(i) && i !in Wanted(candles, false)
      ensures Recomputed(UpsertCandles(minutes, candles), i) == Recomputed(minutes, i)
    {
      forall c | c in candles ensures IntervalOf(c, i.timeframe) != i {
        WantedCovers(candles, c, i.timeframe);
      }
      UnrelatedIntervalKept(minutes, candles, i);
    }
  }

  /** A newest, or repeated, minute changes no interval other than those it completes. */
  lemma LiveChangesOnlyCompleted(t: Tables, c: Candle1m, i: Interval)
    requires WellStored(t) && NewestOrSame(t, c) && Aligned(i) && i !in Wanted([c], true)
    ensures Recomputed(UpsertCandles(t.minutes, [c]), i) == Recomputed(t.minutes, i)
  {
    hide Recomputed, Wanted, IntervalStart;
    var after := UpsertCandles(t.minutes, [c]);
    OneUpsert(t.minutes, c);
    if IntervalOf(c, i.timeframe) != i {
      assert forall x :: x in [c] ==> x == c;
      UnrelatedIntervalKept(t.minutes, [c], i);
    } else if KeyOf(c) in t.minutes && t.minutes[KeyOf(c)] == c {
      assert after == t.minutes;
    } else {
      WantedCovers([c], c, i.timeframe);
      OwnInterval(c, i);
      var last := IntervalEnd(i.start, i.timeframe) - 1;
      MissingMinuteWithholds(t.minutes, i, last);
      MissingMinuteWithholds(after, i, last);
    }
  }

  lemma LiveKeeps(s: System, c: Candle1m, now: int)
    requires Invariant(s) && NewestOrSame(s.tables, c)
    ensures Invariant(System(IngestLiveCandle(s.tables, c, now).0, s.worker))
  {
    hide Recomputed, Wanted, Honest, WorkerOk, Enqueue, UpsertCandles, NewestOrSame;
    forall i | Aligned(i) && i !in Wanted([c], true)
      ensures Recomputed(UpsertCandles(s.tables.minutes, [c]), i) == Recomputed(s.tables.minutes, i)
    {
      LiveChangesOnlyCompleted(s.tables, c, i);
    }
    StoringKeeps(s, IngestLiveCandle(s.tables, c, now).0, [c], true, 0, now);
  }

  lemma BatchKeeps(s: System, t': Tables, candles: seq<Candle1m>, priority: int, now: int)
    requires Invariant(s)
    requires t'.minutes == UpsertCandles(s.tables.minutes, candles) && t'.aggregates == s.tables.aggregates
    requires t'.jobs == Enqueue(s.tables.jobs, Wanted(candles, false), priority, now)
    ensures Invariant(System(t', s.worker))
  {
    hide Recomputed, Wanted, Honest, WorkerOk, Enqueue, UpsertCandles;
    AllWanted(s.tables.minutes, candles);
    StoringKeeps(s, t', candles, false, priority, now);
  }

  /** Re-enqueuing the intervals of stored rows keeps the invariant. */
  lemma SeedKeeps(s: System, rows: seq<Candle1m>, now: int)
    requires Invariant(s)
    ensures Invariant(System(SeedBatch(s.tables, rows, now), s.worker))
  {
    hide Recomputed, Wanted, IntervalStart;
    WantedAligned(rows, false);
    var t' := SeedBatch(s.tables, rows, now);
    forall i | Aligned(i) && Cached(t', i) != Recomputed(t'.minutes, i) ensures i in t'.jobs {
      assert Cached(t', i) == Cached(s.tables, i);
    }
  }

  // ---------- worker steps ----------

  /** Changing only the rows of existing jobs keeps the cache honest. */
  lemma SameJobsHonest(t: Tables, t': Tables)
    requires WellStored(t) && Honest(t) && t'.minutes == t.minutes && t'.aggregates == t.aggregates
             && t'.jobs.Keys == t.jobs.Keys
    ensures WellStored(t') && Honest(t')
  {
    hide Recomputed;
    forall i | Aligned(i) && Cached(t', i) != Recomputed(t'.minutes, i) ensures i in t'.jobs {
      assert Cached(t', i) == Cached(t, i);
      assert i in t.jobs.Keys;
    }
    forall i | i in t'.jobs ensures Aligned(i) {
      assert i in t.jobs.Keys;
    }
  }

  lemma ClaimKeeps(s: System, picked: seq<Interval>, now: int)
    requires Invariant(s) && Enabled(s, ClaimJobs(picked, now))
    ensures Invariant(Next(s, ClaimJobs(picked, now)))
  {
    hide Recomputed, IntervalStart;
    SameJobsHonest(s.tables, ClaimAll(s.tables, ToSet(picked), now));
    var claims := Next(s, ClaimJobs(picked, now)).worker.claims;
    forall k | 0 <= k < |claims| ensures claims[k].interval == picked[k] && picked[k] in s.tables.jobs {
      assert picked[k] in picked;
    }
  }

  lemma LoadKeeps(s: System)
    requires Invariant(s) && Enabled(s, Load)
    ensures Invariant(Next(s, Load))
  {
    hide Recomputed;
    var i := s.worker.claims[0].interval;
    if Recomputed(s.tables.minutes, i).Some? {
      RecomputedBelongs(s.tables.minutes, i);
    }
  }

  /** Writing the loaded aggregate and dropping the job only if nothing touched it since the claim. */
  lemma FinishKeeps(s: System)
    requires Invariant(s) && Enabled(s, Finish)
    ensures Invariant(Next(s, Finish))
  {
    hide Recomputed, IntervalStart;
    var t, t', c := s.tables, Next(s, Finish).tables, s.worker.claims[0];
    forall i | Aligned(i) && Cached(t', i) != Recomputed(t'.minutes, i) ensures i in t'.jobs {
      if i != c.interval {
        assert Cached(t', i) == Cached(t, i);
      } else {
        assert Cached(t', i) == s.worker.loaded.value;
      }
    }
  }

  lemma FailKeeps(s: System, now: int, delay: int)
    requires Invariant(s) && Enabled(s, Fail(now, delay))
    ensures Invariant(Next(s, Fail(now, delay)))
  {
    hide Recomputed, IntervalStart;
    SameJobsHonest(s.tables, FailJob(s.tables, s.worker.claims[0], now, delay));
  }

  lemma RecoverKeeps(s: System, cutoff: int, now: int)
    requires Invariant(s) && Enabled(s, Recover(cutoff, now))
    ensures Invariant(Next(s, Recover(cutoff, now)))
  {
    hide Recomputed, IntervalStart;
    SameJobsHonest(s.tables, RecoverStale(s.tables, cutoff, now));
  }

  /** Checkpoint steps touch neither minutes nor aggregates nor jobs. */
  lemma CheckpointKeeps(s: System, checkpoints: map<string, Checkpoint>)
    requires Invariant(s)
    ensures Invariant(s.(tables := s.tables.(checkpoints := checkpoints)))
  {
    hide Recomputed, IntervalStart;
    SameJobsHonest(s.tables, s.tables.(checkpoints := checkpoints));
  }

  lemma StepKeeps(s: System, step: Step)
    requires Invariant(s) && Enabled(s, step)
    ensures Invariant(Next(s, step))
  {
    hide Recomputed, Wanted, Honest, WellStored, Enqueue, UpsertCandles, UpsertCheckpoint, FinishJob, FailJob,
      RecoverStale, ClaimAll;
    match step {
      case Save(symbol, candles, now) =>
        if candles != [] { BatchKeeps(s, SaveBatch(s.tables, symbol, candles, now), candles, 100, now); }
      case Repair(candles, now) =>
        if candles != [] { BatchKeeps(s, RepairCandles(s.tables, candles, now), candles, 10, now); }
      case Live(candle, now) => LiveKeeps(s, candle, now);
      case Seed(rows, now) => SeedKeeps(s, rows, now);
      case Mark(symbol, state) => CheckpointKeeps(s, UpsertCheckpoint(s.tables.checkpoints, symbol, state, None, true));
      case Complete(symbol, confirmed) =>
        CheckpointKeeps(s, UpsertCheckpoint(s.tables.checkpoints, symbol, Ready, Some(confirmed), false));
      case ClaimJobs(picked, now) => ClaimKeeps(s, picked, now);
      case Load => LoadKeeps(s);
      case Finish => FinishKeeps(s);
      case Fail(now, delay) => FailKeeps(s, now, delay);
      case Crash =>
      case Recover(cutoff, now) => RecoverKeeps(s, cutoff, now);
    }
  }

  ghost predicate EnabledRun(s: System, steps: seq<Step>)
    requires Invariant(s)
    decreases |steps|
  {
    steps == [] || (Enabled(s, steps[0]) && (StepKeeps(s, steps[0]); EnabledRun(Next(s, steps[0]), steps[1..])))
  }

  ghost function After(s: System, steps: seq<Step>): System
    requires Invariant(s) && EnabledRun(s, steps)
    decreases |steps|
  {
    if steps == [] then s
    else
      StepKeeps(s, steps[0]);
      After(Next(s, steps[0]), steps[1..])
  }

  lemma {:induction false} RunKeeps(s: System, steps: seq<Step>)
    requires Invariant(s) && EnabledRun(s, steps)
    ensures Invariant(After(s, steps))
    decreases |steps|
  {
    hide Honest, WellStored, Next, Enabled;
    if steps != [] {
      StepKeeps(s, steps[0]);
      RunKeeps(Next(s, steps[0]), steps[1..]);
    }
  }

  const EMPTY := System(Tables(map[], map[], map[], map[]), Idle)

  lemma EmptyIsHonest()
    ensures Invariant(EMPTY)
  {
    forall i | Aligned(i) ensures Cached(EMPTY.tables, i) == Recomputed(EMPTY.tables.minutes, i) {
      IntervalsNest(i.start, i.timeframe, i.timeframe);
      MissingMinuteWithholds(EMPTY.tables.minutes, i, i.start);
    }
  }

  /**
   * Under every interleaving of storing, repairing, claiming, loading, finishing, failing, crashing and recovering,
   * an aggregate that differs from its recomputation has a job, so an empty queue means an exact cache.
   */
  lemma CacheStaysHonest(s: System, steps: seq<Step>)
    requires Invariant(s) && EnabledRun(s, steps)
    ensures var t := After(s, steps).tables;
            && (forall i | Aligned(i) :: Cached(t, i) != Recomputed(t.minutes, i) ==> i in t.jobs)
            && (t.jobs == map[] ==> forall i | Aligned(i) :: Cached(t, i) == Recomputed(t.minutes, i))
  {
    RunKeeps(s, steps);
    hide Recomputed, Cached, IntervalStart, After;
  }

  /** The same from the empty tables and an idle worker on: every aggregate without a job is what its minutes give. */
  lemma CacheIsHonestFromTheStart(steps: seq<Step>)
    ensures Invariant(EMPTY)
    ensures EnabledRun(EMPTY, steps) ==>
              var t := After(EMPTY, steps).tables;
              forall i | Aligned(i) && i !in t.jobs :: Cached(t, i) == Recomputed(t.minutes, i)
  {
    hide Recomputed, Cached, IntervalStart, After;
    EmptyIsHonest();
    if EnabledRun(EMPTY, steps) {
      CacheStaysHonest(EMPTY, steps);
    }
  }

  // ---------- a claim is settled once ----------

  /** Only a claim at the same instant can make a lost row match again. */
  predicate ClaimsElsewhen(step: Step, at: int) {
    step.ClaimJobs? ==> step.now != at
  }

  lemma StaysUnmatched(s: System, step: Step, claim: Claim)
    requires Enabled(s, step) && (s.worker.Busy? ==> s.worker.claims != []) && ClaimsElsewhen(step, claim.claimedAt)
    requires !Matches(s.tables, claim)
    ensures !Matches(Next(s, step).tables, claim)
  {
    hide Recomputed, Wanted, UpsertCandles, UpsertCheckpoint, NewestOrSame, Distinct;
  }

  /**
   * Once a claim has lost its row it never has it again, whatever is stored, claimed, finished, failed or recovered.
   */
  lemma {:induction false} SettledForGood(s: System, steps: seq<Step>, claim: Claim)
    requires Invariant(s) && EnabledRun(s, steps) && !Matches(s.tables, claim)
    requires forall step :: step in steps ==> ClaimsElsewhen(step, claim.claimedAt)
    ensures !Matches(After(s, steps).tables, claim)
    decreases |steps|
  {
    hide Honest, WellStored, Next, Enabled, Matches, ClaimsElsewhen;
    if steps != [] {
      assert steps[0] in steps;
      StepKeeps(s, steps[0]);
      StaysUnmatched(s, steps[0], claim);
      SettledForGood(Next(s, steps[0]), steps[1..], claim);
    }
  }

  // ---------- what one stored minute changes ----------

  /** Another minute of the interval is not stored. */
  predicate MinuteMissing(minutes: map<MinuteKey, Candle1m>, i: Interval, besides: int) {
    exists m :: i.start <= m < IntervalEnd(i.start, i.timeframe) && m != besides && MinuteKey(i.symbol, m) !in minutes
  }

  /** Another stored minute of the interval reaches at least as high as both prices, or as low as both. */
  predicate HigherElsewhere(minutes: map<MinuteKey, Candle1m>, i: Interval, besides: int, a: real, b: real) {
    exists m :: i.start <= m < IntervalEnd(i.start, i.timeframe) && m != besides && MinuteKey(i.symbol, m) in minutes
                && minutes[MinuteKey(i.symbol, m)].highPrice >= a && minutes[MinuteKey(i.symbol, m)].highPrice >= b
  }

  predicate LowerElsewhere(minutes: map<MinuteKey, Candle1m>, i: Interval, besides: int, a: real, b: real) {
    exists m :: i.start <= m < IntervalEnd(i.start, i.timeframe) && m != besides && MinuteKey(i.symbol, m) in minutes
                && minutes[MinuteKey(i.symbol, m)].lowPrice <= a && minutes[MinuteKey(i.symbol, m)].lowPrice <= b
  }

  /** Replacing the stored minute leaves the totals and extremes of the interval, and its open when it is the first. */
  predicate SameContribution(minutes: map<MinuteKey, Candle1m>, i: Interval, known: Candle1m, c: Candle1m) {
    && (c.openMinute == i.start ==> c.openPrice == known.openPrice)
    && c.volume == known.volume && c.turnover == known.turnover
    && (c.highPrice == known.highPrice || HigherElsewhere(minutes, i, c.openMinute, c.highPrice, known.highPrice))
    && (c.lowPrice == known.lowPrice || LowerElsewhere(minutes, i, c.openMinute, c.lowPrice, known.lowPrice))
  }

  predicate ChangesNothing(minutes: map<MinuteKey, Candle1m>, i: Interval, c: Candle1m) {
    || MinuteMissing(minutes, i, c.openMinute)
    || (KeyOf(c) in minutes && SameContribution(minutes, i, minutes[KeyOf(c)], c))
  }

  lemma {:induction false} HighestAttained(s: seq<Candle1m>) returns (i: nat)
    requires s != []
    ensures i < |s| && s[i].highPrice == Highest(s) && forall j :: 0 <= j < |s| ==> s[j].highPrice <= Highest(s)
  {
    forall j | 0 <= j < |s| ensures s[j].highPrice <= Highest(s) {
      ExtremesBound(s, j);
    }
    if |s| == 1 || s[0].highPrice >= Highest(s[1..]) {
      i := 0;
    } else {
      i := HighestAttained(s[1..]);
      i := i + 1;
    }
  }

  lemma {:induction false} LowestAttained(s: seq<Candle1m>) returns (i: nat)
    requires s != []
    ensures i < |s| && s[i].lowPrice == Lowest(s) && forall j :: 0 <= j < |s| ==> Lowest(s) <= s[j].lowPrice
  {
    forall j | 0 <= j < |s| ensures Lowest(s) <= s[j].lowPrice {
      ExtremesBound(s, j);
    }
    if |s| == 1 || s[0].lowPrice <= Lowest(s[1..]) {
      i := 0;
    } else {
      i := LowestAttained(s[1..]);
      i := i + 1;
    }
  }

  lemma HighestReplaced(s: seq<Candle1m>, k: nat, c: Candle1m)
    requires k < |s|
    ensures Highest(s[k := c]) == Highest(s) <==>
              c.highPrice == s[k].highPrice
              || exists j :: 0 <= j < |s| && j != k && s[j].highPrice >= c.highPrice && s[j].highPrice >= s[k].highPrice
  {
    hide Highest;
    var i := HighestAttained(s);
    var j := HighestAttained(s[k := c]);
    var replaced := s[k := c];
    assert replaced[k] == c && replaced[i].highPrice <= Highest(replaced) && s[j].highPrice <= Highest(s);
    if x :| 0 <= x < |s| && x != k && s[x].highPrice >= c.highPrice && s[x].highPrice >= s[k].highPrice {
      assert replaced[x] == s[x];
    }
  }

  lemma LowestReplaced(s: seq<Candle1m>, k: nat, c: Candle1m)
    requires k < |s|
    ensures Lowest(s[k := c]) == Lowest(s) <==>
              c.lowPrice == s[k].lowPrice
              || exists j :: 0 <= j < |s| && j != k && s[j].lowPrice <= c.lowPrice && s[j].lowPrice <= s[k].lowPrice
  {
    hide Lowest;
    var i := LowestAttained(s);
    var j := LowestAttained(s[k := c]);
    var replaced := s[k := c];
    assert replaced[k] == c && replaced[i].lowPrice >= Lowest(replaced) && s[j].lowPrice >= Lowest(s);
    if x :| 0 <= x < |s| && x != k && s[x].lowPrice <= c.lowPrice && s[x].lowPrice <= s[k].lowPrice {
      assert replaced[x] == s[x];
    }
  }

  lemma {:induction false} TotalsReplaced(s: seq<Candle1m>, k: nat, c: Candle1m)
    requires k < |s|
    ensures TotalVolume(s[k := c]) == TotalVolume(s) - s[k].volume + c.volume
    ensures TotalTurnover(s[k := c]) == TotalTurnover(s) - s[k].turnover + c.turnover
  {
    if k == 0 {
      assert s[k := c][1..] == s[1..];
    } else {
      assert s[k := c][1..] == s[1..][k - 1 := c];
      TotalsReplaced(s[1..], k - 1, c);
    }
  }

  /** With every minute stored the rows are the minutes in order. */
  lemma {:induction false} FullRows(minutes: map<MinuteKey, Candle1m>, symbol: string, since: int, until: int)
    requires since <= until && forall m :: since <= m < until ==> MinuteKey(symbol, m) in minutes
    ensures var rows := SourceRows(minutes, symbol, since, until);
            |rows| == until - since && forall k :: 0 <= k < |rows| ==> rows[k] == minutes[MinuteKey(symbol, since + k)]
    decreases until - since
  {
    if since < until {
      FullRows(minutes, symbol, since + 1, until);
    }
  }

  /** A full interval is aggregated to the summary of its rows. */
  lemma FullInterval(minutes: map<MinuteKey, Candle1m>, i: Interval)
    requires Aligned(i) && forall k :: k in minutes ==> KeyOf(minutes[k]) == k
    requires forall m :: i.start <= m < IntervalEnd(i.start, i.timeframe) ==> MinuteKey(i.symbol, m) in minutes
    ensures var rows := SourceRows(minutes, i.symbol, i.start, IntervalEnd(i.start, i.timeframe));
            && |rows| == Minutes(i.timeframe)
            && (forall k :: 0 <= k < |rows| ==> rows[k] == minutes[MinuteKey(i.symbol, i.start + k)])
            && Recomputed(minutes, i) == Some(Summary(rows, i.timeframe, i.start))
  {
    hide AggregateCandles, IntervalStart, Summary;
    FullRows(minutes, i.symbol, i.start, IntervalEnd(i.start, i.timeframe));
    var rows := SourceRows(minutes, i.symbol, i.start, IntervalEnd(i.start, i.timeframe));
    AggregateMeaning(rows, i.timeframe, i.start);
    forall k | 0 <= k < |rows| ensures rows[k].openMinute == i.start + k && rows[k].symbol == i.symbol {
      assert KeyOf(minutes[MinuteKey(i.symbol, i.start + k)]) == MinuteKey(i.symbol, i.start + k);
    }
    Sequences.SortOfSorted(ByOpen(), rows);
  }

  lemma SummaryReplaced(s: seq<Candle1m>, k: nat, c: Candle1m, tf: Timeframe, start: int)
    requires k < |s| - 1 && c.symbol == s[k].symbol
    ensures Summary(s[k := c], tf, start) == Summary(s, tf, start) <==>
              && (k == 0 ==> c.openPrice == s[k].openPrice) && c.volume == s[k].volume && c.turnover == s[k].turnover
              && Highest(s[k := c]) == Highest(s) && Lowest(s[k := c]) == Lowest(s)
  {
    hide Highest, Lowest, TotalVolume, TotalTurnover;
    TotalsReplaced(s, k, c);
  }

  /**
   * Storing one minute that does not complete its interval leaves the aggregate alone exactly if it changes nothing.
   */
  lemma StoredMinuteIff(minutes: map<MinuteKey, Candle1m>, i: Interval, c: Candle1m)
    requires Aligned(i) && IntervalOf(c, i.timeframe) == i && !Completes(c, i.timeframe)
    requires forall k :: k in minutes ==> KeyOf(minutes[k]) == k
    ensures Recomputed(minutes[KeyOf(c) := c], i) == Recomputed(minutes, i) <==> ChangesNothing(minutes, i, c)
  {
    hide Recomputed, IntervalStart, Completes, SourceRows, Summary;
    var after, end := minutes[KeyOf(c) := c], IntervalEnd(i.start, i.timeframe);
    OwnInterval(c, i);
    NotLast(c, i);
    if MinuteMissing(minutes, i, c.openMinute) {
      var m :| i.start <= m < end && m != c.openMinute && MinuteKey(i.symbol, m) !in minutes;
      MissingMinuteWithholds(minutes, i, m);
      MissingMinuteWithholds(after, i, m);
    } else {
      assert forall m :: i.start <= m < end ==> MinuteKey(i.symbol, m) in after;
      FullInterval(after, i);
      if KeyOf(c) !in minutes {
        MissingMinuteWithholds(minutes, i, c.openMinute);
      } else {
        assert forall m :: i.start <= m < end ==> MinuteKey(i.symbol, m) in minutes;
        FullInterval(minutes, i);
        ReplacedRows(minutes, i, c);
      }
    }
  }

  lemma NotLast(c: Candle1m, i: Interval)
    requires Aligned(i) && IntervalOf(c, i.timeframe) == i && !Completes(c, i.timeframe)
    ensures i.start <= c.openMinute < IntervalEnd(i.start, i.timeframe) - 1
  {
    OwnInterval(c, i);
  }

  lemma ReplacedRows(minutes: map<MinuteKey, Candle1m>, i: Interval, c: Candle1m)
    requires c.symbol == i.symbol && i.start <= c.openMinute < IntervalEnd(i.start, i.timeframe) - 1 && Aligned(i)
    requires KeyOf(c) in minutes && forall k :: k in minutes ==> KeyOf(minutes[k]) == k
    requires forall m :: i.start <= m < IntervalEnd(i.start, i.timeframe) ==> MinuteKey(i.symbol, m) in minutes
    ensures var end := IntervalEnd(i.start, i.timeframe);
            var a, b := SourceRows(minutes, i.symbol, i.start, end),
              SourceRows(minutes[KeyOf(c) := c], i.symbol, i.start, end);
            && a != [] && b != []
            && (Summary(b, i.timeframe, i.start) == Summary(a, i.timeframe, i.start)
                <==> SameContribution(minutes, i, minutes[KeyOf(c)], c))
  {
    hide Highest, Lowest, TotalVolume, TotalTurnover, SourceRows, IntervalStart, Summary;
    var after, end, k := minutes[KeyOf(c) := c], IntervalEnd(i.start, i.timeframe), c.openMinute - i.start;
    FullRows(minutes, i.symbol, i.start, end);
    FullRows(after, i.symbol, i.start, end);
    var a, b := SourceRows(minutes, i.symbol, i.start, end), SourceRows(after, i.symbol, i.start, end);
    assert b == a[k := c];
    assert a[k] == minutes[KeyOf(c)];
    SummaryReplaced(a, k, c, i.timeframe, i.start);
    HighestReplaced(a, k, c);
    LowestReplaced(a, k, c);
    ElsewhereByIndex(minutes, i, c, a);
  }

  lemma ElsewhereByIndex(minutes: map<MinuteKey, Candle1m>, i: Interval, c: Candle1m, rows: seq<Candle1m>)
    requires |rows| == IntervalEnd(i.start, i.timeframe) - i.start
    requires forall k :: 0 <= k < |rows| ==>
               MinuteKey(i.symbol, i.start + k) in minutes && rows[k] == minutes[MinuteKey(i.symbol, i.start + k)]
    ensures forall x, y :: HigherElsewhere(minutes, i, c.openMinute, x, y) <==>
              exists j :: 0 <= j < |rows| && j != c.openMinute - i.start && rows[j].highPrice >= x
                && rows[j].highPrice >= y
    ensures forall x, y :: LowerElsewhere(minutes, i, c.openMinute, x, y) <==>
              exists j :: 0 <= j < |rows| && j != c.openMinute - i.start && rows[j].lowPrice <= x
                && rows[j].lowPrice <= y
  {
    hide IntervalStart;
    forall x, y
      ensures HigherElsewhere(minutes, i, c.openMinute, x, y) <==>
                exists j :: 0 <= j < |rows| && j != c.openMinute - i.start && rows[j].highPrice >= x
                  && rows[j].highPrice >= y
      ensures LowerElsewhere(minutes, i, c.openMinute, x, y) <==>
                exists j :: 0 <= j < |rows| && j != c.openMinute - i.start && rows[j].lowPrice <= x
                  && rows[j].lowPrice <= y
    {
      if HigherElsewhere(minutes, i, c.openMinute, x, y) {
        var m :| i.start <= m < IntervalEnd(i.start, i.timeframe) && m != c.openMinute
          && MinuteKey(i.symbol, m) in minutes
                 && minutes[MinuteKey(i.symbol, m)].highPrice >= x && minutes[MinuteKey(i.symbol, m)].highPrice >= y;
        assert rows[m - i.start] == minutes[MinuteKey(i.symbol, i.start + (m - i.start))];
      }
      if j :| 0 <= j < |rows| && j != c.openMinute - i.start && rows[j].highPrice >= x && rows[j].highPrice >= y {
        assert MinuteKey(i.symbol, i.start + j) in minutes;
      }
      if LowerElsewhere(minutes, i, c.openMinute, x, y) {
        var m :| i.start <= m < IntervalEnd(i.start, i.timeframe) && m != c.openMinute
          && MinuteKey(i.symbol, m) in minutes
                 && minutes[MinuteKey(i.symbol, m)].lowPrice <= x && minutes[MinuteKey(i.symbol, m)].lowPrice <= y;
        assert rows[m - i.start] == minutes[MinuteKey(i.symbol, i.start + (m - i.start))];
      }
      if j :| 0 <= j < |rows| && j != c.openMinute - i.start && rows[j].lowPrice <= x && rows[j].lowPrice <= y {
        assert MinuteKey(i.symbol, i.start + j) in minutes;
      }
    }
  }

  /**
   * A live candle keeps the cache honest exactly if every interval it lies in is completed by it, already queued,
   * short of another minute, or left with the same open, extremes and totals by the row it replaces.
   */
  lemma LiveHonestIff(t: Tables, c: Candle1m, now: int)
    requires WellStored(t) && Honest(t)
    ensures Honest(IngestLiveCandle(t, c, now).0) <==>
              forall tf: Timeframe ::
                Completes(c, tf) || IntervalOf(c, tf) in t.jobs || ChangesNothing(t.minutes, IntervalOf(c, tf), c)
  {
    hide Recomputed, IntervalStart, Completes, ChangesNothing, Honest, WellStored, IngestLiveCandle;
    if Honest(IngestLiveCandle(t, c, now).0) {
      forall tf: Timeframe
        ensures Completes(c, tf) || IntervalOf(c, tf) in t.jobs || ChangesNothing(t.minutes, IntervalOf(c, tf), c)
      {
        HonestMeansUnchanged(t, c, now, tf);
      }
    } else {
      var tf := StaleMeansChanged(t, c, now);
    }
  }

  lemma HonestMeansUnchanged(t: Tables, c: Candle1m, now: int, tf: Timeframe)
    requires WellStored(t) && Honest(t) && Honest(IngestLiveCandle(t, c, now).0)
    ensures Completes(c, tf) || IntervalOf(c, tf) in t.jobs || ChangesNothing(t.minutes, IntervalOf(c, tf), c)
  {
    hide Recomputed, IntervalStart, UpsertCandles, Completes, ChangesNothing;
    var t', i := IngestLiveCandle(t, c, now).0, IntervalOf(c, tf);
    OneUpsert(t.minutes, c);
    StartsAligned(c, tf);
    OwnTimeframe(c, tf);
    if !Completes(c, tf) && i !in t.jobs {
      StoredMinuteIff(t.minutes, i, c);
      assert i !in Wanted([c], true);
      assert Cached(t', i) == Cached(t, i);
    }
  }

  lemma StaleMeansChanged(t: Tables, c: Candle1m, now: int) returns (tf: Timeframe)
    requires WellStored(t) && Honest(t) && !Honest(IngestLiveCandle(t, c, now).0)
    ensures !Completes(c, tf) && IntervalOf(c, tf) !in t.jobs && !ChangesNothing(t.minutes, IntervalOf(c, tf), c)
  {
    hide Recomputed, IntervalStart, UpsertCandles, Completes, ChangesNothing, Wanted;
    var t' := IngestLiveCandle(t, c, now).0;
    var i :| Aligned(i) && Cached(t', i) != Recomputed(t'.minutes, i) && i !in t'.jobs;
    tf := i.timeframe;
    OneUpsert(t.minutes, c);
    WantedCovers([c], c, tf);
    assert Cached(t', i) == Cached(t, i);
    if IntervalOf(c, tf) != i {
      assert forall x :: x in [c] ==> x == c;
      UnrelatedIntervalKept(t.minutes, [c], i);
    } else {
      StoredMinuteIff(t.minutes, i, c);
    }
  }

  lemma OneUpsert(minutes: map<MinuteKey, Candle1m>, c: Candle1m)
    ensures UpsertCandles(minutes, [c]) == minutes[KeyOf(c) := c]
  {
    assert [c][1..] == [];
    assert UpsertCandles(minutes[KeyOf(c) := c], []) == minutes[KeyOf(c) := c];
  }

  /** An interval names its timeframe. */
  lemma OwnTimeframe(c: Candle1m, tf: Timeframe)
    ensures forall other: Timeframe :: IntervalOf(c, other) == IntervalOf(c, tf) ==> other == tf
  {
  }
}
