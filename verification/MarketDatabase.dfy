/** The market-data and aggregation repositories as one object, and the aggregation worker's loop over it. */
module MarketDatabase {
  import opened Wrappers
  import opened MarketModels
  import opened CandleAggregation
  import opened MarketStore
  import opened CandleCache

  /** Up to `limit` claimable rows of a job table, each the first of those still unpicked. */
  method PickClaims(rows: map<Interval, JobRow>, ghost t: Tables, limit: nat, now: int) returns (claims: seq<Claim>)
    requires rows == t.jobs
    ensures |claims| <= limit
    ensures |claims| < limit ==> forall i :: Claimable(t, i, now) ==> i in Intervals(claims)
    ensures Distinct(Intervals(claims))
    ensures forall k :: 0 <= k < |claims| ==>
              Claimable(t, claims[k].interval, now) && claims[k] == ClaimOf(t, claims[k].interval, now)
    ensures forall k, i :: 0 <= k < |claims| && Claimable(t, i, now) && i !in Intervals(claims) ==>
              ComesFirst(rows, claims[k].interval, i)
  {
    hide ComesFirst;
    claims := [];
    var open := set i | i in rows && rows[i].state == Pending && rows[i].availableAt <= now;
    while open != {} && |claims| < limit
      invariant |claims| <= limit
      invariant forall i :: Claimable(t, i, now) <==> i in open || i in Intervals(claims)
      invariant forall i :: i in Intervals(claims) ==> i !in open
      invariant Distinct(Intervals(claims))
      invariant forall k :: 0 <= k < |claims| ==>
                  claims[k].interval in rows && claims[k] == ClaimOf(t, claims[k].interval, now)
      invariant forall k, i :: 0 <= k < |claims| && i in open ==> ComesFirst(rows, claims[k].interval, i)
      decreases |open|
    {
      var best := First(rows, open);
      var claim := Claim(best, now, rows[best].attempts + 1);
      assert Intervals(claims + [claim]) == Intervals(claims) + [best];
      claims := claims + [claim];
      open := open - {best};
    }
    assert forall k :: 0 <= k < |claims| ==> Intervals(claims)[k] == claims[k].interval;
  }

  class Database {
    var minutes: map<MinuteKey, Candle1m>
    var aggregates: map<Interval, AggregatedCandle>
    var jobs: map<Interval, JobRow>
    var checkpoints: map<string, Checkpoint>
    var cursors: map<string, int>

    function Contents(): Tables
      reads this
    {
      Tables(minutes, aggregates, jobs, checkpoints)
    }

    constructor ()
      ensures Contents() == Tables(map[], map[], map[], map[]) && cursors == map[]
    {
      minutes, aggregates, jobs, checkpoints, cursors := map[], map[], map[], map[], map[];
    }

    /** `_enqueue_aggregation_jobs`: collect the intervals, then upsert one row for each. */
    method EnqueueJobs(candles: seq<Candle1m>, priority: int, completedOnly: bool, now: int)
      modifies this`jobs
      ensures jobs == Enqueue(old(jobs), Wanted(candles, completedOnly), priority, now)
    {
      hide Wanted, Enqueue, EnqueuedRow;
      var wanted := CollectIntervals(candles, completedOnly);
      var left := wanted;
      EnqueueNone(jobs, priority, now);
      assert wanted - left == {};
      while left != {}
        invariant left <= wanted
        invariant jobs == Enqueue(old(jobs), wanted - left, priority, now)
        decreases |left|
      {
        var i :| i in left;
        EnqueueOne(old(jobs), wanted - left, i, priority, now);
        assert wanted - left + {i} == wanted - (left - {i});
        jobs := jobs[i := EnqueuedRow(jobs, i, priority, now)];
        left := left - {i};
      }
      assert wanted - left == wanted;
    }

    method SaveBatch(symbol: string, candles: seq<Candle1m>, now: int)
      modifies this
      ensures Contents() == MarketStore.SaveBatch(old(Contents()), symbol, candles, now)
    {
      if candles == [] {
        return;
      }
      minutes := UpsertCandles(minutes, candles);
      EnqueueJobs(candles, 100, false, now);
      checkpoints := UpsertCheckpoint(checkpoints, symbol, Recovering, Some(candles[|candles| - 1].openMinute), false);
    }

    method IngestLiveCandle(c: Candle1m, now: int) returns (r: LiveResult)
      modifies this
      ensures (Contents(), r) == MarketStore.IngestLiveCandle(old(Contents()), c, now)
    {
      var confirmed := if c.symbol in checkpoints then checkpoints[c.symbol].lastConfirmed else None;
      minutes := UpsertCandles(minutes, [c]);
      EnqueueJobs([c], 0, true, now);
      if confirmed.None? {
        checkpoints := UpsertCheckpoint(checkpoints, c.symbol, Degraded, None, true);
        return LiveGap;
      }
      if c.openMinute <= confirmed.value {
        return LiveDuplicate;
      }
      if c.openMinute == confirmed.value + 1 {
        checkpoints := UpsertCheckpoint(checkpoints, c.symbol, Ready, Some(c.openMinute), false);
        return LiveReady;
      }
      checkpoints := UpsertCheckpoint(checkpoints, c.symbol, Degraded, None, true);
      r := LiveGap;
    }

    method RepairCandles(candles: seq<Candle1m>, now: int)
      modifies this
      ensures Contents() == MarketStore.RepairCandles(old(Contents()), candles, now)
    {
      if candles == [] {
        return;
      }
      minutes := UpsertCandles(minutes, candles);
      EnqueueJobs(candles, 10, false, now);
    }

    method MarkState(symbol: string, state: StreamState)
      modifies this`checkpoints
      ensures Contents() == MarketStore.MarkState(old(Contents()), symbol, state)
      ensures checkpoints.Keys == old(checkpoints).Keys + {symbol}
              && checkpoints - {symbol} == old(checkpoints) - {symbol}
      ensures checkpoints[symbol].state == state
      ensures checkpoints[symbol].lastConfirmed == if symbol in old(checkpoints)
              then old(checkpoints)[symbol].lastConfirmed else None
    {
      checkpoints := UpsertCheckpoint(checkpoints, symbol, state, None, true);
    }

    method CompleteGap(symbol: string, confirmed: int)
      modifies this`checkpoints
      ensures Contents() == MarketStore.CompleteGap(old(Contents()), symbol, confirmed)
      ensures checkpoints.Keys == old(checkpoints).Keys + {symbol}
              && checkpoints - {symbol} == old(checkpoints) - {symbol}
      ensures var c := checkpoints[symbol];
              c.state == Ready && c.lastConfirmed.Some? && c.lastConfirmed.value >= confirmed
              && (symbol in old(checkpoints) && old(checkpoints)[symbol].lastConfirmed.Some? ==>
                    && c.lastConfirmed.value >= old(checkpoints)[symbol].lastConfirmed.value
                    && c.lastConfirmed.value in {confirmed, old(checkpoints)[symbol].lastConfirmed.value})
              && (symbol !in old(checkpoints) || old(checkpoints)[symbol].lastConfirmed.None? ==>
                    c.lastConfirmed.value == confirmed)
    {
      checkpoints := UpsertCheckpoint(checkpoints, symbol, Ready, Some(confirmed), false);
    }

    method RecoverStale(cutoff: int, now: int)
      modifies this`jobs
      ensures Contents() == MarketStore.RecoverStale(old(Contents()), cutoff, now)
      ensures jobs.Keys == old(jobs).Keys && cutoff <= now ==> forall i :: i in jobs ==> !Stale(jobs[i], cutoff)
      ensures forall i :: i in old(jobs) && !Stale(old(jobs)[i], cutoff) ==> jobs[i] == old(jobs)[i]
      ensures forall i :: i in old(jobs) && Stale(old(jobs)[i], cutoff) ==>
                Claimable(Contents(), i, now) && jobs[i].attempts == old(jobs)[i].attempts
    {
      jobs := map i | i in jobs ::
        if jobs[i].state == Processing && jobs[i].updatedAt < cutoff
        then jobs[i].(state := Pending, availableAt := now, updatedAt := now)
        else jobs[i];
    }

    /** Claims up to `limit` available jobs, best priority and oldest interval first. */
    method ClaimJobs(limit: nat, now: int) returns (claims: seq<Claim>)
      modifies this`jobs
      ensures |claims| <= limit
      ensures |claims| < limit ==> forall i :: Claimable(old(Contents()), i, now) ==> i in Intervals(claims)
      ensures Distinct(Intervals(claims))
      ensures forall k :: 0 <= k < |claims| ==>
                Claimable(old(Contents()), claims[k].interval, now)
                && claims[k] == ClaimOf(old(Contents()), claims[k].interval, now)
      ensures forall k, i :: 0 <= k < |claims| && Claimable(old(Contents()), i, now) && i !in Intervals(claims) ==>
                ComesFirst(old(jobs), claims[k].interval, i)
      ensures Contents() == ClaimAll(old(Contents()), ToSet(Intervals(claims)), now)
    {
      claims := PickClaims(jobs, Contents(), limit, now);
      jobs := map i | i in jobs :: if i in Intervals(claims) then ClaimedRow(jobs[i], now) else jobs[i];
    }

    /** `fail_job`: back to pending, unless something has touched the row since the claim. */
    method FailJob(claim: Claim, now: int, delay: int)
      modifies this`jobs
      ensures Contents() == MarketStore.FailJob(old(Contents()), claim, now, delay)
      ensures jobs.Keys == old(jobs).Keys && jobs - {claim.interval} == old(jobs) - {claim.interval}
      ensures !Matches(old(Contents()), claim) ==> jobs == old(jobs)
      ensures Matches(old(Contents()), claim) ==>
                && jobs[claim.interval].failed && jobs[claim.interval].attempts == old(jobs)[claim.interval].attempts
                && forall at :: Claimable(Contents(), claim.interval, at) <==> now + delay <= at
      ensures !Matches(Contents(), claim)
    {
      var i := claim.interval;
      if i in jobs && jobs[i].state == Processing && jobs[i].updatedAt == claim.claimedAt {
        jobs := jobs[i := jobs[i].(state := Pending, availableAt := now + delay, updatedAt := now, failed := true)];
      }
    }

    /**
     * `seed_next_batch`: the first symbol with minutes beyond its cursor has the next of them enqueued and its cursor
     * moved past them; no symbol is left with such minutes when nothing was found.
     */
    method SeedBatch(symbols: seq<string>, limit: nat, now: int) returns (count: nat)
      modifies this`jobs, this`cursors
      ensures count == 0 ==> Contents() == old(Contents()) && cursors == old(cursors)
      ensures count == 0 && limit > 0 ==> forall symbol, m :: symbol in symbols ==>
                !Beyond(minutes, symbol, CursorOf(cursors, symbol), m)
      ensures count > 0 ==>
                exists symbol, times :: symbol in symbols && |times| == count
                  && NextMinutesAre(minutes, symbol, CursorOf(old(cursors), symbol), limit, times)
                  && Contents() == MarketStore.SeedBatch(old(Contents()), Placeholders(symbol, times), now)
                  && cursors == old(cursors)[symbol := times[|times| - 1]]
    {
      hide Enqueue, Wanted, NextMinutesAre;
      for k := 0 to |symbols|
        invariant Contents() == old(Contents()) && cursors == old(cursors)
        invariant limit > 0 ==> forall i, m :: 0 <= i < k ==>
                    !Beyond(minutes, symbols[i], CursorOf(cursors, symbols[i]), m)
      {
        var times := NextMinutes(minutes, symbols[k], CursorOf(cursors, symbols[k]), limit);
        if times == [] {
          NoneBeyond(minutes, symbols[k], CursorOf(cursors, symbols[k]), limit);
          continue;
        }
        EnqueueJobs(Placeholders(symbols[k], times), 100, false, now);
        cursors := cursors[symbols[k] := times[|times| - 1]];
        return |times|;
      }
      count := 0;
    }

    /** `_process_job`: load, aggregate and finish; an exception in between rolls back and fails the job. */
    method ProcessJob(claim: Claim, fails: bool, now: int)
      modifies this
      ensures Contents() ==
              if fails then MarketStore.FailJob(old(Contents()), claim, now, RetryDelay(claim.attempts))
              else FinishJob(old(Contents()), claim, Recomputed(old(minutes), claim.interval))
    {
      if fails {
        FailJob(claim, now, RetryDelay(claim.attempts));
        return;
      }
      var i := claim.interval;
      var source := SourceRows(minutes, i.symbol, i.start, IntervalEnd(i.start, i.timeframe));
      var result := AggregateCandles(source, i.timeframe, Some(i.start));
      match result {
        case None => aggregates := aggregates - {i};
        case Some(r) => aggregates := aggregates[Interval(r.symbol, r.timeframe, r.openMinute) := r];
      }
      if i in jobs && jobs[i].state == Processing && jobs[i].updatedAt == claim.claimedAt {
        jobs := jobs - {i};
      }
    }
  }

  // ---------- seeding ----------

  function CursorOf(cursors: map<string, int>, symbol: string): Option<int> {
    if symbol in cursors then Some(cursors[symbol]) else None
  }

  /** A stored minute the cursor has not passed. */
  predicate Beyond(minutes: map<MinuteKey, Candle1m>, symbol: string, cursor: Option<int>, m: int) {
    MinuteKey(symbol, m) in minutes && (cursor.Some? ==> cursor.value < m)
  }

  /** The first minutes beyond the cursor, in order: all of them, or as many as the limit allows. */
  ghost predicate NextMinutesAre(minutes: map<MinuteKey, Candle1m>, symbol: string, cursor: Option<int>, limit: nat,
                                 times: seq<int>) {
    && |times| <= limit
    && (forall i, j :: 0 <= i < j < |times| ==> times[i] < times[j])
    && (forall m :: m in times ==> Beyond(minutes, symbol, cursor, m))
    && (forall m :: Beyond(minutes, symbol, cursor, m) && m !in times ==>
          |times| == limit && forall i :: 0 <= i < |times| ==> times[i] < m)
  }

  lemma NoneBeyond(minutes: map<MinuteKey, Candle1m>, symbol: string, cursor: Option<int>, limit: nat)
    requires NextMinutesAre(minutes, symbol, cursor, limit, [])
    ensures limit > 0 ==> forall m :: !Beyond(minutes, symbol, cursor, m)
  {
  }

  function Placeholders(symbol: string, times: seq<int>): (r: seq<Candle1m>)
    ensures |r| == |times| && forall i :: 0 <= i < |r| ==> KeyOf(r[i]) == MinuteKey(symbol, times[i])
  {
    seq(|times|, i requires 0 <= i < |times| => Candle1m(symbol, times[i], 0.0, 0.0, 0.0, 0.0, 0.0, 0.0))
  }

  method Earliest(open: set<MinuteKey>) returns (first: MinuteKey)
    requires open != {}
    ensures first in open && forall k :: k in open ==> first.minute <= k.minute
  {
    first :| first in open;
    var left := open - {first};
    while left != {}
      invariant first in open && left <= open && forall k :: k in open - left ==> first.minute <= k.minute
      decreases |left|
    {
      var k :| k in left;
      if k.minute < first.minute {
        first := k;
      }
      left := left - {k};
    }
  }

  method NextMinutes(minutes: map<MinuteKey, Candle1m>, symbol: string, cursor: Option<int>,
                     limit: nat) returns (times: seq<int>)
    ensures NextMinutesAre(minutes, symbol, cursor, limit, times)
  {
    times := [];
    var open := set k | k in minutes && k.symbol == symbol && (cursor.Some? ==> cursor.value < k.minute);
    while open != {} && |times| < limit
      invariant |times| <= limit && forall i, j :: 0 <= i < j < |times| ==> times[i] < times[j]
      invariant forall k :: k in open ==> k.symbol == symbol
      invariant forall m :: Beyond(minutes, symbol, cursor, m) <==> m in times || MinuteKey(symbol, m) in open
      invariant forall i, k :: 0 <= i < |times| && k in open ==> times[i] < k.minute
      decreases |open|
    {
      var first := Earliest(open);
      assert forall m :: MinuteKey(symbol, m) == first <==> m == first.minute;
      times := times + [first.minute];
      open := open - {first};
    }
  }

  /** After seeding, every interval of a stored minute between the old cursor and the new one has a job. */
  lemma SeededIntervalsHaveJobs(t: Tables, symbol: string, cursor: Option<int>, limit: nat, times: seq<int>, now: int,
                                m: int, tf: Timeframe)
    requires NextMinutesAre(t.minutes, symbol, cursor, limit, times) && times != []
    requires Beyond(t.minutes, symbol, cursor, m) && m <= times[|times| - 1]
    ensures Interval(symbol, tf, IntervalStart(m, tf)) in MarketStore.SeedBatch(t, Placeholders(symbol, times),
            now).jobs
  {
    hide IntervalStart, Wanted;
    assert m in times;
    var i :| 0 <= i < |times| && times[i] == m;
    var c := Placeholders(symbol, times)[i];
    assert c in Placeholders(symbol, times);
    WantedCovers(Placeholders(symbol, times), c, tf);
  }

  predicate Stale(row: JobRow, cutoff: int) {
    row.state == Processing && row.updatedAt < cutoff
  }

  function PowerOfTwo(n: nat): (r: nat)
    ensures r >= 1
  {
    if n == 0 then 1 else 2 * PowerOfTwo(n - 1)
  }

  /** Seconds until a failed job is tried again, in the clock unit of the rows. */
  function RetryDelay(attempts: nat): int {
    var seconds := PowerOfTwo(if attempts < 5 then attempts else 5);
    (if seconds < 60 then seconds else 60) * SECOND
  }

  /** The delay doubles with every attempt up to the fifth and stays at 32 seconds; the cap of a minute never binds. */
  lemma RetryDoubles(attempts: nat)
    ensures RetryDelay(attempts + 1) == if attempts < 5 then 2 * RetryDelay(attempts) else RetryDelay(attempts)
    ensures RetryDelay(attempts) <= 32 * SECOND
  {
    assert PowerOfTwo(5) == 32 && PowerOfTwo(4) == 16 && PowerOfTwo(3) == 8 && PowerOfTwo(2) == 4 && PowerOfTwo(1) == 2;
  }

  // ---------- a claim is settled once ----------

  /**
   * Finishing, failing, recovering as stale or enqueuing again takes the row away from its claim, and a claim without
   * its row can no longer change the queue: of everything that happens to a claimed job only the first counts.
   */
  lemma ClaimSettlesOnce(t: Tables, claim: Claim, result: Option<AggregatedCandle>, wanted: set<Interval>,
                         priority: int,
                         cutoff: int, now: int, delay: int)
    ensures !Matches(FinishJob(t, claim, result), claim) && !Matches(MarketStore.FailJob(t, claim, now, delay), claim)
    ensures claim.claimedAt < cutoff ==> !Matches(MarketStore.RecoverStale(t, cutoff, now), claim)
    ensures claim.interval in wanted ==> !Matches(t.(jobs := Enqueue(t.jobs, wanted, priority, now)), claim)
    ensures !Matches(t, claim) ==>
              FinishJob(t, claim, result).jobs == t.jobs && MarketStore.FailJob(t, claim, now, delay) == t
  {
  }

  /**
   * A checkpoint is the last state and the latest confirmed minute: completions commute up to the state, an earlier one
   * is absorbed, and marking a state in between is forgotten.
   */
  lemma CompletionsAbsorb(t: Tables, symbol: string, first: int, second: int, state: StreamState)
    ensures MarketStore.CompleteGap(MarketStore.MarkState(MarketStore.CompleteGap(t, symbol, first), symbol, state),
            symbol, second)
            == MarketStore.CompleteGap(t, symbol, if first < second then second else first)
  {
    var once, latest := MarketStore.CompleteGap(t, symbol, first).checkpoints, if first < second then second else first;
    assert MarketStore.CompleteGap(t, symbol, latest).checkpoints
           == once[symbol := MarketStore.CompleteGap(t, symbol, latest).checkpoints[symbol]];
  }

  lemma EnqueueNone(jobs: map<Interval, JobRow>, priority: int, now: int)
    ensures Enqueue(jobs, {}, priority, now) == jobs
  {
  }

  /** Enqueuing one more interval is one more row upsert. */
  lemma EnqueueOne(jobs: map<Interval, JobRow>, wanted: set<Interval>, i: Interval, priority: int, now: int)
    requires i !in wanted
    ensures var before := Enqueue(jobs, wanted, priority, now);
            before[i := EnqueuedRow(before, i, priority, now)] == Enqueue(jobs, wanted + {i}, priority, now)
  {
    var before := Enqueue(jobs, wanted, priority, now);
    assert (i in before <==> i in jobs) && (i in jobs ==> before[i] == jobs[i]);
  }

  method CollectIntervals(candles: seq<Candle1m>, completedOnly: bool) returns (wanted: set<Interval>)
    ensures wanted == Wanted(candles, completedOnly)
  {
    hide IntervalStart, Completes, Wanted, OfTimeframes;
    wanted := {};
    WantedEmpty(completedOnly);
    for k := 0 to |candles|
      invariant wanted == Wanted(candles[..k], completedOnly)
    {
      var c := candles[k];
      var before := wanted;
      OfTimeframesEmpty(c, completedOnly);
      for j := 0 to |TIMEFRAMES|
        invariant wanted == before + OfTimeframes(c, TIMEFRAMES[..j], completedOnly)
      {
        var tf := TIMEFRAMES[j];
        OfTimeframesSnoc(c, TIMEFRAMES[..j], tf, completedOnly);
        assert TIMEFRAMES[..j + 1] == TIMEFRAMES[..j] + [tf];
        if !completedOnly || Completes(c, tf) {
          wanted := wanted + {IntervalOf(c, tf)};
        }
      }
      assert TIMEFRAMES[..|TIMEFRAMES|] == TIMEFRAMES;
      WantedSnoc(candles[..k], c, completedOnly);
      assert candles[..k + 1] == candles[..k] + [c];
    }
    assert candles[..|candles|] == candles;
  }

  lemma WantedEmpty(completedOnly: bool)
    ensures Wanted([], completedOnly) == {}
  {
  }

  lemma OfTimeframesEmpty(c: Candle1m, completedOnly: bool)
    ensures OfTimeframes(c, [], completedOnly) == {}
  {
  }

  lemma OfTimeframesSnoc(c: Candle1m, tfs: seq<Timeframe>, tf: Timeframe, completedOnly: bool)
    ensures OfTimeframes(c, tfs + [tf], completedOnly)
            == OfTimeframes(c, tfs, completedOnly) + if !completedOnly || Completes(c, tf) then {IntervalOf(c, tf)}
              else {}
  {
    hide IntervalStart, Completes;
  }

  /** The rows a drain cannot reach: claimed by a worker that is gone, and not yet stale. */
  function Stuck(jobs: map<Interval, JobRow>, cutoff: int): map<Interval, JobRow> {
    map i | i in jobs && jobs[i].state == Processing && !(jobs[i].updatedAt < cutoff) :: jobs[i]
  }

  /** Every pending job is available by this time. */
  ghost predicate AllDue(jobs: map<Interval, JobRow>, now: int) {
    forall i :: i in jobs && jobs[i].state == Pending ==> jobs[i].availableAt <= now
  }

  /** The rows in the middle of a drain: the claims still to do are intact, every other row is pending or stuck. */
  ghost predicate RowsLeft(t: Tables, rest: seq<Claim>, stuck: map<Interval, JobRow>, now: int) {
    && (forall k :: 0 <= k < |rest| ==> Matches(t, rest[k]))
    && AllDue(t.jobs, now)
    && (forall i :: i in t.jobs ==> i in stuck || t.jobs[i].state == Pending || i in Intervals(rest))
    && (forall i :: i in stuck ==>
          i in t.jobs && t.jobs[i] == stuck[i] && stuck[i].state == Processing && i !in Intervals(rest))
  }

  ghost predicate Draining(t: Tables, rest: seq<Claim>, stuck: map<Interval, JobRow>, now: int) {
    Invariant(System(t, if rest == [] then Idle else Busy(rest, None))) && RowsLeft(t, rest, stuck, now)
  }

  lemma DrainStarts(t: Tables, cutoff: int, now: int)
    requires Invariant(System(t, Idle)) && AllDue(t.jobs, now)
    ensures Draining(RecoverStale(t, cutoff, now), [], Stuck(t.jobs, cutoff), now)
  {
    hide Invariant;
    RecoverKeeps(System(t, Idle), cutoff, now);
  }

  lemma ClaimsKeepInvariant(t: Tables, claims: seq<Claim>, now: int)
    requires Invariant(System(t, Idle)) && Distinct(Intervals(claims)) && claims != []
    requires forall k :: 0 <= k < |claims| ==>
               Claimable(t, claims[k].interval, now) && claims[k] == ClaimOf(t, claims[k].interval, now)
    ensures Invariant(System(ClaimAll(t, ToSet(Intervals(claims)), now), Busy(claims, None)))
  {
    hide Invariant, ClaimAll;
    var picked := Intervals(claims);
    forall i | i in picked ensures Claimable(t, i, now) {
      var k :| 0 <= k < |picked| && picked[k] == i;
    }
    ClaimKeeps(System(t, Idle), picked, now);
    assert Next(System(t, Idle), ClaimJobs(picked, now)).worker == Busy(claims, None);
  }

  lemma ClaimedRows(t: Tables, claims: seq<Claim>, stuck: map<Interval, JobRow>, now: int)
    requires RowsLeft(t, [], stuck, now)
    requires forall k :: 0 <= k < |claims| ==>
               Claimable(t, claims[k].interval, now) && claims[k] == ClaimOf(t, claims[k].interval, now)
    requires claims == [] ==> forall i :: !Claimable(t, i, now)
    ensures var t' := ClaimAll(t, ToSet(Intervals(claims)), now);
            RowsLeft(t', claims, stuck, now) && |t'.jobs| == |t.jobs| && (claims == [] ==> t' == t && t.jobs == stuck)
  {
    var picked := Intervals(claims);
    var t' := ClaimAll(t, ToSet(picked), now);
    assert t'.jobs.Keys == t.jobs.Keys;
    assert |t'.jobs| == |t'.jobs.Keys| && |t.jobs| == |t.jobs.Keys|;
    if claims == [] {
      assert t'.jobs == t.jobs;
      forall i | i in t.jobs ensures i in stuck {
        assert !Claimable(t, i, now);
      }
    } else {
      forall k | 0 <= k < |claims| ensures Matches(t', claims[k]) {
        assert picked[k] in picked;
      }
    }
  }

  lemma DrainClaims(t: Tables, claims: seq<Claim>, stuck: map<Interval, JobRow>, now: int)
    requires Draining(t, [], stuck, now) && Distinct(Intervals(claims))
    requires forall k :: 0 <= k < |claims| ==>
               Claimable(t, claims[k].interval, now) && claims[k] == ClaimOf(t, claims[k].interval, now)
    requires claims == [] ==> forall i :: !Claimable(t, i, now)
    ensures var t' := ClaimAll(t, ToSet(Intervals(claims)), now);
            Draining(t', claims, stuck, now) && |t'.jobs| == |t.jobs| && (claims == [] ==> t'.jobs == stuck)
  {
    hide Invariant, RowsLeft, ClaimAll;
    ClaimedRows(t, claims, stuck, now);
    if claims != [] {
      ClaimsKeepInvariant(t, claims, now);
    }
  }

  lemma RestIntervals(rest: seq<Claim>)
    requires rest != []
    ensures Intervals(rest) == [rest[0].interval] + Intervals(rest[1..])
  {
  }

  /** Finishing the first claim removes its row and leaves every other row as it was. */
  lemma FinishRows(t: Tables, rest: seq<Claim>, result: Option<AggregatedCandle>)
    requires rest != [] && Matches(t, rest[0])
    ensures var t' := FinishJob(t, rest[0], result);
            && t'.jobs == t.jobs - {rest[0].interval}
            && t'.minutes == t.minutes && t'.checkpoints == t.checkpoints && |t'.jobs| == |t.jobs| - 1
  {
    var t' := FinishJob(t, rest[0], result);
    assert t'.jobs.Keys == t.jobs.Keys - {rest[0].interval};
    assert |t'.jobs.Keys| == |t.jobs.Keys| - 1;
  }

  lemma FinishInvariant(t: Tables, rest: seq<Claim>)
    requires rest != [] && Invariant(System(t, Busy(rest, None)))
    ensures var t' := FinishJob(t, rest[0], Recomputed(t.minutes, rest[0].interval));
            Invariant(System(t', if rest[1..] == [] then Idle else Busy(rest[1..], None)))
  {
    hide Honest, WellStored, Recomputed;
    var s := System(t, Busy(rest, None));
    LoadKeeps(s);
    FinishKeeps(Next(s, Load));
    var t' := FinishJob(t, rest[0], Recomputed(t.minutes, rest[0].interval));
    assert Next(Next(s, Load), Finish) == System(t', if rest[1..] == [] then Idle else Busy(rest[1..], None));
  }

  lemma FinishedRowGone(t: Tables, t': Tables, rest: seq<Claim>, stuck: map<Interval, JobRow>, now: int)
    requires rest != [] && RowsLeft(t, rest, stuck, now) && t'.jobs == t.jobs - {rest[0].interval}
    requires forall i, j :: 0 <= i < j < |rest| ==> rest[i].interval != rest[j].interval
    ensures RowsLeft(t', rest[1..], stuck, now)
  {
    RestIntervals(rest);
    forall k | 0 <= k < |rest[1..]| ensures Matches(t', rest[1..][k]) {
      assert rest[1..][k] == rest[k + 1] && Matches(t, rest[k + 1]);
    }
  }

  lemma DrainFinishes(t: Tables, rest: seq<Claim>, stuck: map<Interval, JobRow>, now: int)
    requires rest != [] && Draining(t, rest, stuck, now)
    ensures var t' := FinishJob(t, rest[0], Recomputed(t.minutes, rest[0].interval));
            && Draining(t', rest[1..], stuck, now) && |t'.jobs| == |t.jobs| - 1
            && t'.minutes == t.minutes && t'.checkpoints == t.checkpoints
  {
    hide Honest, WellStored, Recomputed, FinishJob, RowsLeft;
    FinishInvariant(t, rest);
    FirstMatches(t, rest, stuck, now);
    FinishRows(t, rest, Recomputed(t.minutes, rest[0].interval));
    FinishedRowGone(t, FinishJob(t, rest[0], Recomputed(t.minutes, rest[0].interval)), rest, stuck, now);
  }

  lemma FirstMatches(t: Tables, rest: seq<Claim>, stuck: map<Interval, JobRow>, now: int)
    requires rest != [] && RowsLeft(t, rest, stuck, now)
    ensures Matches(t, rest[0])
  {
  }

  /** An empty claim ends the drain: only stuck rows are left, and every interval without a row is exact. */
  lemma DrainEnds(t: Tables, stuck: map<Interval, JobRow>, now: int)
    requires Draining(t, [], stuck, now)
    ensures forall i | Aligned(i) && i !in t.jobs :: Cached(t, i) == Recomputed(t.minutes, i)
  {
  }

  /**
   * The worker from start to an empty claim, with nothing enqueued and no job failing meanwhile: it finishes every
   * job except those another claim left in processing that are not yet stale, and what it finished is exact.
   */
  method DrainQueue(db: Database, batch: nat, cutoff: int, now: int)
    requires batch >= 1 && Invariant(System(db.Contents(), Idle)) && AllDue(db.jobs, now)
    modifies db
    ensures db.minutes == old(db.minutes) && db.checkpoints == old(db.checkpoints)
    ensures db.jobs == Stuck(old(db.jobs), cutoff)
    ensures forall i | Aligned(i) && i !in db.jobs :: Cached(db.Contents(), i) == Recomputed(db.minutes, i)
  {
    hide Recomputed, ClaimAll, FinishJob, MarketStore.RecoverStale, Draining, Invariant, AllDue;
    ghost var stuck := Stuck(db.jobs, cutoff);
    DrainStarts(db.Contents(), cutoff, now);
    db.RecoverStale(cutoff, now);
    ghost var before := db.Contents();
    var claims := db.ClaimJobs(batch, now);
    DrainClaims(before, claims, stuck, now);
    while claims != []
      invariant db.minutes == old(db.minutes) && db.checkpoints == old(db.checkpoints)
      invariant Draining(db.Contents(), claims, stuck, now)
      invariant claims == [] ==> db.jobs == stuck
      decreases |db.jobs|
    {
      ghost var depth := |db.jobs|;
      var k := 0;
      while k < |claims|
        invariant 0 <= k <= |claims|
        invariant db.minutes == old(db.minutes) && db.checkpoints == old(db.checkpoints)
        invariant Draining(db.Contents(), claims[k..], stuck, now)
        invariant |db.jobs| == depth - k
      {
        assert claims[k..][0] == claims[k] && claims[k..][1..] == claims[k + 1..];
        DrainFinishes(db.Contents(), claims[k..], stuck, now);
        db.ProcessJob(claims[k], false, now);
        k := k + 1;
      }
      assert claims[k..] == [];
      before := db.Contents();
      claims := db.ClaimJobs(batch, now);
      DrainClaims(before, claims, stuck, now);
    }
    DrainEnds(db.Contents(), stuck, now);
  }

  function OfTimeframes(c: Candle1m, tfs: seq<Timeframe>, completedOnly: bool): set<Interval> {
    set tf | tf in tfs && (completedOnly ==> Completes(c, tf)) :: IntervalOf(c, tf)
  }

  lemma WantedSnoc(candles: seq<Candle1m>, c: Candle1m, completedOnly: bool)
    ensures Wanted(candles + [c], completedOnly) == Wanted(candles, completedOnly)
            + OfTimeframes(c, TIMEFRAMES, completedOnly)
  {
    hide IntervalStart, Completes;
    forall i ensures i in Wanted(candles + [c], completedOnly)
                     <==> i in Wanted(candles, completedOnly) || i in OfTimeframes(c, TIMEFRAMES, completedOnly) {
      if i in Wanted(candles + [c], completedOnly) {
        var x, tf :| x in candles + [c] && tf in TIMEFRAMES && (completedOnly ==> Completes(x, tf))
          && i == IntervalOf(x, tf);
        assert x in candles || x == c;
      }
      if i in Wanted(candles, completedOnly) {
        var x, tf :| x in candles && tf in TIMEFRAMES && (completedOnly ==> Completes(x, tf)) && i == IntervalOf(x, tf);
        assert x in candles + [c];
      }
      if i in OfTimeframes(c, TIMEFRAMES, completedOnly) {
        assert c in candles + [c];
      }
    }
  }

  function Intervals(claims: seq<Claim>): (r: seq<Interval>)
    ensures |r| == |claims| && forall k :: 0 <= k < |r| ==> r[k] == claims[k].interval
  {
    seq(|claims|, k requires 0 <= k < |claims| => claims[k].interval)
  }

  /** Lower priority number first, then the older interval. */
  predicate ComesFirst(rows: map<Interval, JobRow>, a: Interval, b: Interval) {
    a in rows && b in rows
    && (rows[a].priority < rows[b].priority || (rows[a].priority == rows[b].priority && a.start <= b.start))
  }

  method First(rows: map<Interval, JobRow>, open: set<Interval>) returns (best: Interval)
    requires open != {} && forall i :: i in open ==> i in rows
    ensures best in open && forall i :: i in open ==> ComesFirst(rows, best, i)
  {
    best :| best in open;
    var left := open - {best};
    while left != {}
      invariant best in open && left <= open
      invariant forall i :: i in open - left ==> ComesFirst(rows, best, i)
      decreases |left|
    {
      var i :| i in left;
      if !ComesFirst(rows, best, i) {
        assert ComesFirst(rows, i, best);
        forall j | j in open - left + {i} ensures ComesFirst(rows, i, j) {
          assert j == i || ComesFirst(rows, best, j);
        }
        best := i;
      }
      left := left - {i};
    }
  }
}
