/** The market-data tables: minutes, aggregates, aggregation jobs and stream checkpoints, one transaction a function. */
module MarketStore {
  import opened Wrappers
  import opened MarketModels
  import opened CandleAggregation

  datatype MinuteKey = MinuteKey(symbol: string, minute: int)

  datatype Interval = Interval(symbol: string, timeframe: Timeframe, start: int)

  datatype JobState = Pending | Processing

  /** Times of job rows are in microseconds. */
  datatype JobRow = JobRow(priority: int, state: JobState, attempts: nat, availableAt: int, updatedAt: int,
    failed: bool)

  const SECOND := 1_000_000

  datatype StreamState = Warming | Recovering | Ready | Degraded | Offline

  datatype Checkpoint = Checkpoint(state: StreamState, lastConfirmed: Option<int>)

  /** One stream, `kline_1m`; a job row is identified by its unique interval. */
  datatype Tables = Tables(
    minutes: map<MinuteKey, Candle1m>,
    aggregates: map<Interval, AggregatedCandle>,
    jobs: map<Interval, JobRow>,
    checkpoints: map<string, Checkpoint>)

  datatype LiveResult = LiveReady | LiveDuplicate | LiveGap

  datatype Claim = Claim(interval: Interval, claimedAt: int, attempts: nat)

  function KeyOf(c: Candle1m): MinuteKey {
    MinuteKey(c.symbol, c.openMinute)
  }

  function UpsertCandles(minutes: map<MinuteKey, Candle1m>, candles: seq<Candle1m>): map<MinuteKey, Candle1m>
    decreases |candles|
  {
    if candles == [] then minutes else UpsertCandles(minutes[KeyOf(candles[0]) := candles[0]], candles[1..])
  }

  const TIMEFRAMES := [M5, M15, H1, H4]

  function IntervalOf(c: Candle1m, tf: Timeframe): Interval {
    Interval(c.symbol, tf, IntervalStart(c.openMinute, tf))
  }

  /** The candle is the last minute of its interval. */
  predicate Completes(c: Candle1m, tf: Timeframe) {
    c.openMinute + 1 == IntervalEnd(IntervalStart(c.openMinute, tf), tf)
  }

  /** The intervals a list of candles asks to recompute. */
  function Wanted(candles: seq<Candle1m>, completedOnly: bool): set<Interval> {
    set c, tf | c in candles && tf in TIMEFRAMES && (completedOnly ==> Completes(c, tf)) :: IntervalOf(c, tf)
  }

  function EnqueuedRow(jobs: map<Interval, JobRow>, i: Interval, priority: int, now: int): JobRow {
    if i in jobs
    then JobRow(if jobs[i].priority < priority then jobs[i].priority else priority,
                Pending, jobs[i].attempts, now, now, false)
    else JobRow(priority, Pending, 0, now, now, false)
  }

  function Enqueue(jobs: map<Interval, JobRow>, wanted: set<Interval>, priority: int, now: int): map<Interval, JobRow> {
    map i | i in jobs.Keys + wanted :: if i in wanted then EnqueuedRow(jobs, i, priority, now) else jobs[i]
  }

  function UpsertCheckpoint(checkpoints: map<string, Checkpoint>, symbol: string, state: StreamState,
                            confirmed: Option<int>, preserve: bool): map<string, Checkpoint> {
    if symbol !in checkpoints then checkpoints[symbol := Checkpoint(state, confirmed)]
    else
      var known := checkpoints[symbol].lastConfirmed;
      checkpoints[symbol := Checkpoint(state,
        if preserve || confirmed.None? then known
        else if known.None? then confirmed
        else Some(if known.value < confirmed.value then confirmed.value else known.value))]
  }

  // ---------- transactions of the market-data repository ----------

  function SaveBatch(t: Tables, symbol: string, candles: seq<Candle1m>, now: int): Tables {
    if candles == [] then t
    else Tables(
      UpsertCandles(t.minutes, candles), t.aggregates, Enqueue(t.jobs, Wanted(candles, false), 100, now),
      UpsertCheckpoint(t.checkpoints, symbol, Recovering, Some(candles[|candles| - 1].openMinute), false))
  }

  function IngestLiveCandle(t: Tables, c: Candle1m, now: int): (Tables, LiveResult) {
    var confirmed := if c.symbol in t.checkpoints then t.checkpoints[c.symbol].lastConfirmed else None;
    var t1 := t.(minutes := UpsertCandles(t.minutes, [c]), jobs := Enqueue(t.jobs, Wanted([c], true), 0, now));
    if confirmed.None? then
      (t1.(checkpoints := UpsertCheckpoint(t.checkpoints, c.symbol, Degraded, None, true)), LiveGap)
    else if c.openMinute <= confirmed.value then (t1, LiveDuplicate)
    else if c.openMinute == confirmed.value + 1 then
      (t1.(checkpoints := UpsertCheckpoint(t.checkpoints, c.symbol, Ready, Some(c.openMinute), false)), LiveReady)
    else
      (t1.(checkpoints := UpsertCheckpoint(t.checkpoints, c.symbol, Degraded, None, true)), LiveGap)
  }

  function RepairCandles(t: Tables, candles: seq<Candle1m>, now: int): Tables {
    if candles == [] then t
    else t.(minutes := UpsertCandles(t.minutes, candles), jobs := Enqueue(t.jobs, Wanted(candles, false), 10, now))
  }

  /** `mark_stream_state`, `start_gap` and `fail_gap` all only touch the state of the checkpoint. */
  function MarkState(t: Tables, symbol: string, state: StreamState): Tables {
    t.(checkpoints := UpsertCheckpoint(t.checkpoints, symbol, state, None, true))
  }

  function CompleteGap(t: Tables, symbol: string, confirmed: int): Tables {
    t.(checkpoints := UpsertCheckpoint(t.checkpoints, symbol, Ready, Some(confirmed), false))
  }

  // ---------- transactions of the aggregation repository ----------

  predicate Claimable(t: Tables, i: Interval, now: int) {
    i in t.jobs && t.jobs[i].state == Pending && t.jobs[i].availableAt <= now
  }

  function ClaimedRow(row: JobRow, now: int): JobRow {
    row.(state := Processing, attempts := row.attempts + 1, updatedAt := now)
  }

  function ClaimAll(t: Tables, picked: set<Interval>, now: int): Tables {
    t.(jobs := map i | i in t.jobs :: if i in picked then ClaimedRow(t.jobs[i], now) else t.jobs[i])
  }

  /** The stored minutes of an interval, in time order. */
  function SourceRows(minutes: map<MinuteKey, Candle1m>, symbol: string, since: int, until: int): seq<Candle1m>
    decreases until - since
  {
    if since >= until then []
    else (if MinuteKey(symbol, since) in minutes then [minutes[MinuteKey(symbol, since)]] else [])
         + SourceRows(minutes, symbol, since + 1, until)
  }

  /** What the aggregate of an interval should be, from the minutes stored now. */
  function Recomputed(minutes: map<MinuteKey, Candle1m>, i: Interval): Option<AggregatedCandle> {
    AggregateCandles(SourceRows(minutes, i.symbol, i.start, IntervalEnd(i.start, i.timeframe)), i.timeframe,
      Some(i.start))
  }

  function Cached(t: Tables, i: Interval): Option<AggregatedCandle> {
    if i in t.aggregates then Some(t.aggregates[i]) else None
  }

  /** The job row is still the one the claim saw: a later enqueue or recovery has not touched it. */
  predicate Matches(t: Tables, claim: Claim) {
    claim.interval in t.jobs && t.jobs[claim.interval].state == Processing
    && t.jobs[claim.interval].updatedAt == claim.claimedAt
  }

  function FinishJob(t: Tables, claim: Claim, result: Option<AggregatedCandle>): Tables {
    var aggregates := match result
      case None => t.aggregates - {claim.interval}
      case Some(r) => t.aggregates[Interval(r.symbol, r.timeframe, r.openMinute) := r];
    t.(aggregates := aggregates, jobs := if Matches(t, claim) then t.jobs - {claim.interval} else t.jobs)
  }

  function FailJob(t: Tables, claim: Claim, now: int, delay: int): Tables {
    if Matches(t, claim)
    then
      var row := t.jobs[claim.interval];
      t.(jobs := t.jobs[claim.interval := row.(state := Pending, availableAt := now + delay, updatedAt := now,
        failed := true)])
    else t
  }

  function RecoverStale(t: Tables, cutoff: int, now: int): Tables {
    t.(jobs := map i | i in t.jobs ::
                 if t.jobs[i].state == Processing && t.jobs[i].updatedAt < cutoff
                 then t.jobs[i].(state := Pending, availableAt := now, updatedAt := now)
                 else t.jobs[i])
  }

  /** `seed_next_batch` enqueues the intervals of rows that are already stored. */
  function SeedBatch(t: Tables, rows: seq<Candle1m>, now: int): Tables {
    t.(jobs := Enqueue(t.jobs, Wanted(rows, false), 100, now))
  }
}
