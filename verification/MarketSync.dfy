/** Backfill and the market-data checkpoint: what the checkpoint confirms is stored, and it never goes back. */
module MarketSync {
  import opened Wrappers
  import opened MarketModels
  import opened MarketStore
  import opened CandleCache
  import opened MarketDatabase

  function Confirmed(t: Tables, symbol: string): Option<int> {
    if symbol in t.checkpoints then t.checkpoints[symbol].lastConfirmed else None
  }

  /** Every minute from `base` up to the confirmed one is stored. */
  ghost predicate Covered(t: Tables, symbol: string, base: int) {
    Confirmed(t, symbol).Some? ==>
      forall m :: base <= m <= Confirmed(t, symbol).value ==> MinuteKey(symbol, m) in t.minutes
  }

  predicate NotBefore(a: Option<int>, b: Option<int>) {
    b.Some? ==> a.Some? && b.value <= a.value
  }

  /** One candle of the symbol for every minute from `start` on. */
  predicate MinutesFrom(candles: seq<Candle1m>, symbol: string, start: int) {
    forall k :: 0 <= k < |candles| ==> candles[k].symbol == symbol && candles[k].openMinute == start + k
  }

  /** A batch starts at most one minute past the checkpoint, or is the first one and sets the base. */
  predicate Follows(t: Tables, symbol: string, base: int, start: int) {
    match Confirmed(t, symbol)
    case None => start == base
    case Some(c) => start <= c + 1
  }

  /** What the backfill service and the stream may do to a symbol's rows. */
  predicate SyncStep(t: Tables, symbol: string, base: int, step: Step) {
    match step
    case Save(name, candles, _) =>
      name == symbol ==>
        candles != [] && MinutesFrom(candles, symbol, candles[0].openMinute)
        && Follows(t, symbol, base, candles[0].openMinute)
    case Complete(name, confirmed) => name == symbol ==> NotBefore(Confirmed(t, symbol), Some(confirmed))
    case Mark(_, _) => true
    case Live(_, _) => true
    case Repair(_, _) => true
    case _ => false
  }

  function Apply(t: Tables, step: Step): Tables {
    match step
    case Save(symbol, candles, now) => SaveBatch(t, symbol, candles, now)
    case Repair(candles, now) => RepairCandles(t, candles, now)
    case Live(candle, now) => IngestLiveCandle(t, candle, now).0
    case Mark(symbol, state) => MarkState(t, symbol, state)
    case Complete(symbol, confirmed) => CompleteGap(t, symbol, confirmed)
    case _ => t
  }

  lemma {:induction false} UpsertStores(minutes: map<MinuteKey, Candle1m>, candles: seq<Candle1m>)
    ensures forall k :: k in minutes ==> k in UpsertCandles(minutes, candles)
    ensures forall j :: 0 <= j < |candles| ==> KeyOf(candles[j]) in UpsertCandles(minutes, candles)
    decreases |candles|
  {
    if candles != [] {
      UpsertStores(minutes[KeyOf(candles[0]) := candles[0]], candles[1..]);
      forall j | 0 <= j < |candles| ensures KeyOf(candles[j]) in UpsertCandles(minutes, candles) {
        if j > 0 { assert candles[1..][j - 1] == candles[j]; }
      }
    }
  }

  lemma CheckpointAdvances(checkpoints: map<string, Checkpoint>, name: string, state: StreamState,
                           confirmed: Option<int>, preserve: bool,
                           t: Tables, symbol: string)
    requires t.checkpoints == checkpoints && (preserve ==> confirmed.None?)
    ensures var after := t.(checkpoints := UpsertCheckpoint(checkpoints, name, state, confirmed, preserve));
            && NotBefore(Confirmed(after, symbol), Confirmed(t, symbol))
            && (name != symbol ==> Confirmed(after, symbol) == Confirmed(t, symbol))
            && (name == symbol ==>
                  Confirmed(after, symbol) ==
                  if confirmed.None? then Confirmed(t, symbol)
                  else if NotBefore(Confirmed(t, symbol), confirmed) then Confirmed(t, symbol) else confirmed)
  {
  }

  lemma SaveCovers(t: Tables, symbol: string, base: int, candles: seq<Candle1m>, now: int)
    requires Covered(t, symbol, base) && candles != []
    requires MinutesFrom(candles, symbol, candles[0].openMinute) && Follows(t, symbol, base, candles[0].openMinute)
    ensures var after := SaveBatch(t, symbol, candles, now);
            && Covered(after, symbol, base)
            && NotBefore(Confirmed(after, symbol), Confirmed(t, symbol))
            && NotBefore(Confirmed(after, symbol), Some(candles[|candles| - 1].openMinute))
  {
    hide UpsertCandles, Enqueue, Wanted;
    UpsertStores(t.minutes, candles);
    var after, start := SaveBatch(t, symbol, candles, now), candles[0].openMinute;
    CheckpointAdvances(t.checkpoints, symbol, Recovering, Some(candles[|candles| - 1].openMinute), false, t, symbol);
    forall m | base <= m <= Confirmed(after, symbol).value ensures MinuteKey(symbol, m) in after.minutes {
      if start <= m <= candles[|candles| - 1].openMinute {
        assert KeyOf(candles[m - start]) == MinuteKey(symbol, m);
      }
    }
  }

  lemma LiveCovers(t: Tables, symbol: string, base: int, c: Candle1m, now: int)
    requires Covered(t, symbol, base)
    ensures var after := IngestLiveCandle(t, c, now).0;
            Covered(after, symbol, base) && NotBefore(Confirmed(after, symbol), Confirmed(t, symbol))
  {
    hide UpsertCandles, Enqueue, Wanted;
    UpsertStores(t.minutes, [c]);
    assert KeyOf([c][0]) == KeyOf(c);
  }

  /**
   * Across every save, failed or completed sync, live candle and state change the checkpoint never decreases and
   * every minute from the first backfilled one up to it is stored.
   */
  lemma StepKeepsCoverage(t: Tables, symbol: string, base: int, step: Step)
    requires Covered(t, symbol, base) && SyncStep(t, symbol, base, step)
    ensures var after := Apply(t, step);
            Covered(after, symbol, base) && NotBefore(Confirmed(after, symbol), Confirmed(t, symbol))
  {
    hide UpsertCandles, Enqueue, Wanted;
    match step {
      case Save(name, candles, now) =>
        if name == symbol {
          SaveCovers(t, symbol, base, candles, now);
        } else {
          UpsertStores(t.minutes, candles);
        }
      case Repair(candles, now) => UpsertStores(t.minutes, candles);
      case Live(candle, now) => LiveCovers(t, symbol, base, candle, now);
      case Mark(name, state) => CheckpointAdvances(t.checkpoints, name, state, None, true, t, symbol);
      case Complete(name, confirmed) => CheckpointAdvances(t.checkpoints, name, Ready, Some(confirmed), false, t,
        symbol);
      case _ =>
    }
  }

  ghost predicate SyncRun(t: Tables, symbol: string, base: int, steps: seq<Step>)
    decreases |steps|
  {
    steps == [] || (SyncStep(t, symbol, base, steps[0]) && SyncRun(Apply(t, steps[0]), symbol, base, steps[1..]))
  }

  function ApplyAll(t: Tables, steps: seq<Step>): Tables
    decreases |steps|
  {
    if steps == [] then t else ApplyAll(Apply(t, steps[0]), steps[1..])
  }

  lemma {:induction false} RunKeepsCoverage(t: Tables, symbol: string, base: int, steps: seq<Step>)
    requires Covered(t, symbol, base) && SyncRun(t, symbol, base, steps)
    ensures Covered(ApplyAll(t, steps), symbol, base)
    ensures NotBefore(Confirmed(ApplyAll(t, steps), symbol), Confirmed(t, symbol))
    decreases |steps|
  {
    hide Covered, Apply, SyncStep;
    if steps != [] {
      StepKeepsCoverage(t, symbol, base, steps[0]);
      RunKeepsCoverage(Apply(t, steps[0]), symbol, base, steps[1..]);
    }
  }

  // ---------- the reconciled window the lifecycle service reads ----------

  function LoadReconciledWindow(t: Tables, symbol: string, start: int, end: int): seq<Candle1m> {
    if end < start || symbol !in t.checkpoints || t.checkpoints[symbol].state != Ready
       || t.checkpoints[symbol].lastConfirmed.None? || t.checkpoints[symbol].lastConfirmed.value < end then []
    else
      var rows := SourceRows(t.minutes, symbol, start, end + 1);
      if |rows| != end - start + 1 || !(forall k :: 0 <= k < |rows| ==> rows[k].openMinute == start + k) then []
        else rows
  }

  lemma {:induction false} StoredRows(minutes: map<MinuteKey, Candle1m>, symbol: string, first: int, end: int)
    requires first <= end && forall k :: k in minutes ==> KeyOf(minutes[k]) == k
    requires forall m :: first <= m < end ==> MinuteKey(symbol, m) in minutes
    ensures |SourceRows(minutes, symbol, first, end)| == end - first
    ensures MinutesFrom(SourceRows(minutes, symbol, first, end), symbol, first)
    decreases end - first
  {
    if first < end {
      StoredRows(minutes, symbol, first + 1, end);
      var rest := SourceRows(minutes, symbol, first + 1, end);
      var rows := SourceRows(minutes, symbol, first, end);
      assert rows == [minutes[MinuteKey(symbol, first)]] + rest;
    }
  }

  /**
   * The window is either empty or complete; it is complete whenever the stream is ready, its end is confirmed and its
   * start is not before the first backfilled minute.
   */
  lemma WindowIsComplete(t: Tables, symbol: string, base: int, start: int, end: int)
    requires WellStored(t) && Covered(t, symbol, base)
    ensures var rows := LoadReconciledWindow(t, symbol, start, end);
            rows == [] || (|rows| == end - start + 1 && MinutesFrom(rows, symbol, start))
    ensures (base <= start <= end && symbol in t.checkpoints && t.checkpoints[symbol].state == Ready
             && NotBefore(Confirmed(t, symbol), Some(end))) ==> LoadReconciledWindow(t, symbol, start, end) != []
  {
    RowsAreStored(t.minutes, symbol, start, end + 1);
    var rows := SourceRows(t.minutes, symbol, start, end + 1);
    assert forall k :: 0 <= k < |rows| ==> rows[k] in rows;
    if base <= start <= end && NotBefore(Confirmed(t, symbol), Some(end)) {
      StoredRows(t.minutes, symbol, start, end + 1);
    }
  }

  // ---------- the backfill of one target ----------

  datatype SyncResult = SyncReady | SyncRecovered | SyncFailed

  /** `_start_time`: after the checkpoint, or the later of the history start and the launch minute. */
  function StartTime(checkpoint: Option<int>, lastClosed: int, historyMinutes: nat, launch: int): int {
    match checkpoint
    case Some(c) => c + 1
    case None =>
      var history := lastClosed - (historyMinutes - 1);
      if history < launch then launch else history
  }

  /** What the exchange answers for a range: an error, or candles of the asked symbol. */
  type Provider = (int, int) -> Option<seq<Candle1m>>

  /**
   * `_sync_target`: fetch, validate and save batch by batch. On success the checkpoint is at or past the last closed
   * minute; on failure everything saved so far stays confirmed; in every case it never decreases and stays covered.
   */
  method SyncTarget(db: Database, symbol: string, checkpoint: Option<int>, lastClosed: int, historyMinutes: nat,
                    launch: int,
                    batch: nat, fetch: Provider, now: int, ghost base: int) returns (r: SyncResult)
    requires batch >= 1 && Confirmed(db.Contents(), symbol) == checkpoint
    requires forall a, b :: fetch(a, b).Some? ==> forall c :: c in fetch(a, b).value ==> c.symbol == symbol
    requires Covered(db.Contents(), symbol, base)
    requires checkpoint.None? ==> base == StartTime(checkpoint, lastClosed, historyMinutes, launch)
    modifies db
    ensures Covered(db.Contents(), symbol, base)
    ensures NotBefore(Confirmed(db.Contents(), symbol), checkpoint)
    ensures r == SyncRecovered ==> NotBefore(Confirmed(db.Contents(), symbol), Some(lastClosed))
    ensures r != SyncFailed && Confirmed(db.Contents(), symbol).Some? ==> db.checkpoints[symbol].state == Ready
    ensures r == SyncReady <==> StartTime(checkpoint, lastClosed, historyMinutes, launch) > lastClosed
  {
    hide SaveBatch, UpsertCandles, Enqueue, Wanted;
    var start := StartTime(checkpoint, lastClosed, historyMinutes, launch);
    if start > lastClosed {
      if checkpoint.Some? {
        db.CompleteGap(symbol, checkpoint.value);
      }
      return SyncReady;
    }
    if checkpoint.None? || start < lastClosed {
      db.MarkState(symbol, Recovering);
    }
    var cursor := start;
    while cursor <= lastClosed
      invariant start <= cursor
      invariant Covered(db.Contents(), symbol, base)
      invariant NotBefore(Confirmed(db.Contents(), symbol), checkpoint)
      invariant (cursor == start && Confirmed(db.Contents(), symbol) == checkpoint)
                || NotBefore(Confirmed(db.Contents(), symbol), Some(cursor - 1))
      decreases lastClosed - cursor
    {
      var batchEnd := if cursor + (batch - 1) < lastClosed then cursor + (batch - 1) else lastClosed;
      var answer := fetch(cursor, batchEnd);
      if answer.None? || |answer.value| != batchEnd - cursor + 1
         || !(forall k :: 0 <= k < |answer.value| ==> answer.value[k].openMinute == cursor + k)
      {
        db.MarkState(symbol, Degraded);
        return SyncFailed;
      }
      var candles := answer.value;
      assert MinutesFrom(candles, symbol, cursor) by {
        assert forall k :: 0 <= k < |candles| ==> candles[k] in candles;
      }
      SaveCovers(db.Contents(), symbol, base, candles, now);
      db.SaveBatch(symbol, candles, now);
      cursor := batchEnd + 1;
    }
    db.CompleteGap(symbol, lastClosed);
    r := SyncRecovered;
  }
}
