# Crypto SMC signals: a verified model

This project models the decision-making core of a signal service: how it analyses candles, plans and publishes trades,
tracks them trade by trade, repairs what it missed, keeps its candle tables and notification outbox straight, and
replays history. Prices and amounts are exact reals. Trade times are microseconds; candle times are whole minutes.
Every database transaction is one atomic step on tables kept as maps and sequences.

## How it is organised

**Signal lifecycle.** `Lifecycle` is the trade-by-trade machine and its PnL formulas, `Fallback` the one-candle
abstraction used when ordered trades are lost. `FallbackConservative` and `FallbackExact` relate the two over every tape
a candle can stand for. `Ledger` and `Funding` check the money fields against fills and exposure. `Coverage` and
`Resume` treat the proof that no trade was missed and restarting from a checkpoint. `StateMachine`, `SignalPolicy`,
`SignalStore`, `SignalTracking` and `Portfolio` are the tables, the publication policy and whole histories of both.
`TrackedSignals` loads the rows to track, `SignalService` is the service object with its cache of them, and `SignalRuns`
follows it over whole runs, from publication, across lost connections and restarts; `WhipsawRun` is one such run.

**Market data.** `CandleAggregation` and `AggregationTower` build candles from minutes. `MarketStore` holds the tables,
`CandleCache` the invariant that makes the aggregate table a cache, `MarketDatabase` the repositories as one object with
the worker's loop, `MarketSync` the backfill and its checkpoint.

**Analysis.** `SmcModels`, `SmcStatistics`, `Swings`, `Structure`, `StructureTrace`, `Liquidity`, `Displacements`,
`Imbalances`, `OrderBlocks` and `Ranges` are the detectors; `Analysis` composes them and proves that nothing looks ahead.

**Planning and replay.** `TradePlans` and `Evaluator` size and judge a candidate. `ReplayLifecycle`, `ReplayAggregation`,
`ReplayRunner`, `ReplayLoop`, `ReplayCausality` and `Reporting` are the replay; `ReplayMatchesLive` compares its
accounting with the live machine.

**Notifications.** `NotificationStore`, `NotificationService` and `NotificationProtocol` are the outbox, one pass over it
and the crash-prone protocol of its workers.

`Witnesses` holds a concrete input for every exception the theorems name. `Wrappers`, `Sequences` and `MarketModels` are
shared vocabulary.

Loops and objects that change state are methods and classes proved against functions on values; the theorems are about
those functions and about runs of any length.

## Where the code and its documentation differ

The model follows the code.

- `docs/signals.md:75` calls the candle fallback deliberately conservative. It is, except in three situations, which
  `FallbackConservative.FallbackConservativeIff` names exactly: TP2 credited from `entered` although breakeven was also
  in reach (`signals/fallback.py:97` looks at the old stop only), an entry booked although a TP1 worth less than the
  entry fee was in reach, and an expiry booked for a candle that spans it (`signals/fallback.py:23`).
- `docs/signals.md:64` asks that REST history reach the anchor. A history whose first trade carries the anchor's own
  time passes, yet an earlier trade at that time may be missing; `Coverage.CoverageCompleteIff` gives the exact condition.
- `docs/signals.md:72-73` lets a restart resume from the last processed trade. That is safe exactly when the trades seen
  again are harmless to the stored signal (`Resume.ResumeIff`, `SignalRuns.RestartedServiceCatchesUp`). The service's own
  checkpoints do not ensure it: TP1 taken within the checkpoint interval, or by candle recovery, leaves the mark behind,
  and the next proven merge can book a stop at breakeven that never happened (`SignalRuns.ReconnectStopsAtBreakeven`,
  `SignalRuns.RecoveryLeavesMarkBehind`).
- `docs/replay.md:72-73` presents the replay resolver as the canonical form of the live fallback. Their money differs
  exactly on a candle ambiguous after TP1 (a full stop in the replay, breakeven live), their steps exactly on the waiting
  candles `ReplayMatchesLive.SameStepIff` names.
- Live candles enqueue only the intervals they complete. The aggregate table then stays exact for minutes newer than all
  stored ones; `CandleCache.LiveHonestIff` is the condition for any other minute.
- Replay dates an expiry at the expiry time and an invalidation at the open of its candle, before either can be known.
  What is dated by T is final at T for every fill, for an invalidation once its candle has closed, and for an expiry once
  a row opens at or after it; `ReplayCausality.OutcomeCausal` says so in both directions.

## Model

| member | source | states |
|---|---|---|
| `Lifecycle.StepKeepsBooks` | src/crypto_smc/signals/lifecycle.py:43-146 | after any one public trade the realised PnL, fees and open quantity are again the values the status alone determines, and the state stays well-formed |
| `Lifecycle.RunKeepsBooks` | src/crypto_smc/signals/lifecycle.py:43-188 | the same over every finite tape of trades |
| `FallbackConservative.StatusValues` | src/crypto_smc/signals/lifecycle.py:149-188 | for every well-formed signal a full stop is the worst booked result and TP2 the best; the entry fee alone lies above a stop, and only TP1 may lie below the entry fee |
| `FallbackConservative.RunFollowsStatus` | src/crypto_smc/signals/lifecycle.py:43-122 | the status after a whole tape, and the money it implies, follow a status-only fold of the same tape |
| `FallbackConservative.CandleBooks` | src/crypto_smc/signals/fallback.py:15-144 | one closed candle books the PnL of the status its touched levels determine and either moves to that status or is labelled ambiguous |
| `FallbackConservative.WorseTape` | src/crypto_smc/signals/fallback.py:23-97 | for every candle in one of the three overcrediting situations there is an ordered tape inside its range, printing both extremes, that ends with strictly less realised PnL |
| `FallbackConservative.FallbackConservativeIff` | src/crypto_smc/signals/fallback.py:15-144 | the fallback's realised PnL is a lower bound on that of every ordered tape the candle can stand for if and only if none of the three overcrediting situations holds (TP2 from `entered` with breakeven in reach, entry with a losing TP1 in reach, expiry inside the candle with an entry in reach) |
| `Witnesses.Tp2Overcredited` | src/crypto_smc/signals/fallback.py:97-101 | a signal, a candle and an ordering of its trades that show the first situation: TP2 is booked, the trades stop at breakeven and earn less |
| `Witnesses.LosingTp1Overcredited` | src/crypto_smc/signals/fallback.py:56-59 | the same for an entry followed by a TP1 that costs more than the entry fee |
| `Witnesses.ExpiryOvercredited` | src/crypto_smc/signals/fallback.py:22-24 | the same for an expiry inside the candle with an entry before it |
| `FallbackExact.CandleLabel` | src/crypto_smc/signals/fallback.py:30-143 | a candle is labelled ambiguous exactly when the stop and the entry or a target are both touched, and otherwise reaches the status of the touched levels |
| `FallbackExact.CandleExactIff` | src/crypto_smc/signals/fallback.py:15-144 | one candle ends with the status, stop, PnL, fees and open quantity of every ordered tape inside it if and only if it can trigger at most one level |
| `FallbackExact.CandleRunRefinesTradeRun` | src/crypto_smc/signals/fallback.py:15-144 | over any run of such candles the candle fold and the trade fold end with equal status, stop, PnL, fees and open quantity, for every ordering of the trades inside each candle |
| `Ledger.FillsReconcile` | src/crypto_smc/signals/lifecycle.py:43-188 | the fills an action stands for carry the double-entry account of the old status to that of the new one |
| `Ledger.BooksEqualLedger` | src/crypto_smc/signals/lifecycle.py:125-188 | over every mix of trades and candles the overwritten PnL, fees and open quantity equal an incremental ledger of entry, TP1 and final fills; a finished signal holds nothing |
| `Funding.FundingIsExposure` | src/crypto_smc/signals/funding.py:8-49 | the two-segment funding estimate equals the funding rate times the open quantity summed over the holding time, whatever the order of the recorded times, and is zero without an entry or an interval |
| `Coverage.MergedIsSlice` | src/crypto_smc/signals/coverage.py:14-45 | if both inputs are windows of one strictly ordered log with unique ids, a proven merge is exactly a contiguous slice of that log, in log order without repeats, up to the later window end |
| `Coverage.CoverageCompleteIff` | src/crypto_smc/signals/coverage.py:27-44 | a proven merge misses no trade since the anchor, for every log it can come from, if and only if a window starts strictly before the anchor |
| `Witnesses.FirstTradeMissed` | src/crypto_smc/signals/coverage.py:27-44 | a log and two windows whose merge is proven at an anchor although the first trade of the anchor's time is missing |
| `Resume.ReapplyIsNoOpIff` | src/crypto_smc/signals/service.py:229-259 | evaluating the trade just applied once more changes nothing exactly when that trade did not take TP1 while lying beyond the breakeven stop it installs |
| `Resume.NeverRebounds` | src/crypto_smc/signals/lifecycle.py:125-146 | no trade is of that kind when breakeven lies before TP1 |
| `Resume.RepeatIsNoOpIff` | src/crypto_smc/signals/service.py:222-227 | any list of trades leaves a position exactly as it was if and only if each is harmless to it: an active signal neither expires, nor is the trade beyond the stop or in the zone; an entered one sees neither its stop nor a target; after TP1 neither breakeven nor TP2 |
| `Resume.ResumeIff` | src/crypto_smc/signals/service.py:172-227 | a restart from an older trade ends every continuation of the log where the uninterrupted run ends it if and only if all repeated trades are harmless to the stored position |
| `Resume.ResumeEqualsUninterrupted` | src/crypto_smc/signals/service.py:172-227 | replaying the log from any earlier point on the stored position ends in the position of the uninterrupted run when every repeated trade is harmless |
| `Resume.ResumeInsideTrade` | src/crypto_smc/signals/service.py:239-255 | the same after a crash between the TP1 and the TP2 transaction of one trade: seeing it again books what is missing |
| `Resume.SettledIsHarmless` | src/crypto_smc/signals/service.py:256-259 | a checkpoint at or after the last transition, and first at its timestamp, leaves only harmless trades to repeat |
| `Resume.RestartWithProvenCoverage` | src/crypto_smc/signals/service.py:172-227 | a proven merge from an anchor before the crash is the log from the anchor on; replaying it meets the uninterrupted run when the repeated trades are harmless, and for every continuation only then |
| `Resume.OldCheckpointDiverges` | src/crypto_smc/signals/service.py:222-227 | for every pair of trades between stop and breakeven and then at TP1, a replay from before TP1 ends in a breakeven stop the uninterrupted run never took |
| `StateMachine.TablesAgree` | src/crypto_smc/signals/state_machine.py:1-72 | every step of the signal table lowers a rank, is mirrored by an allowed step of the trade table, and exactly the terminal statuses and `suppressed` have no step |
| `SignalPolicy.PrunedDecision` | src/crypto_smc/signals/policy.py:24-58 | the observations the database still loads always give the decision of the full history |
| `SignalPolicy.DecisionKeepsLimits` | src/crypto_smc/signals/policy.py:24-58 | whatever is decided at a publication time not before earlier ones keeps one active signal per symbol, the active maximum, every rolling hour, every burst window and every cooldown |
| `SignalPolicy.MoveKeepsLimits` | src/crypto_smc/db/repositories/signals.py:320-436 | no status change of a published signal breaks any of these limits |
| `SignalStore.SignalRepository.Apply` | src/crypto_smc/db/repositories/signals.py:320-436 | the transaction assigns signal, trade, event and outbox rows step by step and leaves exactly the tables and result of the transition function; a refusal leaves them untouched |
| `SignalStore.SignalRepository.PublishCandidates` | src/crypto_smc/db/repositories/signals.py:112-209 | the growing observation list decides each accepted candidate in turn as the publication function does; every candidate adds one signal row and only allowed ones a trade |
| `SignalStore.SignalRepository.Checkpoint` | src/crypto_smc/db/repositories/signals.py:438-467 | the stored trade mark only moves forward in (time, sequence, id) order and nothing else changes |
| `SignalStore.SignalRepository.Record` | src/crypto_smc/db/repositories/signals.py:469-502 | a tracking event is appended once per key and never as a status change; a known key is reported, an unknown signal is an error |
| `SignalStore.TradeNeverRefuses` | src/crypto_smc/db/repositories/signals.py:592-608 | in lock-step tables the virtual trade never refuses what the signal table accepts |
| `SignalStore.RepeatedKeyIsNoOp` | src/crypto_smc/db/repositories/signals.py:340-362 | repeating an idempotency key after any transition that returned normally changes no table and reports that it was not applied |
| `SignalStore.ApplyKeepsConsistent` | src/crypto_smc/db/repositories/signals.py:320-436 | every transition, applied or not, keeps statuses paired, keys unique, each signal within four status changes and one outbox row per status change |
| `SignalStore.TerminalAbsorbs` | src/crypto_smc/signals/state_machine.py:60-72 | no transition changes any table for a terminal signal |
| `SignalTracking.EmittedActionsChain` | src/crypto_smc/signals/lifecycle.py:43-122 | for every trade or candle the emitted actions are at most two and a legal path through the signal table |
| `SignalTracking.EventProcesses` | src/crypto_smc/signals/service.py:229-259 | processing one trade or candle through the tables never fails, moves the stored position exactly as the pure machine does and moves no other signal |
| `SignalTracking.StoredMoneyEqualsLedger` | src/crypto_smc/signals/service.py:344-389 | after any run the stored fees, the stored PnL plus stored funding and the stored open quantity of a freshly activated signal equal its fill ledger |
| `SignalRuns.ActivatedIsFresh` | src/crypto_smc/db/repositories/signals.py:505-576 | a published candidate is loaded as stored, and activating it leaves an active, well-formed signal with nothing booked and the whole quantity open |
| `SignalRuns.PublishedMoneyEqualsLedger` | src/crypto_smc/signals/service.py:211-259 | from a plan the strategy accepts, through publication and activation, the stored money equals the fill ledger after any run of trades and candles |
| `Portfolio.EveryHistoryIsSound` | src/crypto_smc/db/repositories/signals.py:112-209 | over every history of publications, transitions and tracking events all portfolio limits hold, tables move in lock step, each signal changes status at most four times and each status change has exactly one outbox row |
| `TrackedSignals.LoadedCacheMirrors` | src/crypto_smc/signals/service.py:115-123 | the loaded rows, the last one for each symbol, mirror the tables: state, quantity and mark as stored, every signal open |
| `TrackedSignals.LoadedSymbols` | src/crypto_smc/db/repositories/signals.py:225-269 | a symbol is loaded exactly when it has an open signal |
| `TrackedSignals.OpenSignalIsLoaded` | src/crypto_smc/signals/service.py:477-483 | with one open signal to a symbol, loading and refreshing both find that signal's row |
| `TrackedSignals.PublicationKeepsMirrors` | src/crypto_smc/db/repositories/signals.py:112-209 | publishing beside a running service leaves every open row trackable and the cache a mirror |
| `SignalService.SignalLifecycleService.Load` | src/crypto_smc/signals/service.py:115-123 | the cache holds exactly the loaded rows, and symbols that lost their signal are forgotten everywhere |
| `SignalService.SignalLifecycleService.Visit` | src/crypto_smc/signals/service.py:125-154 | one loaded signal expires, is subscribed and waits for coverage, has its coverage established, or is left alone, and no other signal or symbol changes |
| `SignalService.SignalLifecycleService.Reconcile` | src/crypto_smc/signals/service.py:115-154 | every loaded signal is visited once, on its own rows and its symbol's part of the cache as they were loaded |
| `SignalService.OverdueIsExpired` | src/crypto_smc/signals/service.py:127-149 | after reconciling, a preparing signal past its time, and an active one whose trades are covered, is expired at that time and forgotten |
| `SignalService.NewcomerIsSubscribed` | src/crypto_smc/signals/service.py:150-152 | after reconciling, a signal whose symbol was not streamed is unchanged, subscribed and waits for coverage from its last processed trade or its creation |
| `SignalService.SignalLifecycleService.RefreshSignal` | src/crypto_smc/signals/service.py:477-483 | the cached row is replaced by the symbol's stored one, or dropped when there is none |
| `SignalService.SignalLifecycleService.Move` | src/crypto_smc/signals/service.py:391-455 | the tables and the result are those of the transition; applied, the cached copy follows the row or is dropped exactly at a terminal target; not applied, the row is loaded again; refused, nothing changes |
| `SignalService.SignalLifecycleService.ApplyEvent` | src/crypto_smc/signals/service.py:229-259 | the loop over one event's actions, with its early return, leaves exactly the tables of the event's specification; the signal stays cached exactly while it is not terminal |
| `SignalService.SignalLifecycleService.SaveCheckpoint` | src/crypto_smc/signals/service.py:457-475 | the stored mark moves forward only while the cached one is overwritten; the cache never runs ahead of the tables |
| `SignalService.SignalLifecycleService.ProcessTrade` | src/crypto_smc/signals/service.py:229-259 | one trade moves the stored signal as specified and is checkpointed exactly when the signal is still open and the interval has passed; an untracked symbol changes nothing |
| `SignalService.SignalLifecycleService.RecoverWithCandles` | src/crypto_smc/signals/service.py:261-342 | the lost window runs from the anchor's minute to the last closed one; without candles nothing changes, otherwise the tables are those after the candles, the recovery event and the trades buffered since, and coverage is no longer pending |
| `SignalService.SignalLifecycleService.EstablishCoverage` | src/crypto_smc/signals/service.py:172-227 | a proven merge activates a preparing signal and replays exactly the merged trades, an unproven one fails a preparing signal and sends any other to candle recovery; no other symbol is touched, whatever symbols the history holds |
| `SignalService.SignalLifecycleService.OnTrade` | src/crypto_smc/signals/service.py:167-170 | a trade is left to the merge while coverage is pending, and otherwise moves the stored signal and is checkpointed when due |
| `SignalService.SignalLifecycleService.OnDisconnect` | src/crypto_smc/signals/service.py:156-162 | a lost stream makes coverage pending from the signal's last processed trade, or its creation |
| `SignalService.SignalLifecycleService.OnReady` | src/crypto_smc/signals/service.py:163-166 | a stream that delivers again is noted and coverage established for a pending signal |
| `SignalRuns.StoredReplayIsRun` | src/crypto_smc/signals/service.py:222-227 | replaying any trades through the tables leaves the position of the pure trade fold |
| `SignalRuns.RestartedServiceCatchesUp` | src/crypto_smc/signals/service.py:172-227 | when coverage is proven for rows reflecting the log up to a crash, the rows become those of a service that never stopped if every repeated trade is harmless to the stored signal; over every continuation of the log only then; and with nothing new they stay as they are exactly then |
| `SignalRuns.RestartedInsideTrade` | src/crypto_smc/signals/service.py:172-259 | the same for rows left between the two transactions of one trade |
| `SignalRuns.ReconnectStopsAtBreakeven` | src/crypto_smc/signals/service.py:156-259 | the service's own checkpoints do not ensure this: a trade between stop and breakeven is checkpointed, TP1 follows within the interval, and after a lost connection the proven merge books a stop at breakeven although the trades end after TP1 |
| `SignalRuns.RecoveryLeavesMarkBehind` | src/crypto_smc/signals/service.py:261-342 | candle recovery with nothing buffered leaves the mark before the recovered minute, with the same result |
| `WhipsawRun.RunFromPublication` | src/crypto_smc/signals/service.py:96-259 | a concrete run from publication through reconciling, coverage and entry to that stop at breakeven |
| `CandleAggregation.IntervalsNest` | src/crypto_smc/aggregation/domain.py:37-48 | interval starts are idempotent, contain their minute, and a finer start rounds to the coarser start of the same minute |
| `CandleAggregation.AggregateMeaning` | src/crypto_smc/aggregation/domain.py:51-87 | an aggregate exists exactly when the sorted minutes fill their interval one by one for one symbol, and is then their open, extremes, close and totals |
| `CandleAggregation.OrderDoesNotMatter` | src/crypto_smc/aggregation/domain.py:51-87 | any two orders of the same minutes give the same result, including none |
| `CandleAggregation.AggregateIsValid` | src/crypto_smc/aggregation/domain.py:72-87 | valid minutes give a valid aggregate of the interval's length |
| `AggregationTower.DirectEqualsNested` | src/crypto_smc/aggregation/domain.py:51-87 | over the minutes of one coarse interval, complete or not, the candle built directly equals the one joined from all nested finer candles, and both are withheld together |
| `CandleCache.StoringKeeps` | src/crypto_smc/db/repositories/market_data.py:468-548 | storing minutes and enqueuing every interval whose recomputation changes keeps every stale aggregate covered by a job |
| `CandleCache.FinishKeeps` | src/crypto_smc/db/repositories/aggregation.py:214-271 | writing a loaded aggregate and deleting the job only if nothing touched it since the claim keeps stale aggregates covered by a job |
| `CandleCache.CacheStaysHonest` | src/crypto_smc/db/repositories/aggregation.py:136-296 | under every interleaving of save, repair, live, seed, claim, load, finish, fail, crash and recover by one worker, an aggregate differing from its recomputation has a job row, so an empty queue means an exact table |
| `CandleCache.CacheIsHonestFromTheStart` | src/crypto_smc/db/repositories/aggregation.py:136-296 | from empty tables on, every aggregate without a job is what its minutes give |
| `CandleCache.StoredMinuteIff` | src/crypto_smc/aggregation/domain.py:51-87 | storing a minute that does not complete its interval leaves the recomputed aggregate alone if and only if another minute is missing, or the minute replaces a stored one with the same volume and turnover, the same open if it is the first, and a high and a low that are equal or hidden by another minute's |
| `CandleCache.LiveHonestIff` | src/crypto_smc/db/repositories/market_data.py:506-548 | a live candle keeps that property if and only if every interval it lies in is completed by it, already queued, or left alone by the stored rows in that sense |
| `Witnesses.LiveLeavesStale` | src/crypto_smc/db/repositories/market_data.py:149-214 | a finished and aggregated interval whose third minute arrives again with another volume keeps a stale aggregate without a job |
| `CandleCache.SettledForGood` | src/crypto_smc/db/repositories/aggregation.py:214-296 | a claim that has lost its row never matches one again, over every run without a claim at the same instant |
| `MarketDatabase.PickClaims` | src/crypto_smc/db/repositories/aggregation.py:136-178 | the picked jobs are distinct, claimable, at most the limit, all of them when fewer, and each precedes every unpicked claimable job by priority and interval |
| `MarketDatabase.Database.EnqueueJobs` | src/crypto_smc/db/repositories/market_data.py:506-548 | the nested loops upsert exactly one pending row for each wanted interval |
| `MarketDatabase.Database.SaveBatch` | src/crypto_smc/db/repositories/market_data.py:121-147 | saves candles, jobs for every touched interval and the checkpoint exactly as the table function says |
| `MarketDatabase.Database.IngestLiveCandle` | src/crypto_smc/db/repositories/market_data.py:149-214 | ready, duplicate and gap are told apart and only then stored, as the table function says |
| `MarketDatabase.Database.RepairCandles` | src/crypto_smc/db/repositories/market_data.py:216-232 | repaired minutes are stored and all their intervals enqueued, the checkpoint untouched |
| `MarketDatabase.CompletionsAbsorb` | src/crypto_smc/db/repositories/market_data.py:234-323 | completing a gap, marking any state and completing another leaves the checkpoint of one completion at the later minute |
| `MarketDatabase.Database.ClaimJobs` | src/crypto_smc/db/repositories/aggregation.py:136-178 | the picked rows, and only they, become processing at the claim time |
| `MarketDatabase.ClaimSettlesOnce` | src/crypto_smc/db/repositories/aggregation.py:44-64 | finishing, failing, recovering as stale or enqueuing again takes the row from its claim, and a claim without its row changes nothing in the queue |
| `MarketDatabase.RetryDoubles` | src/crypto_smc/aggregation/service.py:84-94 | the retry delay doubles up to the fifth attempt and stays at 32 seconds; the cap of a minute never binds |
| `MarketDatabase.Database.SeedBatch` | src/crypto_smc/db/repositories/aggregation.py:66-134 | the first symbol with minutes beyond its cursor has the next of them enqueued and its cursor moved to the last; when nothing is found no symbol has such minutes |
| `MarketDatabase.NextMinutes` | src/crypto_smc/db/repositories/aggregation.py:87-99 | the stored minutes beyond the cursor in time order, all of them or the first up to the limit |
| `MarketDatabase.SeededIntervalsHaveJobs` | src/crypto_smc/db/repositories/aggregation.py:101-133 | every interval of a stored minute between the old and the new cursor has a job |
| `MarketDatabase.Database.ProcessJob` | src/crypto_smc/aggregation/service.py:67-107 | load, aggregate and finish leave the recomputed aggregate, or none, and drop the job only if it is unchanged; a failure leaves the tables and puts the unchanged job back with its delay |
| `MarketDatabase.DrainQueue` | src/crypto_smc/aggregation/service.py:38-107 | with nothing enqueued and no job failing, the worker loop terminates having removed every job but those another claim left in processing and not yet stale, and every interval without a row is exact |
| `MarketSync.StepKeepsCoverage` | src/crypto_smc/db/repositories/market_data.py:422-466 | across saves, repairs, live candles and state changes the checkpoint never decreases and every minute from the first backfilled one up to it is stored |
| `MarketSync.RunKeepsCoverage` | src/crypto_smc/db/repositories/market_data.py:121-323 | the same over every run of such steps |
| `MarketSync.WindowIsComplete` | src/crypto_smc/db/repositories/market_data.py:365-420 | a loaded window is empty or has every minute in order, and is complete whenever the stream is ready, the end is confirmed and the start not before the first backfilled minute |
| `MarketSync.SyncTarget` | src/crypto_smc/market_data/backfill.py:94-180 | the batch loop terminates; on success the checkpoint is at or past the last closed minute and ready, and in every case it never decreases and stays covered |
| `SmcStatistics.RollingMean` | src/smc_core/statistics.py:8-23 | the running total gives at every index the mean of exactly the last `period` values, and nothing before there are that many |
| `SmcStatistics.TrueRanges` | src/smc_core/statistics.py:26-39 | the loop yields the true range of every candle |
| `SmcStatistics.AverageTrueRange` | src/smc_core/statistics.py:42-61 | the in-place loop yields Wilder's recursion at every index |
| `SmcStatistics.AtrCausal` | src/smc_core/statistics.py:42-61 | the series over the first n candles is the first n entries of the full series |
| `Swings.DetectSwings` | src/smc_core/swings.py:6-47 | the swings are exactly the strict extremes within the lookback, in confirmation order; the final sort changes nothing |
| `Swings.SwingsCausal` | src/smc_core/swings.py:6-47 | the swings of the first n candles are a prefix of the full list, all confirmed before n, and every later one is confirmed at n or after |
| `Swings.ArrivalsAre` | src/smc_core/structure.py:12-24 | what becomes usable at a candle are exactly the swings of the candle one lookback and one step earlier |
| `Swings.CollectArrivals` | src/smc_core/structure.py:12-14 | the dictionary filled swing by swing holds for each index the swings confirmed one candle earlier, in order |
| `Structure.DetectStructureBreaks` | src/smc_core/structure.py:6-52 | the loop with its running trend and latest swings yields the events of the break recursion |
| `Structure.BreaksCausal` | src/smc_core/structure.py:6-52 | the breaks of the first n candles are a prefix of the full list and every later one happens at n or after |
| `Structure.BreakConditionsExclude` | src/smc_core/structure.py:16-34 | fed by the swing detector the loop examines every candle with the previous close between the latest unbroken low and high, so the bullish and bearish conditions never both hold |
| `Structure.BreaksMirror` | src/smc_core/structure.py:25-52 | mirroring all prices maps the events one to one, although the bullish case is tested first |
| `StructureTrace.BreaksAreReal` | src/smc_core/structure.py:25-52 | every event is a close beyond an earlier confirmed swing of its kind, its prior trend is the direction of the event before it, it is a change of character exactly when it turns that trend, and no swing is broken twice |
| `Liquidity.DetectLiquiditySweeps` | src/smc_core/liquidity.py:8-50 | the loop yields the sweeps of the recursion, both sides examined on every candle |
| `StructureTrace.SweepsAreReal` | src/smc_core/liquidity.py:24-50 | every sweep takes out an earlier confirmed swing with its wick and closes back inside |
| `Liquidity.SweepsCausal` | src/smc_core/liquidity.py:8-50 | the sweeps of the first n candles are a prefix of the full list and every later one happens at n or after |
| `Liquidity.DetectEqualLevels` | src/smc_core/liquidity.py:53-91 | both kinds are paired neighbour by neighbour and the levels ordered by their second confirmation |
| `StructureTrace.LevelsAreNeighbours` | src/smc_core/liquidity.py:70-90 | a level is reported if and only if two neighbouring swings lie within the separation and within the tolerance of the range known at the second's confirmation |
| `Liquidity.LevelsCausal` | src/smc_core/liquidity.py:53-91 | the levels known after n candles are a prefix of the full list, although the list is sorted at the end |
| `Displacements.DetectDisplacements` | src/smc_core/displacement.py:8-52 | the loop with its early exits reports exactly the candles whose body, range and close position pass |
| `Displacements.DisplacementsCausal` | src/smc_core/displacement.py:8-52 | the displacements of the first n candles are a prefix of the full list |
| `Imbalances.ResolveGap` | src/smc_core/imbalances.py:51-82 | the loop with its break leaves the progress of folding every later candle |
| `Imbalances.DetectFairValueGaps` | src/smc_core/imbalances.py:8-48 | the gaps are exactly those large enough at their candle, each with its progress |
| `Imbalances.GapMeaning` | src/smc_core/imbalances.py:51-82 | a gap is filled by the first later candle reaching its far edge, touched by the first entering it, and open, partially filled or filled accordingly |
| `Imbalances.GapsCausal` | src/smc_core/imbalances.py:8-82 | the gaps created by n candles are the full run's first gaps; later candles only advance their status, and a touch or end index once set stays |
| `OrderBlocks.ResolveOrderBlock` | src/smc_core/order_blocks.py:55-83 | the loop with its break leaves the progress of folding every later candle |
| `OrderBlocks.DetectOrderBlocks` | src/smc_core/order_blocks.py:7-52 | with the displacement dictionary, the backward search and the used set, each source candle is reported once per direction |
| `OrderBlocks.SearchBack` | src/smc_core/order_blocks.py:27-36 | the search finds the latest candle of the wanted direction in the window, if there is one |
| `OrderBlocks.BlockMeaning` | src/smc_core/order_blocks.py:55-83 | a block ends at the first later close beyond it and is touched by the first candle reaching it before that |
| `OrderBlocks.BlocksCausal` | src/smc_core/order_blocks.py:7-83 | the blocks created by n candles are the full run's first blocks, with their progress only advanced |
| `Ranges.RangeMeans` | src/smc_core/ranges.py:7-30 | a series has a dealing range exactly when its last low pivot lies below its last high pivot; its middle lies strictly between, the low at a discount and the high at a premium |
| `Analysis.ValidateCandleSeries` | src/smc_core/validation.py:7-18 | a series is accepted exactly when it is not empty, of one symbol and one timeframe and strictly ordered by open time; otherwise the first offending candle decides the error |
| `Analysis.Analyze` | src/smc_core/analysis.py:16-75 | the detectors called in turn return the composed analysis of a valid series, with its dealing range and price location |
| `Analysis.AnalysisIsCausal` | src/smc_core/analysis.py:16-75 | on the first n candles the ATR, swings, breaks, sweeps, levels and displacements are exactly the full run's prefixes with everything later dated n or after; gaps and blocks are the same ones with status only advancing and touch and end indices fixed; the dealing range is that of the swings confirmed by then |
| `TradePlans.DefaultsAreSpaced` | src/crypto_smc/strategy/config.py:27-71 | the default configuration meets the constructor's checks and the spacing of the levels |
| `TradePlans.RoundedDownBounds` | src/crypto_smc/strategy/risk.py:45-46 | rounding down to a step never exceeds the value and loses less than one step |
| `TradePlans.LevelsOrdered` | src/crypto_smc/strategy/risk.py:23-72 | an accepted plan has stop, entry zone, TP1 and TP2 strictly in order, mirrored for shorts |
| `TradePlans.FeeRateRecovered` | src/crypto_smc/db/repositories/signals.py:540-546 | the fee rate recovered from entry fee and notional at publication is the one the plan was built with |
| `TradePlans.TargetBeyondBreakeven` | src/crypto_smc/strategy/risk.py:38-46 | the fee rate is below one and TP2 lies strictly beyond the fee-adjusted breakeven of the published signal |
| `TradePlans.FullStopLosesEstimate` | src/crypto_smc/strategy/risk.py:38-96 | a full stop of the published signal loses exactly the plan's estimate, at most the risk amount and less than one quantity step short of it, so R is never below -1 |
| `TradePlans.LeverageIsSafe` | src/crypto_smc/strategy/risk.py:54-68 | leverage is at least one, and above one it respects both caps and leaves the stop inside the buffered liquidation distance |
| `TradePlans.AcceptedIsWellFormed` | src/crypto_smc/strategy/risk.py:7-96 | an accepted plan publishes as a signal meeting the well-formedness hypothesis of the lifecycle theorems |
| `Evaluator.Newest` | src/crypto_smc/strategy/evaluator.py:265-295 | the entry zone is the first of the most recently created usable zones, and missing only when there is none |
| `Evaluator.NearestTarget` | src/crypto_smc/strategy/evaluator.py:302-322 | the target is the nearest opposing swing beyond the planned entry, and missing only when there is none |
| `Evaluator.ScoreComponents` | src/crypto_smc/strategy/evaluator.py:39-190 | the seven components add up to the score and never exceed one hundred |
| `Evaluator.MarketFilterReasons` | src/crypto_smc/strategy/evaluator.py:349-368 | a reason is appended exactly when its own turnover, spread or volatility test fails |
| `Evaluator.EvaluateDirection` | src/crypto_smc/strategy/evaluator.py:27-258 | a candidate is accepted exactly when every requirement holds, exactly when no suppression reason is left; each reason is listed, once, if and only if its own condition holds; the score lies between 0 and 100 and the plan is the attempted one |
| `Evaluator.AcceptedCandidateIsSound` | src/crypto_smc/strategy/evaluator.py:205-258 | an accepted candidate's plan is ordered, aims at an opposing swing, loses exactly its estimate within the risk amount at the stop and publishes as a well-formed signal |
| `ReplayLifecycle.ResolveCandidate` | src/crypto_smc/replay/lifecycle.py:14-120 | the loop with its early returns yields the outcome of folding the later candles one by one |
| `ReplayLifecycle.AmbiguousNeverGains` | src/crypto_smc/replay/lifecycle.py:165-193 | an outcome is flagged ambiguous exactly in that status, and is then booked at zero or as a full stop, never as a gain |
| `ReplayLifecycle.LaterRowsChangeNothing` | src/crypto_smc/replay/lifecycle.py:37-120 | an outcome settled on some rows is unchanged by any rows after them |
| `ReplayLifecycle.SettledIff` | src/crypto_smc/replay/lifecycle.py:37-120 | on the rows closed by T the outcome is settled if and only if the full one is dated by T and known then: for an invalidation its candle closed by T, for an expiry some early row opens at or after it, for a fill always |
| `Witnesses.ExpiryKnownLate` | src/crypto_smc/replay/lifecycle.py:35-37 | an expiry dated at minute 5 that the rows closed by then leave open |
| `Witnesses.InvalidationKnownLate` | src/crypto_smc/replay/lifecycle.py:38-44 | an invalidation dated at the open of a candle that has not closed by then |
| `ReplayMatchesLive.ReplayFormulasAreLive` | src/crypto_smc/replay/lifecycle.py:165-244 | replay's stop, TP2 and post-TP1 PnL and fees equal the live formulas on the same plan |
| `ReplayMatchesLive.SameStepIff` | src/crypto_smc/replay/lifecycle.py:37-112 | replay and the live candle machine take the same step exactly when an expiry comes, the entry is behind, or the candle is read alike: a touched stop either gapped at the open or came with an entry, not both, and a mere entry stays short of TP1 |
| `Witnesses.ReadApart` | src/crypto_smc/replay/lifecycle.py:38-60 | a published plan and a candle that opens beyond the stop and reaches back to the entry: invalidated by the replay, ambiguous live |
| `ReplayMatchesLive.SameMoney` | src/crypto_smc/replay/lifecycle.py:165-227 | a finished step books the live PnL if and only if the candle is not ambiguous after TP1; then it books a full stop, strictly below the live result, and in every other case the fees agree too |
| `ReplayMatchesLive.ReplayAgreesWithLive` | src/crypto_smc/replay/lifecycle.py:14-120 | over any run whose waiting candles are read alike, replay reports the live machine's final status, and its PnL and fees exactly unless the live signal closed ambiguously on its breakeven stop |
| `ReplayMatchesLive.PlanReplaysAsItTrades` | src/crypto_smc/replay/lifecycle.py:14-120 | the same for every plan the risk module accepts and the signal published from it |
| `ReplayAggregation.AggregateTimeframe` | src/crypto_smc/replay/aggregation.py:30-60 | the bucket dictionary and its sorted keys yield the complete intervals' candles in order |
| `ReplayAggregation.SeriesCausal` | src/crypto_smc/replay/aggregation.py:30-60 | the candles built from minutes closed by T are exactly the full series' candles that close by T |
| `ReplayAggregation.SeriesOrdered` | src/crypto_smc/replay/aggregation.py:39-60 | a series is strictly ordered by close time |
| `ReplayLoop.BuildReplayAggregates` | src/crypto_smc/replay/aggregation.py:14-27 | every symbol with rows, and no other, has its series in every timeframe |
| `ReplayLoop.LoadHistories` | src/crypto_smc/replay/runner.py:192-207 | the four histories at a moment, or none when one is too short |
| `ReplayLoop.BtcState` | src/crypto_smc/replay/runner.py:219-246 | the market leader's return and range ratio at a moment, empty without rows or history |
| `ReplayLoop.ListEvents` | src/crypto_smc/replay/runner.py:84-91 | all five-minute closes of all symbols in (time, symbol) order |
| `ReplayLoop.PrepareInput` | src/crypto_smc/replay/runner.py:92-168 | one event's input with the cached leader state and the open-interest change against the previous observation; the cache stays correct |
| `ReplayLoop.RunReplay` | src/crypto_smc/replay/runner.py:48-189 | the loops over dictionaries, cache and running sequence return the specified candidates and one outcome for each accepted candidate |
| `ReplayCausality.InputCausal` | src/crypto_smc/replay/runner.py:92-168 | an event by T is prepared alike from the rows closed by T and from all rows |
| `ReplayCausality.EventsCausal` | src/crypto_smc/replay/runner.py:84-91 | the events of the rows closed by T are exactly the full run's events by T |
| `ReplayCausality.CandidatesCausal` | src/crypto_smc/replay/runner.py:48-172 | replaying only the rows closed by T gives exactly the full run's candidates analysed by T, with their sequence numbers and cutoffs, and all further ones are later |
| `ReplayCausality.OutcomeCausal` | src/crypto_smc/replay/lifecycle.py:14-120 | an outcome is settled on the rows closed by T if and only if the full run's is dated by T and known then, and is then the full run's |
| `ReplayCausality.ReplayIsCausal` | src/crypto_smc/replay/runner.py:48-189 | both together for whole runs and any evaluation function: the candidates by T, and exactly the outcomes known by T settled, and then for good |
| `ReplayCausality.ReplayIgnoresOrder` | src/crypto_smc/replay/runner.py:56-58 | any two orders of the same rows, unique per symbol and minute, replay alike |
| `Reporting.FinalBalance` | src/crypto_smc/replay/reporting.py:37-61 | the balance after the last outcome in resolution order is the reference balance plus the net profit summed in input order |
| `Reporting.Drawdown` | src/crypto_smc/replay/reporting.py:48-61 | one pass returns the largest drop from any earlier balance to a later one over all pairs, and the largest drop relative to its running peak |
| `Reporting.BuildSummary` | src/crypto_smc/replay/reporting.py:19-76 | candidates split into accepted and suppressed and into three score bands, outcomes counted by status, with net profit, profit factor, drawdown, drawdown fraction and ambiguity count |
| `NotificationStore.NotificationRepository.EnqueueOperationalEvent` | src/crypto_smc/db/repositories/notifications.py:50-73 | one entry per key; reports whether it was created |
| `NotificationStore.NotificationRepository.AddressEntry` | src/crypto_smc/db/repositories/notifications.py:170-188 | one delivery per configured addressee that has none yet, with the status the policy gives, and the entry expanded |
| `NotificationStore.NotificationRepository.MaterializePending` | src/crypto_smc/db/repositories/notifications.py:142-190 | the oldest due entries up to the batch size are expanded, nothing else changes |
| `NotificationStore.NotificationRepository.ClaimDelivery` | src/crypto_smc/db/repositories/notifications.py:215-296 | paused rows are skipped, exhausted ones failed, and the first claimable row becomes sending with one more attempt |
| `NotificationStore.PolicyMeans` | src/crypto_smc/db/repositories/notifications.py:391-429 | a notice waits for delivery exactly when the user is not paused and, for a new signal only, score and schedule allow it; otherwise it is skipped |
| `NotificationStore.ClaimTakesFirst` | src/crypto_smc/db/repositories/notifications.py:215-296 | a claim takes the lowest row that is due, has attempts left and belongs to a user who is not paused, adds one attempt to it, and finds none only when there is none; other rows change only by being skipped or failed |
| `NotificationStore.NotificationRepository.MarkRetry` | src/crypto_smc/db/repositories/notifications.py:312-330 | only a row still being sent goes back to pending |
| `NotificationStore.NotificationRepository.FinishDelivery` | src/crypto_smc/db/repositories/notifications.py:368-388 | only a row still being sent is closed |
| `NotificationStore.NotificationRepository.RecoverStaleSending` | src/crypto_smc/db/repositories/notifications.py:192-213 | exactly the stale sending rows become delivery_unknown, never pending |
| `NotificationService.RunOnce` | src/crypto_smc/telegram/outbox.py:66-116 | one pass expands, claims and closes the row as the messenger's answer demands |
| `NotificationService.PassIsFourSteps` | src/crypto_smc/telegram/outbox.py:66-116 | a pass is four protocol steps of one idle worker, so the run theorems cover it |
| `NotificationProtocol.TakeKeepsSafe` | src/crypto_smc/db/repositories/notifications.py:142-388 | every protocol step, crashes between claim, send and close included, keeps rows unique, hands apart and each row's counters in line with what was really sent |
| `NotificationProtocol.RunIsSafe` | src/crypto_smc/telegram/outbox.py:54-116 | the same for every run of any number of workers |
| `NotificationProtocol.AtMostOnce` | src/crypto_smc/telegram/outbox.py:66-116 | over every run each row is sent at most max_attempts times and delivered at most once, each user gets each outbox key at most once, and a row marked sent was delivered exactly once |
| `NotificationProtocol.OneMessagePerTransition` | src/crypto_smc/db/repositories/signals.py:418-436 | with the signal store's one outbox row per status change, each user receives at most one message per status change |

## Left out

- HTTP, WebSocket and Telegram transport, API routes, health, metrics, logging and command handling: no hard invariant.
- SQL text, ORM mapping, migrations, row locks and partitions: each transaction is one atomic step.
- asyncio scheduling and shutdown: one aggregation worker and one handler at a time are assumed, as the deployment notes say.
- Retention: it deletes source minutes without enqueuing jobs, by design, and is no step of the cache invariant.
- Universe selection and rate limiting: single-branch code.
- CSV parsing, JSON, report files, message rendering and localisation: work on library behaviour.
- Decimal rounding to 28 digits and float seconds in funding: exact reals instead; the explicit round-down of quantity and leverage is kept.
- The text of idempotency keys: each format is a constructor of a datatype, so that distinct formats give distinct keys is assumed.
- What the signal service asks for: the answers of the exchange, the candle table and the clock are parameters. The stream's buffer holds the asked symbol only, as `providers/bybit/trade_websocket.py` files trades, and symbols are in upper case.
- Exceptions raised by the exchange or the database in the middle of a service step, and the payloads and notes stored with events.
- Identifiers of aggregation jobs: a job is keyed by its interval, which is unique in the table.
- Reconciliation of aggregates against the exchange: it only calls the modelled repair.
- Time-zone lookup for notification windows: a user's local minute is an input, absent for an unknown zone.
- CandleCache.CacheStaysHonest: live steps are restricted to minutes newer than every stored one or already stored, because the code enqueues only completed intervals.
- MarketDatabase.DrainQueue: rows left in processing by a worker that is gone stay until they are stale at a later start, because recovery runs only at start.
- Portfolio.EveryHistoryIsSound: publication times do not go back and candidate ids are new in each batch, as the callers provide.
- ReplayCausality.ReplayIsCausal: the evaluation of an input is any function that stamps its input's symbol and time; analysing the histories is part of it.
- SignalService.SignalLifecycleService.Reconcile: visits the loaded signals in any order, where the source follows the loaded one.
- MarketSync.SyncTarget: the recorded gap rows are not modelled, only the checkpoint they change; a symbol without checkpoint whose history starts after the last closed minute is ready with nothing confirmed, as in the source.
- Evaluator.EvaluateDirection: the evidence texts beside the scores, and the order of the suppression reasons.
- Reporting.BuildSummary: the row and symbol counts, which are passed through.
- NotificationProtocol.AtMostOnce: assumes that a retryable error means nothing was delivered.
