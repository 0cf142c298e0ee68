/** Restarting from a trade checkpoint: when replaying trades already seen changes nothing. */
module Resume {
  import opened Wrappers
  import opened Lifecycle
  import opened FallbackConservative
  import opened Coverage
  import opened StateMachine

  /** The trade that takes TP1 also lies beyond the breakeven stop it installs. */
  predicate Rebounds(s: LifecycleState, trade: PublicTrade)
    requires WellFormed(s)
  {
    var t := s.terms;
    && s.status == Entered
    && !BeyondStop(t.direction, t.stopLoss, trade.price)
    && TargetReached(t.direction, t.takeProfit1, trade.price)
    && !TargetReached(t.direction, t.takeProfit2, trade.price)
    && BeyondStop(t.direction, Breakeven(t), trade.price)
  }

  /** Seeing the same trade again right after it was applied does nothing, exactly unless it rebounds. */
  lemma ReapplyIsNoOpIff(p: Position, trade: PublicTrade)
    requires Booked(p) && trade.symbol == p.state.symbol
    ensures EvaluatePublicTrade(StepTrade(p, trade).state, trade) == [] <==> !Rebounds(p.state, trade)
  {
    hide BookedPnl, BookedFees, FullExitPnl, FullExitFees, Tp1Pnl, Tp1Fees, Tp1ThenExitPnl, Tp1ThenExitFees, EntryFee,
      Breakeven;
    ApplyFewActions(p, EvaluatePublicTrade(p.state, trade), trade.executedAt);
  }

  /** No trade rebounds when the breakeven level lies before TP1. */
  lemma NeverRebounds(s: LifecycleState, trade: PublicTrade)
    requires WellFormed(s)
    requires if s.terms.direction == Long then Breakeven(s.terms) < s.terms.takeProfit1
             else s.terms.takeProfit1 < Breakeven(s.terms)
    ensures !Rebounds(s, trade)
  {
  }

  // ---------- when repeating trades changes nothing ----------

  /** No branch of the machine fires: the guards a caller can read off the stored state and the trade. */
  predicate Harmless(s: LifecycleState, trade: PublicTrade) {
    var t, d := s.terms, s.terms.direction;
    match s.status
    case Active =>
      trade.executedAt < s.expiresAt && !BeyondStop(d, t.stopLoss, trade.price) && !InEntryZone(t, trade.price)
    case Entered =>
      && !BeyondStop(d, s.currentStop, trade.price)
      && !TargetReached(d, t.takeProfit1, trade.price) && !TargetReached(d, t.takeProfit2, trade.price)
    case Tp1Reached =>
      !BeyondStop(d, s.currentStop, trade.price) && !TargetReached(d, t.takeProfit2, trade.price)
    case _ => true
  }

  predicate AllHarmless(s: LifecycleState, trades: seq<PublicTrade>) {
    forall i :: 0 <= i < |trades| ==> Harmless(s, trades[i])
  }

  predicate OfSymbol(symbol: string, trades: seq<PublicTrade>) {
    forall i :: 0 <= i < |trades| ==> trades[i].symbol == symbol
  }

  /** A harmless trade leaves the position alone; any other one lowers the rank for good. */
  lemma StepLowersRank(q: Position, trade: PublicTrade)
    requires Divisible(q.state.terms) && trade.symbol == q.state.symbol
    ensures if Harmless(q.state, trade) then StepTrade(q, trade) == q
            else Rank(StepTrade(q, trade).state.status) < Rank(q.state.status)
  {
    hide FullExitPnl, FullExitFees, Tp1Pnl, Tp1Fees, Tp1ThenExitPnl, Tp1ThenExitFees, EntryFee, Breakeven;
    ApplyFewActions(q, EvaluatePublicTrade(q.state, trade), trade.executedAt);
  }

  lemma {:induction false} RunLowersRank(q: Position, trades: seq<PublicTrade>)
    requires Divisible(q.state.terms) && OfSymbol(q.state.symbol, trades)
    ensures Rank(RunTrades(q, trades).state.status) <= Rank(q.state.status)
    decreases |trades|
  {
    hide Harmless, Rank, StepTrade;
    if trades != [] {
      StepLowersRank(q, trades[0]);
      RunLowersRank(StepTrade(q, trades[0]), trades[1..]);
    }
  }

  /** Any trades leave a position exactly as it was if and only if each of them is harmless to it. */
  lemma {:induction false} RepeatIsNoOpIff(q: Position, trades: seq<PublicTrade>)
    requires Divisible(q.state.terms) && OfSymbol(q.state.symbol, trades)
    ensures RunTrades(q, trades) == q <==> AllHarmless(q.state, trades)
    decreases |trades|
  {
    hide Harmless, Rank, StepTrade;
    if trades != [] {
      StepLowersRank(q, trades[0]);
      if Harmless(q.state, trades[0]) {
        RepeatIsNoOpIff(q, trades[1..]);
        assert AllHarmless(q.state, trades) <==> AllHarmless(q.state, trades[1..]) by {
          assert forall i :: 0 < i < |trades| ==> trades[i] == trades[1..][i - 1];
        }
      } else {
        RunLowersRank(StepTrade(q, trades[0]), trades[1..]);
      }
    }
  }

  /** Ends every continuation of the log where the uninterrupted run ends it. */
  ghost predicate ResumesExactly(p: Position, log: seq<PublicTrade>, first: nat, crash: nat)
    requires Divisible(p.state.terms) && first <= crash <= |log|
  {
    forall rest | OfSymbol(p.state.symbol, rest) ::
      RunTrades(RunTrades(p, log[..crash]), log[first..crash] + rest) == RunTrades(p, log[..crash] + rest)
  }

  /**
   * A restart that replays the log from `first` on the position of the crash ends, however the log goes on, where the
   * uninterrupted run ends, if and only if every repeated trade is harmless to the position of the crash.
   */
  lemma ResumeIff(p: Position, log: seq<PublicTrade>, first: nat, crash: nat)
    requires Divisible(p.state.terms) && OfSymbol(p.state.symbol, log) && first <= crash <= |log|
    ensures ResumesExactly(p, log, first, crash) <==> AllHarmless(RunTrades(p, log[..crash]).state, log[first..crash])
  {
    hide RunTrades, AllHarmless;
    var q, repeated := RunTrades(p, log[..crash]), log[first..crash];
    RepeatedOfSymbol(p.state.symbol, log, first, crash);
    RepeatIsNoOpIff(q, repeated);
    if AllHarmless(q.state, repeated) {
      forall rest | OfSymbol(p.state.symbol, rest) ensures RunTrades(q, repeated + rest)
        == RunTrades(p, log[..crash] + rest) {
        RunTradesConcat(q, repeated, rest);
        RunTradesConcat(p, log[..crash], rest);
      }
    }
    if ResumesExactly(p, log, first, crash) {
      assert OfSymbol(p.state.symbol, []) && repeated + [] == repeated && log[..crash] + [] == log[..crash];
    }
  }

  lemma SplitAtCrash(log: seq<PublicTrade>, first: nat, crash: nat)
    requires first <= crash <= |log|
    ensures log[first..] == log[first..crash] + log[crash..] && log == log[..crash] + log[crash..]
  {
  }

  lemma RepeatedOfSymbol(symbol: string, log: seq<PublicTrade>, first: nat, crash: nat)
    requires OfSymbol(symbol, log) && first <= crash <= |log|
    ensures OfSymbol(symbol, log[first..crash])
  {
  }

  /** In particular the restart ends the given log where the uninterrupted run ends it. */
  lemma ResumeEqualsUninterrupted(p: Position, log: seq<PublicTrade>, first: nat, crash: nat)
    requires Divisible(p.state.terms) && OfSymbol(p.state.symbol, log) && first <= crash <= |log|
    requires AllHarmless(RunTrades(p, log[..crash]).state, log[first..crash])
    ensures RunTrades(RunTrades(p, log[..crash]), log[first..]) == RunTrades(p, log)
  {
    hide RunTrades, AllHarmless, OfSymbol;
    var q, repeated, rest := RunTrades(p, log[..crash]), log[first..crash], log[crash..];
    RepeatedOfSymbol(p.state.symbol, log, first, crash);
    RepeatIsNoOpIff(q, repeated);
    SplitAtCrash(log, first, crash);
    RunTradesConcat(q, repeated, rest);
    RunTradesConcat(p, log[..crash], rest);
  }

  /**
   * A crash between the two transactions of one trade leaves TP1 booked and TP2 not. Seeing the trade again books what
   * is missing.
   */
  lemma InterruptedTradeCompletes(p: Position, trade: PublicTrade)
    requires Booked(p) && trade.symbol == p.state.symbol && |EvaluatePublicTrade(p.state, trade)| == 2
    ensures StepTrade(ApplyAction(p, EvaluatePublicTrade(p.state, trade)[0], trade.executedAt), trade)
            == StepTrade(p, trade)
  {
    hide BookedPnl, BookedFees, FullExitPnl, FullExitFees, Tp1Pnl, Tp1Fees, Tp1ThenExitPnl, Tp1ThenExitFees, EntryFee,
      Breakeven;
    var acts, at := EvaluatePublicTrade(p.state, trade), trade.executedAt;
    ApplyFewActions(p, acts, at);
    var q := ApplyAction(p, acts[0], at);
    ApplyFewActions(q, EvaluatePublicTrade(q.state, trade), at);
  }

  /** The same after a crash in the middle of the trade `log[crash]`. */
  lemma ResumeInsideTrade(p: Position, log: seq<PublicTrade>, first: nat, crash: nat)
    requires Booked(p) && OfSymbol(p.state.symbol, log) && first <= crash < |log|
    requires |EvaluatePublicTrade(RunTrades(p, log[..crash]).state, log[crash])| == 2
    ensures var before := RunTrades(p, log[..crash]);
            var q := ApplyAction(before, EvaluatePublicTrade(before.state, log[crash])[0], log[crash].executedAt);
            AllHarmless(q.state, log[first..crash]) ==> RunTrades(q, log[first..]) == RunTrades(p, log)
  {
    hide Booked, AllHarmless, EvaluatePublicTrade;
    var before := RunTrades(p, log[..crash]);
    RunKeepsBooks(p, log[..crash]);
    InterruptedTradeCompletes(before, log[crash]);
    var q := ApplyAction(before, EvaluatePublicTrade(before.state, log[crash])[0], log[crash].executedAt);
    if AllHarmless(q.state, log[first..crash]) {
      RepeatIsNoOpIff(q, log[first..crash]);
      assert log[first..] == log[first..crash] + log[crash..] && log == log[..crash] + log[crash..];
      RunTradesConcat(q, log[first..crash], log[crash..]);
      RunTradesConcat(p, log[..crash], log[crash..]);
    }
  }

  // ---------- checkpoints at or after the last transition ----------

  /**
   * The trades `first..crash` that a restart sees again: the first of them may have changed the signal, if it does not
   * rebound; the later ones did not.
   */
  ghost predicate SettledSince(p: Position, log: seq<PublicTrade>, first: nat, crash: nat)
    requires Booked(p)
  {
    && first <= crash <= |log|
    && (forall i :: first < i < crash ==> Quiet(p, log, i))
    && (first < crash ==> RestartSafe(p, log[..first], log[first]))
  }

  predicate Quiet(p: Position, log: seq<PublicTrade>, i: nat)
    requires Booked(p) && i < |log|
  {
    EvaluatePublicTrade(RunTrades(p, log[..i]).state, log[i]) == []
  }

  predicate RestartSafe(p: Position, before: seq<PublicTrade>, trade: PublicTrade)
    requires Booked(p)
  {
    RunKeepsBooks(p, before);
    !Rebounds(RunTrades(p, before).state, trade)
  }

  lemma {:induction false} QuietReplay(p: Position, trades: seq<PublicTrade>)
    requires Booked(p) && forall i :: 0 <= i < |trades| ==> EvaluatePublicTrade(p.state, trades[i]) == []
    ensures RunTrades(p, trades) == p
    decreases |trades|
  {
    hide EvaluatePublicTrade, Booked;
    if trades != [] {
      assert StepTrade(p, trades[0]) == p;
      QuietReplay(p, trades[1..]);
    }
  }

  lemma RunSnoc(p: Position, log: seq<PublicTrade>, i: nat)
    requires Booked(p) && i < |log|
    ensures RunTrades(p, log[..i + 1]) == StepTrade(RunTrades(p, log[..i]), log[i])
  {
    hide EvaluatePublicTrade, Booked;
    assert log[..i + 1] == log[..i] + [log[i]];
    RunTradesConcat(p, log[..i], [log[i]]);
    var q := RunTrades(p, log[..i]);
    assert [log[i]][1..] == [];
    assert RunTrades(q, [log[i]]) == RunTrades(StepTrade(q, log[i]), []);
  }

  /** From the trade after `first` up to the crash the position does not move. */
  lemma {:induction false} PositionStays(p: Position, log: seq<PublicTrade>, first: nat, i: nat)
    requires Booked(p) && first < i <= |log| && forall k :: first < k < i ==> Quiet(p, log, k)
    ensures RunTrades(p, log[..i]) == RunTrades(p, log[..first + 1])
    decreases i
  {
    if i > first + 1 {
      hide EvaluatePublicTrade, Booked;
      assert Quiet(p, log, i - 1);
      PositionStays(p, log, first, i - 1);
      RunSnoc(p, log, i - 1);
    }
  }

  /**
   * A checkpoint at or after the last transition, and first at its timestamp, leaves only harmless trades to repeat.
   */
  lemma SettledIsHarmless(p: Position, log: seq<PublicTrade>, first: nat, crash: nat)
    requires Booked(p) && SettledSince(p, log, first, crash) && OfSymbol(p.state.symbol, log)
    ensures AllHarmless(RunTrades(p, log[..crash]).state, log[first..crash])
  {
    hide Booked, EvaluatePublicTrade, Rebounds;
    var q := RunTrades(p, log[..crash]);
    RunKeepsBooks(p, log[..crash]);
    if first < crash {
      PositionStays(p, log, first, crash);
      RunKeepsBooks(p, log[..first]);
      ReapplyIsNoOpIff(RunTrades(p, log[..first]), log[first]);
      RunSnoc(p, log, first);
      forall k | 0 <= k < |log[first..crash]| ensures EvaluatePublicTrade(q.state, log[first..crash][k]) == [] {
        if k > 0 {
          assert Quiet(p, log, first + k);
          PositionStays(p, log, first, first + k);
        }
      }
    }
    QuietReplay(q, log[first..crash]);
    RepeatIsNoOpIff(q, log[first..crash]);
  }

  /**
   * The restart the service performs: merge REST history and the stream from the checkpoint's time and replay the
   * merged trades on the stored signal. It arrives at the state of a service that never stopped when the repeated
   * trades are harmless to the stored signal, and only then does it for every way the log can go on.
   */
  lemma RestartWithProvenCoverage(p: Position, log: seq<PublicTrade>, a: nat, b: nat, c: nat, d: nat, anchor: int,
                                  crash: nat)
    requires Divisible(p.state.terms) && ExchangeLog(log) && Windows(log, a, b, c, d) && OfSymbol(p.state.symbol, log)
    requires MergeTradeCoverage(log[a..b], log[c..d], anchor).Proven?
    requires log[a].executedAt < anchor || log[c].executedAt < anchor
    requires FirstSince(log, anchor) <= crash <= SliceEnd(b, d)
    ensures var first, q, end := FirstSince(log, anchor), RunTrades(p, log[..crash]), SliceEnd(b, d);
            && end <= |log| && MergeTradeCoverage(log[a..b], log[c..d], anchor).trades == log[first..end]
            && (AllHarmless(q.state, log[first..crash]) ==> RunTrades(q, log[first..end]) == RunTrades(p, log[..end]))
            && (ResumesExactly(p, log[..end], first, crash) <==> AllHarmless(q.state, log[first..crash]))
  {
    hide ExchangeLog, MergeTradeCoverage, RunTrades, AllHarmless, ResumesExactly;
    EarlyWindowIsComplete(log, a, b, c, d, anchor);
    var end, first := SliceEnd(b, d), FirstSince(log, anchor);
    var upTo := log[..end];
    assert upTo[..crash] == log[..crash] && upTo[first..] == log[first..end] && upTo[first..crash] == log[first..crash];
    ResumeIff(p, upTo, first, crash);
    if AllHarmless(RunTrades(p, log[..crash]).state, log[first..crash]) {
      ResumeEqualsUninterrupted(p, upTo, first, crash);
    }
  }

  /**
   * A checkpoint older than the TP1 fill is not enough: an earlier trade between stop and breakeven was harmless
   * before TP1, but replayed after it, it meets the breakeven stop and closes the signal.
   */
  lemma OldCheckpointDiverges(p: Position, early: PublicTrade, late: PublicTrade)
    requires Booked(p) && p.state.status == Entered && early.symbol == late.symbol == p.state.symbol
    requires var t, d := p.state.terms, p.state.terms.direction;
             && !BeyondStop(d, t.stopLoss, early.price) && !TargetReached(d, t.takeProfit1, early.price)
             && BeyondStop(d, Breakeven(t), early.price)
             && TargetReached(d, t.takeProfit1, late.price) && !TargetReached(d, t.takeProfit2, late.price)
    ensures var q := RunTrades(p, [early, late]);
            q.state.status == Tp1Reached && RunTrades(q, [early, late]).state.status == StoppedAtBreakeven
  {
    hide BookedPnl, BookedFees, Breakeven, FinalStatus, EvaluatePublicTrade;
    var log := [early, late];
    RunFollowsStatus(p, log);
    TwoSteps(p.state, Entered, log);
    RunKeepsBooks(p, log);
    var q := RunTrades(p, log);
    RunFollowsStatus(q, log);
    TwoSteps(q.state, Tp1Reached, log);
  }

  lemma TwoSteps(s: LifecycleState, status: SignalStatus, trades: seq<PublicTrade>)
    requires Divisible(s.terms) && |trades| == 2
    ensures FinalStatus(s, status, trades) == NextStatus(s, NextStatus(s, status, trades[0]), trades[1])
  {
    hide NextStatus;
    var rest := trades[1..];
    assert rest[1..] == [];
    var st := NextStatus(s, status, trades[0]);
    assert FinalStatus(s, st, rest) == FinalStatus(s, NextStatus(s, st, rest[0]), []);
  }
}
