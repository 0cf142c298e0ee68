/** One whole life of the service, from publication to a result no uninterrupted run has. */
module WhipsawRun {
  import opened Wrappers
  import opened MarketModels
  import opened Lifecycle
  import opened Fallback
  import opened FallbackConservative
  import opened Coverage
  import opened StateMachine
  import opened SignalPolicy
  import opened SignalStore
  import opened SignalTracking
  import opened TrackedSignals
  import opened SignalService
  import opened SignalRuns
  import opened Resume
  import Portfolio
  import Sequences

  const TERMS := Terms(Long, 99.0, 101.0, 100.0, 90.0, 110.0, 120.0, 1.0, 10.0, 0.0, 0.0, 480)

  const SYMBOL := "BTCUSDT"

  const CANDIDATE := PublicationCandidate(1, SYMBOL, true, Some(TERMS), 1000, false)

  const POLICY := PolicyConfig(60, 5, 3, 5, 2, true)

  /** The trades of the log: the price before the entry, the entry, a dip to between stop and breakeven, TP1. */
  const OPENS := PublicTrade("0", SYMBOL, 105.0, 0, 0)
  const FILLS := PublicTrade("1", SYMBOL, 100.0, 10, 1)
  const DIPS := PublicTrade("2", SYMBOL, 95.0, 20, 2)
  const TAKES := PublicTrade("3", SYMBOL, 112.0, 30, 3)

  /** History and stream hold the same two trades, the stream only the second. */
  function Feed(early: PublicTrade, late: PublicTrade): (w: World)
    requires late.symbol == SYMBOL
    ensures OwnTrades(w) && w.rest(SYMBOL) == [early, late] && forall since :: w.buffered(SYMBOL, since) == [late]
  {
    World((symbol: string) => [early, late],
          (symbol: string, since: int) => if symbol == SYMBOL then [late] else [],
          (symbol: string, start: int, end: int) => [])
  }

  function Published(): Store {
    AddSignal(Portfolio.EMPTY, CANDIDATE, true, 0)
  }

  function Activated(): Position {
    Position(LifecycleState(0, SYMBOL, TERMS, Active, 1000, 90.0, None, None), 0.0, 0.0, 1.0)
  }

  lemma FirstPublication()
    ensures Publish(Portfolio.EMPTY, [CANDIDATE], POLICY, 0) == Published()
    ensures Consistent(Published()) && Loadable(Published())
  {
    var observed := Observe(Portfolio.EMPTY.signals);
    assert observed == [];
    assert [CANDIDATE][1..] == [];
    assert Sequences.Filter(IsAccepted(), [CANDIDATE]) == [CANDIDATE];
    assert EvaluatePublication(CANDIDATE, [], 0, POLICY).None?;
    assert PublishEach(Published(), [Observation(SYMBOL, Preparing, 0)], [], POLICY, 0) == Published();
    assert PublishEach(Portfolio.EMPTY, [], [CANDIDATE], POLICY, 0) == Published();
    Portfolio.AddKeepsConsistent(Portfolio.EMPTY, CANDIDATE, true, 0) by {
      Portfolio.EmptyIsSound(POLICY);
    }
    PublishedIsReady(Portfolio.EMPTY, CANDIDATE, 0);
  }

  lemma OnlySignalIsLoaded()
    ensures Known(Published(), 0) && BySymbol(ListTracking(Published())) == map[SYMBOL := LoadedRow(Published(), 0)]
  {
    FirstPublication();
    hide Consistent;
    var s := Published();
    OpenSignalIsLoaded(s, 0);
    var loaded := BySymbol(ListTracking(s));
    forall symbol | symbol in loaded ensures symbol == SYMBOL {
      LoadedSymbols(s, symbol);
      var id: nat :| OpenFor(s, id, symbol);
    }
  }

  lemma EntryFills()
    ensures Booked(Activated()) && Booked(RunTrades(Activated(), [OPENS, FILLS]))
    ensures RunTrades(Activated(), [OPENS, FILLS]).state.status == Entered
  {
    var p := Activated();
    RunKeepsBooks(p, [OPENS, FILLS]);
    RunFollowsStatus(p, [OPENS, FILLS]);
    TwoSteps(p.state, Active, [OPENS, FILLS]);
  }

  /** The service holds the entered signal, checkpointed at its fill or not at all. */
  ghost predicate Holding(service: SignalLifecycleService)
    reads service, service.repository
  {
    var s, v := service.repository.Contents(), service.signals;
    && service.Valid() && SYMBOL in v && SYMBOL !in service.coveragePending && v[SYMBOL].state.signalId == 0
    && Known(s, 0) && v[SYMBOL].state == StateOf(s, 0) && View(s, 0) == RunTrades(Activated(), [OPENS, FILLS])
    && Due(service.lastCheckpoint, SYMBOL, 100, 60)
  }

  /** Published and loaded, coverage proven, entry filled. */
  method RunToEntry() returns (service: SignalLifecycleService)
    ensures fresh(service) && fresh(service.repository) && Holding(service)
  {
    hide Consistent, Loadable, RunTrades, Booked, BySymbol, ListTracking, VisitedOnce, OnlyFor, MergeTradeCoverage,
      Mirrors, Publish, Replayed,
      CoverageGivenUp, AfterRecovery, ReplayBase;
    var repository := new SignalRepository();
    FirstPublication();
    OnlySignalIsLoaded();
    EntryFills();
    var prepared, suppressed := repository.PublishCandidates([CANDIDATE], POLICY, 0);
    service := new SignalLifecycleService(repository);
    var opening := Feed(OPENS, FILLS);
    service.Reconcile(opening, 1);
    ghost var v, reconciled := LoadedRow(Published(), 0), repository.Contents();
    NewcomerIsSubscribed(Published(), reconciled, AfterLoad(Tracking(map[], map[], {}, {}), Published()),
      service.Cached(), SYMBOL, v, opening, 1);
    CachedIsKnown(reconciled, service.signals, SYMBOL);
    ActivatedRow(reconciled, v);
    PairIsProven(OPENS, FILLS);
    service.OnReady(SYMBOL, opening, 15);
    ReplayedIsRun(reconciled, repository.Contents(), v, 0, [OPENS, FILLS]);
    CachedIsKnown(repository.Contents(), service.signals, SYMBOL);
  }

  /**
   * A candidate is published and loaded, its coverage proven, its entry filled. The price dips between stop and
   * breakeven, TP1 is taken within the checkpoint interval, the connection is lost and coverage is proven again: the
   * service books a stop at breakeven that the trades, in the order of the exchange, do not contain.
   */
  method RunFromPublication() returns (repository: SignalRepository)
    ensures fresh(repository) && repository.signals != [] && repository.signals[0].status == StoppedAtBreakeven
    ensures RunTrades(Activated(), [OPENS, FILLS, DIPS, TAKES]).state.status == Tp1Reached
  {
    hide Consistent, Loadable, RunTrades, Booked, Mirrors;
    var service := RunToEntry();
    repository := service.repository;
    EntryFills();
    DipIsWhipsaw(View(repository.Contents(), 0));
    RunTradesConcat(Activated(), [OPENS, FILLS], [DIPS, TAKES]);
    assert [OPENS, FILLS] + [DIPS, TAKES] == [OPENS, FILLS, DIPS, TAKES];
    ReconnectStopsAtBreakeven(service, SYMBOL, DIPS, TAKES, Feed(DIPS, TAKES), 100, 120, 200, 60);
  }

  lemma ActivatedRow(s: Store, v: TrackedSignal)
    requires Consistent(s) && Mirrors(s, v) && Known(Published(), 0) && SameRows(Published(), s, 0)
             && v == LoadedRow(Published(), 0)
    ensures Known(ReplayBase(s, v, 0), 0) && View(ReplayBase(s, v, 0), 0) == Activated()
  {
    hide Consistent;
    CoverageAccepted(s, v, Active, 0, 0, TradeCoverageReady);
    hide ApplyTransition;
  }

  lemma DipIsWhipsaw(p: Position)
    requires Booked(p) && p.state.terms == TERMS && p.state.symbol == SYMBOL && p.state.status == Entered
    ensures Whipsaw(p.state, DIPS, TAKES)
  {
  }
}
