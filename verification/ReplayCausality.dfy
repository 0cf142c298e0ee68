/** The replay cannot see the future and ignores the order of its input. */
module ReplayCausality {
  import opened Wrappers
  import opened Sequences
  import opened MarketModels
  import opened CandleAggregation
  import opened ReplayAggregation
  import opened ReplayLifecycle
  import opened Evaluator
  import opened ReplayRunner
  import opened ReplayLoop
  import Smc = SmcModels

  /** A row whose minute has closed by T. */
  function RowClosedBy(T: int): MarketRow -> bool {
    (r: MarketRow) => r.candle.openMinute + 1 <= T
  }

  function Early(rows: seq<MarketRow>, T: int): seq<MarketRow> {
    Filter(RowClosedBy(T), rows)
  }

  // ---------- orders ----------

  lemma NameOrderIsPreorder()
    ensures TotalPreorder(NameOrder())
    ensures forall x, y :: NameOrder()(x, y) && NameOrder()(y, x) ==> x == y
  {
    forall x: string, y: string ensures StringLe(x, y) || StringLe(y, x) {
      StringLeTotal(x, y);
    }
    forall x: string, y: string, z: string ensures StringLe(x, y) && StringLe(y, z) ==> StringLe(x, z) {
      if StringLe(x, y) && StringLe(y, z) {
        StringLeTransitive(x, y, z);
      }
    }
    forall x: string, y: string ensures StringLe(x, y) && StringLe(y, x) ==> x == y {
      StringLeTotal(x, y);
    }
  }

  lemma RowOrderIsPreorder()
    ensures TotalPreorder(RowOrder())
  {
    hide StringLe;
    NameOrderIsPreorder();
    forall x, y ensures RowOrder()(x, y) || RowOrder()(y, x) {
      assert NameOrder()(x.candle.symbol, y.candle.symbol) || NameOrder()(y.candle.symbol, x.candle.symbol);
    }
    forall x, y, z ensures RowOrder()(x, y) && RowOrder()(y, z) ==> RowOrder()(x, z) {
      assert NameOrder()(x.candle.symbol, y.candle.symbol) && NameOrder()(y.candle.symbol, z.candle.symbol)
             ==> NameOrder()(x.candle.symbol, z.candle.symbol);
    }
  }

  lemma EventOrderIsPreorder()
    ensures TotalPreorder(EventOrder())
  {
    hide StringLe;
    NameOrderIsPreorder();
    forall x, y ensures EventOrder()(x, y) || EventOrder()(y, x) {
      assert NameOrder()(x.symbol, y.symbol) || NameOrder()(y.symbol, x.symbol);
    }
    forall x, y, z ensures EventOrder()(x, y) && EventOrder()(y, z) ==> EventOrder()(x, z) {
      assert NameOrder()(x.symbol, y.symbol) && NameOrder()(y.symbol, z.symbol) ==> NameOrder()(x.symbol, z.symbol);
    }
  }

  // ---------- series and histories ----------

  lemma {:induction false} CandlesOfEarly(rows: seq<MarketRow>, T: int)
    ensures CandlesOf(Early(rows, T)) == Filter(ClosedBy(T), CandlesOf(rows))
  {
    if rows != [] {
      CandlesOfEarly(rows[1..], T);
      var rest := CandlesOf(rows)[1..];
      assert rest == CandlesOf(rows[1..]);
      if RowClosedBy(T)(rows[0]) {
        assert CandlesOf([rows[0]] + Early(rows[1..], T)) == [rows[0].candle] + CandlesOf(Early(rows[1..], T));
      }
    }
  }

  lemma SymbolSeriesCausal(rows: seq<MarketRow>, symbol: string, tf: Timeframe, T: int)
    ensures SymbolSeries(Early(rows, T), symbol, tf) == Filter(CandleClosedBy(T), SymbolSeries(rows, symbol, tf))
  {
    hide Filter, Series, Early;
    CandlesOfEarly(rows, T);
    FiltersCommute(HasSymbol(symbol), ClosedBy(T), CandlesOf(rows));
    SeriesCausal(Filter(HasSymbol(symbol), CandlesOf(rows)), tf, T);
  }

  ghost predicate Rising(times: seq<int>) {
    forall i, j :: 0 <= i < j < |times| ==> times[i] <= times[j]
  }

  /** On an ordered list the bisection splits what is not above x from what is. */
  lemma {:induction false} BisectMeaning(times: seq<int>, x: int)
    requires Rising(times)
    ensures forall i :: 0 <= i < |times| ==> (times[i] <= x <==> i < BisectRight(times, x))
    decreases |times|
  {
    if times != [] && times[|times| - 1] > x {
      BisectMeaning(times[..|times| - 1], x);
    }
  }

  lemma BisectPrefix(times: seq<int>, T: int, clock: int)
    requires Rising(times) && clock <= T
    ensures BisectRight(times, clock) <= BisectRight(times, T)
    ensures BisectRight(times[..BisectRight(times, T)], clock) == BisectRight(times, clock)
  {
    hide BisectRight;
    var k, e := BisectRight(times, T), BisectRight(times, clock);
    var cut := BisectRight(times[..k], clock);
    BisectMeaning(times, T);
    BisectMeaning(times, clock);
    BisectMeaning(times[..k], clock);
    assert k < |times| ==> times[k] > T && (times[k] <= clock <==> k < e);
    assert e < k ==> times[..k][e] == times[e] && (times[e] <= clock <==> e < e);
    assert cut < k ==> times[..k][cut] == times[cut] && (times[cut] <= clock <==> cut < e);
  }

  lemma HistoryCausal(series: seq<Smc.Candle>, T: int, clock: int, c: ReplayConfig)
    requires ByClose(series) && clock <= T
    ensures HistoryAt(Filter(CandleClosedBy(T), series), clock, c) == HistoryAt(series, clock, c)
  {
    hide BisectRight, HistoryAt, Filter;
    var k := BisectRight(Closes(series), T);
    BisectMeaning(Closes(series), T);
    FilterCuts(CandleClosedBy(T), series, k);
    assert Closes(series[..k]) == Closes(series)[..k];
    BisectPrefix(Closes(series), T, clock);
    HistoryOfPrefix(series, k, clock, c);
  }

  lemma HistoryOfPrefix(series: seq<Smc.Candle>, k: nat, clock: int, c: ReplayConfig)
    requires k <= |series| && BisectRight(Closes(series[..k]), clock) == BisectRight(Closes(series), clock) <= k
    ensures HistoryAt(series[..k], clock, c) == HistoryAt(series, clock, c)
  {
    hide BisectRight;
    var end := BisectRight(Closes(series), clock);
    var start := if end < c.historyCandles then 0 else end - c.historyCandles;
    assert series[..k][start..end] == series[start..end];
  }

  lemma HistoriesCausal(rows: seq<MarketRow>, symbol: string, T: int, clock: int, c: ReplayConfig)
    requires clock <= T
    ensures HistoriesAt(Early(rows, T), symbol, clock, c) == HistoriesAt(rows, symbol, clock, c)
  {
    hide HistoryAt, SymbolSeries;
    SeriesHistoryCausal(rows, symbol, H4, T, clock, c);
    SeriesHistoryCausal(rows, symbol, H1, T, clock, c);
    SeriesHistoryCausal(rows, symbol, M15, T, clock, c);
    SeriesHistoryCausal(rows, symbol, M5, T, clock, c);
  }

  lemma SeriesHistoryCausal(rows: seq<MarketRow>, symbol: string, tf: Timeframe, T: int, clock: int, c: ReplayConfig)
    requires clock <= T
    ensures HistoryAt(SymbolSeries(Early(rows, T), symbol, tf), clock, c)
            == HistoryAt(SymbolSeries(rows, symbol, tf), clock, c)
  {
    hide HistoryAt, Series;
    SymbolSeriesCausal(rows, symbol, tf, T);
    SeriesOrdered(Filter(HasSymbol(symbol), CandlesOf(rows)), tf);
    HistoryCausal(SymbolSeries(rows, symbol, tf), T, clock, c);
  }

  // ---------- the market row ----------

  ghost predicate InTimeOrder(rows: seq<MarketRow>) {
    forall i, j :: 0 <= i < j < |rows| ==> rows[i].candle.openMinute <= rows[j].candle.openMinute
  }

  lemma {:induction false} FilterKeepsTimeOrder(keep: MarketRow -> bool, rows: seq<MarketRow>)
    requires InTimeOrder(rows)
    ensures InTimeOrder(Filter(keep, rows))
  {
    if rows != [] {
      FilterKeepsTimeOrder(keep, rows[1..]);
      var rest := Filter(keep, rows[1..]);
      forall j | 0 <= j < |rest| ensures rows[0].candle.openMinute <= rest[j].candle.openMinute {
        assert rest[j] in rest && rest[j] in rows[1..];
        var k :| 0 <= k < |rows[1..]| && rows[1..][k] == rest[j];
        assert rows[k + 1] == rest[j];
      }
    }
  }

  /** In time order the rows closed by T come first. */
  lemma EarlyIsPrefix(rows: seq<MarketRow>, T: int)
    requires InTimeOrder(rows)
    ensures Early(rows, T) == rows[..BisectRight(RowCloses(rows), T)]
    ensures forall i :: BisectRight(RowCloses(rows), T) <= i < |rows| ==> rows[i].candle.openMinute + 1 > T
  {
    hide BisectRight, Filter;
    BisectMeaning(RowCloses(rows), T);
    FilterCuts(RowClosedBy(T), rows, BisectRight(RowCloses(rows), T));
  }

  lemma LatestRowCausal(rows: seq<MarketRow>, T: int, clock: int)
    requires InTimeOrder(rows) && clock <= T
    ensures LatestRow(Early(rows, T), clock) == LatestRow(rows, clock)
  {
    hide BisectRight, Early;
    var k := BisectRight(RowCloses(rows), T);
    EarlyIsPrefix(rows, T);
    assert RowCloses(rows[..k]) == RowCloses(rows)[..k];
    BisectPrefix(RowCloses(rows), T, clock);
  }

  lemma SortedInTime(rows: seq<MarketRow>)
    ensures InTimeOrder(Sort(RowOrder(), rows))
  {
    hide StringLe, Sort;
    RowOrderIsPreorder();
    SortSorts(RowOrder(), rows);
    var s := Sort(RowOrder(), rows);
    forall i, j | 0 <= i < j < |s| ensures s[i].candle.openMinute <= s[j].candle.openMinute {
      assert RowOrder()(s[i], s[j]);
    }
  }

  /** An event by T is prepared alike from the rows closed by T and from all rows. */
  lemma InputCausal(rows: seq<MarketRow>, T: int, previous: map<string, real>, e: Event, c: ReplayConfig)
    requires ValidReplay(c) && InTimeOrder(rows) && e.clock <= T
    ensures InputAt(Early(rows, T), previous, e, c) == InputAt(rows, previous, e, c)
  {
    hide HistoriesAt, LatestRow, Context, Early;
    HistoriesCausal(rows, e.symbol, T, e.clock, c);
    HistoriesCausal(rows, BTC, T, e.clock, c);
    SymbolRowsEarly(rows, e.symbol, T);
    FilterKeepsTimeOrder(OfSymbol(e.symbol), rows);
    LatestRowCausal(SymbolRows(rows, e.symbol), T, e.clock);
  }

  lemma SymbolRowsEarly(rows: seq<MarketRow>, symbol: string, T: int)
    ensures SymbolRows(Early(rows, T), symbol) == Early(SymbolRows(rows, symbol), T)
  {
    FiltersCommute(OfSymbol(symbol), RowClosedBy(T), rows);
  }

  // ---------- events ----------

  function EventBy(T: int): Event -> bool {
    (e: Event) => e.clock <= T
  }

  lemma {:induction false} EventsOfSeries(series: seq<Smc.Candle>, symbol: string, T: int)
    ensures SeriesEvents(Filter(CandleClosedBy(T), series), symbol) == Filter(EventBy(T), SeriesEvents(series, symbol))
  {
    hide SeriesEvents;
    if series != [] {
      EventsOfSeries(series[1..], symbol, T);
      var all, kept := SeriesEvents(series, symbol), Filter(CandleClosedBy(T), series[1..]);
      assert all[1..] == SeriesEvents(series[1..], symbol);
      assert SeriesEvents([series[0]] + kept, symbol) == [all[0]] + SeriesEvents(kept, symbol);
    }
  }

  lemma {:induction false} EventsOfEarly(rows: seq<MarketRow>, symbols: seq<string>, T: int)
    ensures EventsOf(Early(rows, T), symbols) == Filter(EventBy(T), EventsOf(rows, symbols))
    decreases |symbols|
  {
    hide SymbolSeries, Early, Filter;
    if symbols == [] {
      FilterNone(EventBy(T), []);
    } else {
      var most, last := symbols[..|symbols| - 1], symbols[|symbols| - 1];
      EventsOfEarly(rows, most, T);
      SymbolSeriesCausal(rows, last, M5, T);
      EventsOfSeries(SymbolSeries(rows, last, M5), last, T);
      FilterConcat(EventBy(T), EventsOf(rows, most), SymbolEvents(rows, last));
    }
  }

  lemma {:induction false} EventsSkipAbsent(rows: seq<MarketRow>, symbols: seq<string>)
    ensures EventsOf(rows, Filter((s: string) => s in Names(rows), symbols)) == EventsOf(rows, symbols)
    decreases |symbols|
  {
    hide SymbolSeries, Names;
    var present := (s: string) => s in Names(rows);
    if symbols == [] {
      FilterNone(present, []);
    } else {
      var most, last := symbols[..|symbols| - 1], symbols[|symbols| - 1];
      EventsSkipAbsent(rows, most);
      assert symbols == most + [last];
      FilterConcat(present, most, [last]);
      var kept := Filter(present, most);
      if present(last) {
        FilterAll(present, [last]);
        assert (kept + [last])[..|kept + [last]| - 1] == kept;
      } else {
        FilterNone(present, [last]);
        assert kept + [] == kept;
        NoRowsNoSeries(rows, last, M5);
      }
    }
  }

  lemma NamesOfEarly(rows: seq<MarketRow>, T: int)
    ensures forall s :: s in Names(Early(rows, T)) ==> s in Names(rows)
  {
    forall s | s in Names(Early(rows, T)) ensures s in Names(rows) {
      var i :| 0 <= i < |Early(rows, T)| && Names(Early(rows, T))[i] == s;
      assert Early(rows, T)[i] in Early(rows, T);
      var k :| 0 <= k < |rows| && rows[k] == Early(rows, T)[i];
      assert Names(rows)[k] == s;
    }
  }

  /** The events of the rows closed by T are exactly the full run's events by T. */
  lemma EventsCausal(rows: seq<MarketRow>, T: int)
    ensures Events(Early(rows, T)) == Filter(EventBy(T), Events(rows))
  {
    hide SymbolSeries, Early, Filter, Sort, Distinct, EventsOf, StringLe;
    NameOrderIsPreorder();
    NamesOfEarly(rows, T);
    SortedDistinctPart(NameOrder(), Names(Early(rows, T)), Names(rows));
    EventsSkipAbsent(Early(rows, T), Symbols(rows));
    EventsOfEarly(rows, Symbols(rows), T);
    EventOrderIsPreorder();
    SortFilters(EventOrder(), EventBy(T), EventsOf(rows, Symbols(rows)));
  }

  /** In clock order the events by T come first. */
  lemma EventsSplit(rows: seq<MarketRow>, T: int) returns (k: nat)
    ensures k <= |Events(rows)| && Filter(EventBy(T), Events(rows)) == Events(rows)[..k]
    ensures forall i :: k <= i < |Events(rows)| ==> Events(rows)[i].clock > T
    ensures forall i :: 0 <= i < k ==> Events(rows)[i].clock <= T
  {
    hide EventsOf, Sort, StringLe;
    var events := Events(rows);
    EventOrderIsPreorder();
    SortSorts(EventOrder(), EventsOf(rows, Symbols(rows)));
    k := 0;
    while k < |events| && events[k].clock <= T
      invariant k <= |events| && forall i :: 0 <= i < k ==> events[i].clock <= T
    {
      k := k + 1;
    }
    forall i | k <= i < |events| ensures events[i].clock > T {
      assert k < i ==> EventOrder()(events[k], events[i]);
    }
    FilterCuts(EventBy(T), events, k);
  }

  // ---------- the run ----------

  lemma {:induction false} RunCausal(rows: seq<MarketRow>, T: int, events: seq<Event>, c: ReplayConfig,
                                     evaluate: ReplayInput -> seq<Candidate>)
    requires ValidReplay(c) && InTimeOrder(rows) && forall i :: 0 <= i < |events| ==> events[i].clock <= T
    ensures RunEvents(Early(rows, T), events, c, evaluate) == RunEvents(rows, events, c, evaluate)
    decreases |events|
  {
    hide InputAt, Early, Numbered;
    if events != [] {
      var most := events[..|events| - 1];
      RunCausal(rows, T, most, c, evaluate);
      InputCausal(rows, T, RunEvents(rows, most, c, evaluate).previous, events[|events| - 1], c);
    }
  }

  lemma InputStamps(rows: seq<MarketRow>, previous: map<string, real>, e: Event, c: ReplayConfig)
    requires ValidReplay(c) && InputAt(rows, previous, e, c).Some?
    ensures InputAt(rows, previous, e, c).value.0.analyzedAt == e.clock
            && InputAt(rows, previous, e, c).value.0.symbol == e.symbol
  {
    hide HistoriesAt, LatestRow, Context, BtcStateAt;
  }

  /** Later events only append candidates, all of them analysed later. */
  lemma {:induction false} RunGrows(rows: seq<MarketRow>, events: seq<Event>, k: nat, T: int, c: ReplayConfig,
                                    evaluate: ReplayInput -> seq<Candidate>)
    requires ValidReplay(c) && Sane(evaluate) && k <= |events|
    requires forall i :: k <= i < |events| ==> events[i].clock > T
    ensures var before, after := RunEvents(rows, events[..k], c, evaluate).candidates,
            RunEvents(rows, events, c, evaluate).candidates;
            before <= after && forall i :: |before| <= i < |after| ==> after[i].candidate.analyzedAt > T
    decreases |events|
  {
    hide InputAt;
    if k == |events| {
      assert events[..k] == events;
    } else {
      var most, last := events[..|events| - 1], events[|events| - 1];
      assert most[..k] == events[..k];
      RunGrows(rows, most, k, T, c, evaluate);
      var s := RunEvents(rows, most, c, evaluate);
      if InputAt(rows, s.previous, last, c).Some? {
        InputStamps(rows, s.previous, last, c);
      }
    }
  }

  lemma RunStamps(rows: seq<MarketRow>, events: seq<Event>, T: int, c: ReplayConfig,
                  evaluate: ReplayInput -> seq<Candidate>)
    requires ValidReplay(c) && Sane(evaluate) && forall i :: 0 <= i < |events| ==> events[i].clock <= T
    ensures var found := RunEvents(rows, events, c, evaluate).candidates;
            forall i :: 0 <= i < |found| ==> found[i].candidate.analyzedAt <= T
  {
    hide RunEvents, Sane;
    FoundSymbols(rows, events, c, evaluate);
    var found := RunEvents(rows, events, c, evaluate).candidates;
    forall i | 0 <= i < |found| ensures found[i].candidate.analyzedAt <= T {
      assert found[i] in found && FromEvent(found[i], events);
    }
  }

  /**
   * Replaying only the rows closed by T gives exactly the full replay's candidates analysed by T: same sequence
   * numbers, same inputs, same order, and every further candidate of the full replay is later than T.
   */
  lemma CandidatesCausal(rows: seq<MarketRow>, T: int, c: ReplayConfig, evaluate: ReplayInput -> seq<Candidate>)
    requires ValidReplay(c) && Sane(evaluate)
    ensures var early, all := Candidates(Early(rows, T), c, evaluate), Candidates(rows, c, evaluate);
            && early <= all
            && (forall i :: 0 <= i < |early| ==> early[i].candidate.analyzedAt <= T)
            && (forall i :: |early| <= i < |all| ==> all[i].candidate.analyzedAt > T)
  {
    hide Events, RunEvents, Sane, Filter, Sort, StringLe;
    var ordered := Sort(RowOrder(), rows);
    RowOrderIsPreorder();
    SortFilters(RowOrder(), RowClosedBy(T), rows);
    assert Sort(RowOrder(), Early(rows, T)) == Early(ordered, T);
    SortedInTime(rows);
    EventsCausal(ordered, T);
    var k := EventsSplit(ordered, T);
    var events := Events(ordered);
    RunCausal(ordered, T, events[..k], c, evaluate);
    RunStamps(ordered, events[..k], T, c, evaluate);
    RunGrows(ordered, events, k, T, c, evaluate);
  }

  // ---------- outcomes ----------

  lemma LaterRows(rows: seq<MarketRow>, k: nat, T: int, c: Candidate)
    requires k <= |rows| && forall i :: k <= i < |rows| ==> rows[i].candle.openMinute + 1 > T
    ensures AllClosedAfter(Filter(Concerns(c), rows[k..]), T)
  {
    hide Filter;
    var later := Filter(Concerns(c), rows[k..]);
    forall i | 0 <= i < |later| ensures later[i].candle.openMinute + 1 > T {
      assert later[i] in later && later[i] in rows[k..];
      var j :| 0 <= j < |rows[k..]| && rows[k..][j] == later[i];
      assert rows[k + j] == later[i];
    }
  }

  /** The early rows that concern a candidate. */
  function KnownRows(rows: seq<MarketRow>, T: int, c: Candidate): seq<MarketRow> {
    Filter(Concerns(c), Early(rows, T))
  }

  lemma KnownRowsClosed(rows: seq<MarketRow>, T: int, c: Candidate)
    ensures AllClosedBy(KnownRows(rows, T, c), T)
  {
    var known := KnownRows(rows, T, c);
    forall i | 0 <= i < |known| ensures known[i].candle.openMinute + 1 <= T {
      assert known[i] in known && known[i] in Early(rows, T);
    }
  }

  lemma ConcernsEarly(rows: seq<MarketRow>, T: int, c: Candidate) returns (later: seq<MarketRow>)
    requires InTimeOrder(rows)
    ensures Filter(Concerns(c), rows) == KnownRows(rows, T, c) + later
    ensures AllClosedAfter(later, T)
  {
    hide BisectRight, Early, Filter, Concerns, InTimeOrder, AllClosedAfter;
    var k := BisectRight(RowCloses(rows), T);
    EarlyIsPrefix(rows, T);
    assert rows == rows[..k] + rows[k..];
    FilterConcat(Concerns(c), rows[..k], rows[k..]);
    LaterRows(rows, k, T, c);
    later := Filter(Concerns(c), rows[k..]);
  }

  /**
   * The early rows settle a candidate if and only if the full run's outcome is known by T: a fill dated by T, an
   * invalidation whose candle closed by T, an expiry with an early row at or after it. Then the two outcomes agree.
   */
  lemma OutcomeCausal(n: nat, c: Candidate, rows: seq<MarketRow>, T: int)
    requires c.plan.Some? && Resolvable(c.plan.value) && InTimeOrder(rows)
    ensures var early, all := OutcomeOf(n, c, Early(rows, T)), OutcomeOf(n, c, rows);
            && (early.status != OutcomeOpen ==> all == early)
            && (early.status != OutcomeOpen <==> KnownBy(c, all, KnownRows(rows, T, c), T))
  {
    hide ResolveFrom, Filter, Early, KnownBy, ExpirySeen, AllClosedBy, AllClosedAfter;
    var later := ConcernsEarly(rows, T, c);
    var known := KnownRows(rows, T, c);
    KnownRowsClosed(rows, T, c);
    NoExpirySeen(c);
    assert [] + known == known;
    SettledIff(n, c, Waiting, known, later, [], T);
    if ResolveFrom(n, c, Waiting, known).status != OutcomeOpen {
      LaterRowsChangeNothing(n, c, Waiting, known, later);
    }
  }

  lemma NoExpirySeen(c: Candidate)
    ensures !ExpirySeen(c, [])
  {
  }

  /** The candidates that get an outcome, in outcome order. */
  function Traded(found: seq<ReplayCandidate>): seq<ReplayCandidate> {
    if found == [] then []
    else
      var before, last := Traded(found[..|found| - 1]), found[|found| - 1];
      if Tradable(last) then before + [last] else before
  }

  /** Exactly the outcomes known by T are settled early, and then for good. */
  ghost predicate SettledExactly(rows: seq<MarketRow>, T: int, traded: seq<ReplayCandidate>, early: seq<Outcome>,
                                 all: seq<Outcome>) {
    && |early| == |traded| <= |all|
    && forall i :: 0 <= i < |early| ==>
                     && (early[i].status != OutcomeOpen ==> all[i] == early[i])
                     && (early[i].status != OutcomeOpen <==>
                           KnownBy(traded[i].candidate, all[i], EarlyRowsOf(rows, T, traded[i].candidate), T))
  }

  /** The early rows of a candidate's symbol that concern it. */
  function EarlyRowsOf(rows: seq<MarketRow>, T: int, c: Candidate): seq<MarketRow> {
    KnownRows(SymbolRows(rows, c.symbol), T, c)
  }

  lemma {:induction false} OutcomesCausal(rows: seq<MarketRow>, found: seq<ReplayCandidate>, T: int)
    requires AllResolvable(found) && InTimeOrder(rows)
    ensures SettledExactly(rows, T, Traded(found), Outcomes(Early(rows, T), found), Outcomes(rows, found))
    ensures |Outcomes(Early(rows, T), found)| == |Outcomes(rows, found)|
    decreases |found|
  {
    hide OutcomeOf, SymbolRows, Early, Resolvable, KnownBy, KnownRows;
    if found != [] {
      var most, last := found[..|found| - 1], found[|found| - 1];
      OutcomesCausal(rows, most, T);
      if Tradable(last) {
        SymbolRowsEarly(rows, last.candidate.symbol, T);
        SymbolRowsInOrder(rows, last.candidate.symbol);
        OutcomeCausal(last.sequence, last.candidate, SymbolRows(rows, last.candidate.symbol), T);
      }
    }
  }

  lemma SymbolRowsInOrder(rows: seq<MarketRow>, symbol: string)
    requires InTimeOrder(rows)
    ensures InTimeOrder(SymbolRows(rows, symbol))
  {
    FilterKeepsTimeOrder(OfSymbol(symbol), rows);
  }

  lemma {:induction false} OutcomesPrefix(rows: seq<MarketRow>, found: seq<ReplayCandidate>, k: nat)
    requires AllResolvable(found) && k <= |found|
    ensures AllResolvable(found[..k]) && Outcomes(rows, found[..k]) <= Outcomes(rows, found)
    decreases |found|
  {
    hide OutcomeOf, Resolvable;
    if k == |found| {
      assert found[..k] == found;
    } else {
      var most := found[..|found| - 1];
      assert most[..k] == found[..k];
      OutcomesPrefix(rows, most, k);
    }
  }

  /**
   * The whole statement: candidates as above, and exactly the outcomes known by T are settled early, and then for good.
   */
  lemma ReplayIsCausal(rows: seq<MarketRow>, T: int, c: ReplayConfig, evaluate: ReplayInput -> seq<Candidate>)
    requires ValidReplay(c) && Sane(evaluate)
    ensures var early, all := Candidates(Early(rows, T), c, evaluate), Candidates(rows, c, evaluate);
            && early <= all && AllResolvable(early) && AllResolvable(all)
            && (forall i :: 0 <= i < |early| ==> early[i].candidate.analyzedAt <= T)
            && (forall i :: |early| <= i < |all| ==> all[i].candidate.analyzedAt > T)
            && SettledExactly(Sort(RowOrder(), rows), T, Traded(early),
                              Outcomes(Sort(RowOrder(), Early(rows, T)), early), Outcomes(Sort(RowOrder(), rows), all))
  {
    hide Events, RunEvents, Sane, Sort, StringLe, Outcomes, Resolvable, Early;
    var early, all := Candidates(Early(rows, T), c, evaluate), Candidates(rows, c, evaluate);
    CandidatesCausal(rows, T, c, evaluate);
    FoundIsResolvable(Sort(RowOrder(), rows), Events(Sort(RowOrder(), rows)), c, evaluate);
    RowOrderIsPreorder();
    EarlyOrdered(rows, T);
    SortedInTime(rows);
    assert early == all[..|early|];
    OutcomesPrefix(Sort(RowOrder(), rows), all, |early|);
    OutcomesCausal(Sort(RowOrder(), rows), early, T);
  }

  lemma EarlyOrdered(rows: seq<MarketRow>, T: int)
    ensures Sort(RowOrder(), Early(rows, T)) == Early(Sort(RowOrder(), rows), T)
  {
    RowOrderIsPreorder();
    SortFilters(RowOrder(), RowClosedBy(T), rows);
  }

  // ---------- input order ----------

  /** What the loader rejects: two rows for one symbol and minute. */
  predicate UniqueRows(rows: seq<MarketRow>) {
    forall i, j :: 0 <= i < j < |rows| ==>
                     rows[i].candle.symbol != rows[j].candle.symbol
                       || rows[i].candle.openMinute != rows[j].candle.openMinute
  }

  /** Any two orders of the same rows replay alike. */
  lemma ReplayIgnoresOrder(a: seq<MarketRow>, b: seq<MarketRow>, c: ReplayConfig,
                           evaluate: ReplayInput -> seq<Candidate>)
    requires ValidReplay(c) && Sane(evaluate) && UniqueRows(a) && multiset(a) == multiset(b)
    ensures Sort(RowOrder(), a) == Sort(RowOrder(), b)
    ensures Candidates(a, c, evaluate) == Candidates(b, c, evaluate)
  {
    hide Events, RunEvents, Sort, StringLe;
    RowOrderIsPreorder();
    NameOrderIsPreorder();
    forall x, y | x in a && y in a && RowOrder()(x, y) && RowOrder()(y, x) ensures x == y {
      assert NameOrder()(x.candle.symbol, y.candle.symbol) && NameOrder()(y.candle.symbol, x.candle.symbol);
      var i :| 0 <= i < |a| && a[i] == x;
      var j :| 0 <= j < |a| && a[j] == y;
    }
    SortPermutation(RowOrder(), a, b);
  }
}
