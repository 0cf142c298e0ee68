/** The replay as the program runs it: dictionaries, a cache and one loop over the events. */
module ReplayLoop {
  import opened Wrappers
  import opened Sequences
  import opened MarketModels
  import opened CandleAggregation
  import opened ReplayAggregation
  import opened ReplayLifecycle
  import opened Evaluator
  import opened ReplayRunner
  import SmcStatistics
  import Smc = SmcModels

  type Aggregates = map<string, map<Timeframe, seq<Smc.Candle>>>

  /** The aggregate dictionary holds, for every symbol with rows, its series in every timeframe. */
  ghost predicate Holds(a: Aggregates, rows: seq<MarketRow>) {
    && (forall s :: s in a <==> s in Names(rows))
    && (forall s, tf :: s in a ==> tf in a[s] && a[s][tf] == SymbolSeries(rows, s, tf))
  }

  method AggregateSymbol(candles: seq<Candle1m>) returns (byTimeframe: map<Timeframe, seq<Smc.Candle>>)
    ensures forall tf :: tf in byTimeframe && byTimeframe[tf] == Series(candles, tf)
  {
    hide Series;
    var m5 := AggregateTimeframe(candles, M5);
    var m15 := AggregateTimeframe(candles, M15);
    var h1 := AggregateTimeframe(candles, H1);
    var h4 := AggregateTimeframe(candles, H4);
    byTimeframe := map[M5 := m5, M15 := m15, H1 := h1, H4 := h4];
    forall tf ensures tf in byTimeframe && byTimeframe[tf] == Series(candles, tf) {
      match tf
      case M5 =>
      case M15 =>
      case H1 =>
      case H4 =>
    }
  }

  method BuildReplayAggregates(rows: seq<MarketRow>) returns (aggregates: Aggregates)
    ensures Holds(aggregates, rows)
  {
    hide Series, Distinct, Filter, Sort;
    var candles := CandlesOf(rows);
    var key := (c: Candle1m) => c.symbol;
    var keys, bySymbol := GroupBy(key, candles);
    assert Mapped(key, candles) == Names(rows);
    var symbols := Sort(NameOrder(), keys);
    SortMembers(NameOrder(), keys);
    aggregates := map[];
    for i := 0 to |symbols|
      invariant forall s :: s in aggregates <==> s in symbols[..i]
      invariant forall s, tf :: s in aggregates ==>
                  tf in aggregates[s] && aggregates[s][tf] == SymbolSeries(rows, s, tf)
    {
      assert symbols[..i + 1] == symbols[..i] + [symbols[i]];
      assert symbols[i] in symbols;
      FilterSame(HasKey(key, symbols[i]), HasSymbol(symbols[i]), candles);
      var byTimeframe := AggregateSymbol(bySymbol[symbols[i]]);
      aggregates := aggregates[symbols[i] := byTimeframe];
    }
    assert symbols[..|symbols|] == symbols;
  }

  method LoadHistories(aggregates: Aggregates, ghost rows: seq<MarketRow>, symbol: string, clock: int, c: ReplayConfig)
    returns (r: Option<Histories>)
    requires Holds(aggregates, rows) && symbol in aggregates
    ensures r == HistoriesAt(rows, symbol, clock, c)
  {
    hide SymbolSeries, HistoryAt;
    var timeframes := [H4, H1, M15, M5];
    var found: map<Timeframe, seq<Smc.Candle>> := map[];
    for i := 0 to 4
      invariant forall k :: 0 <= k < i ==>
                  timeframes[k] in found && Some(found[timeframes[k]])
                  == HistoryAt(SymbolSeries(rows, symbol, timeframes[k]), clock, c)
    {
      var history := HistoryAt(aggregates[symbol][timeframes[i]], clock, c);
      if history.None? {
        assert timeframes[i] in {H4, H1, M15, M5};
        return None;
      }
      found := found[timeframes[i] := history.value];
    }
    assert timeframes[0] == H4 && timeframes[1] == H1 && timeframes[2] == M15 && timeframes[3] == M5;
    r := Some(Histories(found[H4], found[H1], found[M15], found[M5]));
  }

  lemma {:induction false} NoRowsNoSeries(rows: seq<MarketRow>, symbol: string, tf: Timeframe)
    requires symbol !in Names(rows)
    ensures SymbolSeries(rows, symbol, tf) == []
  {
    forall k | k in CandlesOf(rows) ensures !HasSymbol(symbol)(k) {
      var i :| 0 <= i < |rows| && CandlesOf(rows)[i] == k;
      assert Names(rows)[i] in Names(rows);
    }
    FilterNone(HasSymbol(symbol), CandlesOf(rows));
  }

  lemma NoSeriesNoHistory(clock: int, c: ReplayConfig)
    requires c.minimumHistory >= 1
    ensures HistoryAt([], clock, c) == None
  {
  }

  method BtcState(aggregates: Aggregates, ghost rows: seq<MarketRow>, clock: int,
                  c: ReplayConfig) returns (r: (Option<real>, Option<real>))
    requires ValidReplay(c) && Holds(aggregates, rows)
    ensures r == BtcStateAt(rows, clock, c)
  {
    hide SymbolSeries, HistoryAt, SmcStatistics.Atr, LatestAtr;
    if BTC !in aggregates {
      NoRowsNoSeries(rows, BTC, H4);
      NoSeriesNoHistory(clock, c);
      return (None, None);
    }
    var histories := LoadHistories(aggregates, rows, BTC, clock, c);
    if histories.None? {
      return (None, None);
    }
    var candle := histories.value.m5[|histories.value.m5| - 1];
    var btcReturn := if candle.openPrice > 0.0 then Some((candle.closePrice - candle.openPrice) / candle.openPrice)
      else None;
    var ranges := SmcStatistics.AverageTrueRange(histories.value.m5, c.atrPeriod);
    var atr := LatestAtr(ranges);
    r := (btcReturn, RangeRatio(candle, atr));
  }

  method ListEvents(aggregates: Aggregates, rows: seq<MarketRow>) returns (events: seq<Event>)
    requires Holds(aggregates, rows)
    ensures events == Events(rows)
  {
    hide SymbolSeries, Sort, Distinct;
    var symbols := Symbols(rows);
    SortMembers(NameOrder(), Distinct(Names(rows)));
    events := [];
    for i := 0 to |symbols|
      invariant events == EventsOf(rows, symbols[..i])
    {
      assert symbols[..i + 1][..i] == symbols[..i] && symbols[i] in symbols;
      var series := aggregates[symbols[i]][M5];
      for k := 0 to |series|
        invariant events == EventsOf(rows, symbols[..i]) + SymbolEvents(rows, symbols[i])[..k]
      {
        events := events + [Event(series[k].closeTime, symbols[i])];
      }
      assert SymbolEvents(rows, symbols[i])[..|series|] == SymbolEvents(rows, symbols[i]);
    }
    assert symbols[..|symbols|] == symbols;
    events := Sort(EventOrder(), events);
  }

  lemma EventSymbols(rows: seq<MarketRow>)
    ensures forall e :: e in Events(rows) ==> e.symbol in Names(rows)
  {
    hide SymbolSeries, Distinct;
    SortMembers(EventOrder(), EventsOf(rows, Symbols(rows)));
    SortMembers(NameOrder(), Distinct(Names(rows)));
    EventsOfSymbols(rows, Symbols(rows));
  }

  lemma {:induction false} EventsOfSymbols(rows: seq<MarketRow>, symbols: seq<string>)
    ensures forall e :: e in EventsOf(rows, symbols) ==> e.symbol in symbols
    decreases |symbols|
  {
    hide SymbolSeries;
    if symbols != [] {
      EventsOfSymbols(rows, symbols[..|symbols| - 1]);
    }
  }

  method GroupRows(rows: seq<MarketRow>) returns (bySymbol: map<string, seq<MarketRow>>)
    ensures forall s :: s in bySymbol <==> s in Names(rows)
    ensures forall s :: s in bySymbol ==> bySymbol[s] == SymbolRows(rows, s)
  {
    hide Filter, Distinct;
    var key := (r: MarketRow) => r.candle.symbol;
    var keys;
    keys, bySymbol := GroupBy(key, rows);
    assert Mapped(key, rows) == Names(rows);
    forall s ensures Filter(HasKey(key, s), rows) == SymbolRows(rows, s) {
      FilterSame(HasKey(key, s), OfSymbol(s), rows);
    }
  }

  // ---------- the event loop ----------

  /** The cache holds, for every moment it has seen, the market leader's state at that moment. */
  ghost predicate Cached(cache: map<int, (Option<real>, Option<real>)>, rows: seq<MarketRow>, c: ReplayConfig)
    requires ValidReplay(c)
  {
    forall t :: t in cache ==> cache[t] == BtcStateAt(rows, t, c)
  }

  method PrepareInput(aggregates: Aggregates, bySymbol: map<string, seq<MarketRow>>, ghost rows: seq<MarketRow>,
                      cache: map<int, (Option<real>, Option<real>)>, previous: map<string, real>, e: Event,
                        c: ReplayConfig)
    returns (x: Option<(ReplayInput, MarketRow)>, cached: map<int, (Option<real>, Option<real>)>)
    requires ValidReplay(c) && Holds(aggregates, rows) && Cached(cache, rows, c) && e.symbol in aggregates
    requires e.symbol in bySymbol && bySymbol[e.symbol] == SymbolRows(rows, e.symbol)
    ensures x == InputAt(rows, previous, e, c) && Cached(cached, rows, c)
  {
    hide HistoriesAt, BtcStateAt, SymbolRows, Holds, BisectRight, LatestVolumeRatio;
    cached := cache;
    var histories := LoadHistories(aggregates, rows, e.symbol, e.clock, c);
    if histories.None? {
      return None, cached;
    }
    var end := BisectRight(RowCloses(bySymbol[e.symbol]), e.clock);
    if end == 0 {
      return None, cached;
    }
    var row, h := bySymbol[e.symbol][end - 1], histories.value;
    if e.clock !in cached {
      var state := BtcState(aggregates, rows, e.clock, c);
      cached := cached[e.clock := state];
    }
    var btc := cached[e.clock];
    var change := None;
    if row.openInterest.Some? {
      var before := Lookup(previous, e.symbol);
      if before.Some? && before.value > 0.0 {
        change := Some((row.openInterest.value - before.value) / before.value);
      }
    }
    x := Some((ReplayInput(e.symbol, e.clock, h, Context(row, h, change, btc, c), Cutoffs(h)), row));
  }

  lemma {:induction false} FoundIsResolvable(rows: seq<MarketRow>, events: seq<Event>, c: ReplayConfig,
                                             evaluate: ReplayInput -> seq<Candidate>)
    requires ValidReplay(c) && Sane(evaluate)
    ensures AllResolvable(RunEvents(rows, events, c, evaluate).candidates)
    decreases |events|
  {
    hide InputAt, Resolvable;
    if events != [] {
      FoundIsResolvable(rows, events[..|events| - 1], c, evaluate);
    }
  }

  lemma OutcomesMore(rows: seq<MarketRow>, found: seq<ReplayCandidate>, k: nat)
    requires AllResolvable(found) && k < |found|
    ensures AllResolvable(found[..k]) && AllResolvable(found[..k + 1])
    ensures Outcomes(rows, found[..k + 1])
            == Outcomes(rows, found[..k])
               + if Tradable(found[k])
                 then [OutcomeOf(found[k].sequence, found[k].candidate, SymbolRows(rows, found[k].candidate.symbol))]
                 else []
  {
    hide OutcomeOf, Resolvable;
    assert found[..k + 1][..k] == found[..k];
  }

  method RunReplay(rows: seq<MarketRow>, c: ReplayConfig, evaluate: ReplayInput -> seq<Candidate>)
    returns (found: seq<ReplayCandidate>, outcomes: seq<Outcome>)
    requires ValidReplay(c) && Sane(evaluate)
    ensures found == Candidates(rows, c, evaluate) && AllResolvable(found)
    ensures outcomes == Outcomes(Sort(RowOrder(), rows), found)
  {
    hide InputAt, Holds, Cached, Events, SymbolRows, OutcomeOf, Sane, Resolvable, Sort, Numbered;
    var ordered := Sort(RowOrder(), rows);
    var aggregates := BuildReplayAggregates(ordered);
    var bySymbol := GroupRows(ordered);
    var events := ListEvents(aggregates, ordered);
    EventSymbols(ordered);
    HoldsSymbols(aggregates, ordered);
    found := [];
    var sequence: nat := 1;
    var previous: map<string, real> := map[];
    var cache: map<int, (Option<real>, Option<real>)> := map[];
    EmptyCache(ordered, c);
    for i := 0 to |events|
      invariant ReplayState(found, sequence, previous) == RunEvents(ordered, events[..i], c, evaluate)
      invariant Cached(cache, ordered, c)
    {
      assert events[..i + 1][..i] == events[..i] && events[i] in events;
      var e, x := events[i], None;
      x, cache := PrepareInput(aggregates, bySymbol, ordered, cache, previous, e, c);
      if x.None? {
        continue;
      }
      var candidates := evaluate(x.value.0);
      found := found + Numbered(candidates, sequence, x.value.0.cutoffs);
      sequence := sequence + |candidates|;
      if x.value.1.openInterest.Some? {
        previous := previous[e.symbol := x.value.1.openInterest.value];
      }
    }
    assert events[..|events|] == events;
    FoundIsResolvable(ordered, events, c, evaluate);
    outcomes := [];
    FoundSymbols(ordered, events, c, evaluate);
    for k := 0 to |found|
      invariant AllResolvable(found[..k]) && outcomes == Outcomes(ordered, found[..k])
    {
      OutcomesMore(ordered, found, k);
      var item := found[k];
      assert item in found && FromEvent(item, events);
      if item.candidate.accepted && item.candidate.plan.Some? {
        var outcome := ResolveCandidate(item.sequence, item.candidate, bySymbol[item.candidate.symbol]);
        outcomes := outcomes + [outcome.value];
      }
    }
    assert found[..|found|] == found;
  }

  lemma HoldsSymbols(aggregates: Aggregates, rows: seq<MarketRow>)
    requires Holds(aggregates, rows)
    ensures forall s :: s in aggregates <==> s in Names(rows)
  {
  }

  lemma EmptyCache(rows: seq<MarketRow>, c: ReplayConfig)
    requires ValidReplay(c)
    ensures Cached(map[], rows, c)
  {
  }

  predicate FromEvent(r: ReplayCandidate, events: seq<Event>) {
    exists i :: 0 <= i < |events| && events[i].symbol == r.candidate.symbol && events[i].clock == r.candidate.analyzedAt
  }

  /** Every candidate belongs to an event, hence to a symbol some row named. */
  lemma {:induction false} FoundSymbols(rows: seq<MarketRow>, events: seq<Event>, c: ReplayConfig,
                                        evaluate: ReplayInput -> seq<Candidate>)
    requires ValidReplay(c) && Sane(evaluate)
    ensures forall r :: r in RunEvents(rows, events, c, evaluate).candidates ==> FromEvent(r, events)
    decreases |events|
  {
    hide HistoriesAt, LatestRow, Context;
    if events != [] {
      var most, last := events[..|events| - 1], events[|events| - 1];
      FoundSymbols(rows, most, c, evaluate);
      forall r | r in RunEvents(rows, events, c, evaluate).candidates ensures FromEvent(r, events) {
        if r in RunEvents(rows, most, c, evaluate).candidates {
          var i :| 0 <= i < |most| && most[i].symbol == r.candidate.symbol && most[i].clock == r.candidate.analyzedAt;
          assert events[i] == most[i];
        } else {
          assert last.symbol == r.candidate.symbol;
        }
      }
    }
  }
}
