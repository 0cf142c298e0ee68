/** The replay: every five-minute close is evaluated on what had closed by then. */
module ReplayRunner {
  import opened Wrappers
  import opened Sequences
  import opened MarketModels
  import opened CandleAggregation
  import opened ReplayAggregation
  import opened ReplayLifecycle
  import opened Evaluator
  import SmcStatistics
  import Smc = SmcModels

  datatype ReplayConfig = ReplayConfig(
    historyCandles: nat, minimumHistory: nat, maxLeverage: real, quantityStep: real, minimumNotional: real,
      atrPeriod: nat)

  /** What the configuration's constructor enforces. */
  predicate ValidReplay(c: ReplayConfig) {
    && c.historyCandles >= c.minimumHistory >= 1 && c.atrPeriod >= 1
    && c.maxLeverage >= 1.0 && c.quantityStep > 0.0 && c.minimumNotional >= 0.0
  }

  datatype Histories = Histories(h4: seq<Smc.Candle>, h1: seq<Smc.Candle>, m15: seq<Smc.Candle>, m5: seq<Smc.Candle>)

  /** What one evaluation sees. Analysing the histories and scoring both directions is left to the evaluation. */
  datatype ReplayInput = ReplayInput(symbol: string, analyzedAt: int, histories: Histories, market: MarketContext,
    cutoffs: seq<int>)

  datatype ReplayCandidate = ReplayCandidate(sequence: nat, candidate: Candidate, cutoffs: seq<int>)

  /** A five-minute close of one symbol. */
  datatype Event = Event(clock: int, symbol: string)

  datatype ReplayState = ReplayState(candidates: seq<ReplayCandidate>, sequence: nat, previous: map<string, real>)

  const BTC := "BTCUSDT"
  const TAKER_FEE_RATE := 0.00055

  // ---------- ordering and grouping ----------

  function RowOrder(): (MarketRow, MarketRow) -> bool {
    (a: MarketRow, b: MarketRow) =>
      if a.candle.openMinute != b.candle.openMinute then a.candle.openMinute < b.candle.openMinute
      else StringLe(a.candle.symbol, b.candle.symbol)
  }

  function EventOrder(): (Event, Event) -> bool {
    (a: Event, b: Event) => if a.clock != b.clock then a.clock < b.clock else StringLe(a.symbol, b.symbol)
  }

  function NameOrder(): (string, string) -> bool {
    (a: string, b: string) => StringLe(a, b)
  }

  function OfSymbol(symbol: string): MarketRow -> bool {
    (r: MarketRow) => r.candle.symbol == symbol
  }

  function HasSymbol(symbol: string): Candle1m -> bool {
    (c: Candle1m) => c.symbol == symbol
  }

  function SymbolRows(rows: seq<MarketRow>, symbol: string): seq<MarketRow> {
    Filter(OfSymbol(symbol), rows)
  }

  function SymbolSeries(rows: seq<MarketRow>, symbol: string, tf: Timeframe): seq<Smc.Candle> {
    Series(Filter(HasSymbol(symbol), CandlesOf(rows)), tf)
  }

  function Names(rows: seq<MarketRow>): (r: seq<string>)
    ensures |r| == |rows| && forall i :: 0 <= i < |r| ==> r[i] == rows[i].candle.symbol
  {
    seq(|rows|, i requires 0 <= i < |rows| => rows[i].candle.symbol)
  }

  function Symbols(rows: seq<MarketRow>): seq<string> {
    Sort(NameOrder(), Distinct(Names(rows)))
  }

  function SeriesEvents(series: seq<Smc.Candle>, symbol: string): (r: seq<Event>)
    ensures |r| == |series| && forall i :: 0 <= i < |r| ==> r[i] == Event(series[i].closeTime, symbol)
  {
    seq(|series|, i requires 0 <= i < |series| => Event(series[i].closeTime, symbol))
  }

  function SymbolEvents(rows: seq<MarketRow>, symbol: string): seq<Event> {
    SeriesEvents(SymbolSeries(rows, symbol, M5), symbol)
  }

  function EventsOf(rows: seq<MarketRow>, symbols: seq<string>): seq<Event> {
    if symbols == [] then [] else EventsOf(rows, symbols[..|symbols| - 1]) + SymbolEvents(rows, symbols[|symbols| - 1])
  }

  function Events(rows: seq<MarketRow>): seq<Event> {
    Sort(EventOrder(), EventsOf(rows, Symbols(rows)))
  }

  // ---------- what had closed by a moment ----------

  /** The standard library's bisection on an ordered list: the position after the last entry not above x. */
  function BisectRight(times: seq<int>, x: int): (r: nat)
    ensures r <= |times|
  {
    if times == [] then 0
    else if times[|times| - 1] <= x then |times|
    else BisectRight(times[..|times| - 1], x)
  }

  function Closes(series: seq<Smc.Candle>): (r: seq<int>)
    ensures |r| == |series| && forall i :: 0 <= i < |r| ==> r[i] == series[i].closeTime
  {
    seq(|series|, i requires 0 <= i < |series| => series[i].closeTime)
  }

  function RowCloses(rows: seq<MarketRow>): (r: seq<int>)
    ensures |r| == |rows| && forall i :: 0 <= i < |r| ==> r[i] == rows[i].candle.openMinute + 1
  {
    seq(|rows|, i requires 0 <= i < |rows| => rows[i].candle.openMinute + 1)
  }

  /** The last candles of a series at a moment, if there are enough. */
  function HistoryAt(series: seq<Smc.Candle>, clock: int, c: ReplayConfig): (r: Option<seq<Smc.Candle>>)
    ensures r.Some? ==> |r.value| >= c.minimumHistory
  {
    var end := BisectRight(Closes(series), clock);
    var start := if end < c.historyCandles then 0 else end - c.historyCandles;
    if end - start < c.minimumHistory then None else Some(series[start..end])
  }

  function HistoriesAt(rows: seq<MarketRow>, symbol: string, clock: int, c: ReplayConfig): (r: Option<Histories>)
    ensures r.Some? && c.minimumHistory >= 1 ==>
              r.value.h4 != [] && r.value.h1 != [] && r.value.m15 != [] && r.value.m5 != []
  {
    var h4, h1 := HistoryAt(SymbolSeries(rows, symbol, H4), clock, c),
      HistoryAt(SymbolSeries(rows, symbol, H1), clock, c);
    var m15, m5 := HistoryAt(SymbolSeries(rows, symbol, M15), clock, c),
      HistoryAt(SymbolSeries(rows, symbol, M5), clock, c);
    if h4.Some? && h1.Some? && m15.Some? && m5.Some? then Some(Histories(h4.value, h1.value, m15.value, m5.value))
      else None
  }

  function LatestRow(rows: seq<MarketRow>, clock: int): Option<MarketRow> {
    var end := BisectRight(RowCloses(rows), clock);
    if end == 0 then None else Some(rows[end - 1])
  }

  function BtcReturn(c: Smc.Candle): Option<real> {
    if c.openPrice > 0.0 then Some((c.closePrice - c.openPrice) / c.openPrice) else None
  }

  function RangeRatio(c: Smc.Candle, atr: Option<real>): Option<real> {
    if atr.Some? && atr.value > 0.0 then Some(c.Range() / atr.value) else None
  }

  function BtcStateAt(rows: seq<MarketRow>, clock: int, c: ReplayConfig): (Option<real>, Option<real>)
    requires ValidReplay(c)
  {
    var h := HistoriesAt(rows, BTC, clock, c);
    if h.None? then (None, None)
    else
      var last := h.value.m5[|h.value.m5| - 1];
      (BtcReturn(last), RangeRatio(last, LatestAtr(SmcStatistics.Atr(h.value.m5, c.atrPeriod))))
  }

  function Volumes(candles: seq<Smc.Candle>): (r: seq<real>)
    ensures |r| == |candles| && forall i :: 0 <= i < |r| ==> r[i] == candles[i].volume
  {
    seq(|candles|, i requires 0 <= i < |candles| => candles[i].volume)
  }

  /** The last volume against the mean of the twenty before it. */
  function LatestVolumeRatio(candles: seq<Smc.Candle>): Option<real> {
    if |candles| <= 20 then None
    else
      var baseline := SmcStatistics.Sum(Volumes(candles[|candles| - 21..|candles| - 1])) / 20.0;
      if baseline > 0.0 then Some(candles[|candles| - 1].volume / baseline) else None
  }

  // ---------- one event ----------

  function OpenInterestChange(row: MarketRow, previous: Option<real>): Option<real> {
    if row.openInterest.Some? && previous.Some? && previous.value > 0.0
    then Some((row.openInterest.value - previous.value) / previous.value)
    else None
  }

  function Lookup(previous: map<string, real>, symbol: string): Option<real> {
    if symbol in previous then Some(previous[symbol]) else None
  }

  function Remember(previous: map<string, real>, symbol: string, row: MarketRow): map<string, real> {
    if row.openInterest.Some? then previous[symbol := row.openInterest.value] else previous
  }

  function Context(row: MarketRow, h: Histories, change: Option<real>, btc: (Option<real>, Option<real>),
                   c: ReplayConfig): MarketContext {
    MarketContext(row.candle.closePrice, LatestVolumeRatio(h.m15), change, row.fundingRate, row.spreadBps,
      row.turnover24h,
                  btc.0, btc.1, TAKER_FEE_RATE, row.maxLeverage.GetOr(c.maxLeverage),
                    row.quantityStep.GetOr(c.quantityStep),
                  row.minimumNotional.GetOr(c.minimumNotional))
  }

  function Cutoffs(h: Histories): seq<int>
    requires h.h4 != [] && h.h1 != [] && h.m15 != [] && h.m5 != []
  {
    [h.h4[|h.h4| - 1].closeTime, h.h1[|h.h1| - 1].closeTime, h.m15[|h.m15| - 1].closeTime, h.m5[|h.m5| - 1].closeTime]
  }

  /** What the evaluation sees at an event, or None when the event is skipped. */
  function InputAt(rows: seq<MarketRow>, previous: map<string, real>, e: Event, c: ReplayConfig): Option<(ReplayInput,
                   MarketRow)>
    requires ValidReplay(c)
  {
    var h, row := HistoriesAt(rows, e.symbol, e.clock, c), LatestRow(SymbolRows(rows, e.symbol), e.clock);
    if h.None? || row.None? then None
    else
      var change := OpenInterestChange(row.value, Lookup(previous, e.symbol));
      Some((ReplayInput(e.symbol, e.clock, h.value,
        Context(row.value, h.value, change, BtcStateAt(rows, e.clock, c), c), Cutoffs(h.value)),
            row.value))
  }

  function Numbered(found: seq<Candidate>, first: nat, cutoffs: seq<int>): (r: seq<ReplayCandidate>)
    ensures |r| == |found| && forall i :: 0 <= i < |r| ==> r[i] == ReplayCandidate(first + i, found[i], cutoffs)
  {
    seq(|found|, i requires 0 <= i < |found| => ReplayCandidate(first + i, found[i], cutoffs))
  }

  function StepEvent(rows: seq<MarketRow>, s: ReplayState, e: Event, c: ReplayConfig,
                     evaluate: ReplayInput -> seq<Candidate>): ReplayState
    requires ValidReplay(c)
  {
    var x := InputAt(rows, s.previous, e, c);
    if x.None? then s
    else
      var found := evaluate(x.value.0);
      ReplayState(s.candidates + Numbered(found, s.sequence, x.value.0.cutoffs), s.sequence + |found|,
                  Remember(s.previous, e.symbol, x.value.1))
  }

  function RunEvents(rows: seq<MarketRow>, events: seq<Event>, c: ReplayConfig,
                     evaluate: ReplayInput -> seq<Candidate>): ReplayState
    requires ValidReplay(c)
    decreases |events|
  {
    if events == [] then ReplayState([], 1, map[])
    else StepEvent(rows, RunEvents(rows, events[..|events| - 1], c, evaluate), events[|events| - 1], c, evaluate)
  }

  /** The evaluation stamps its input's symbol and time, and any plan it makes can be resolved. */
  ghost predicate Sane(evaluate: ReplayInput -> seq<Candidate>) {
    forall x, i :: 0 <= i < |evaluate(x)| ==>
                     && evaluate(x)[i].analyzedAt == x.analyzedAt && evaluate(x)[i].symbol == x.symbol
                     && (evaluate(x)[i].plan.Some? ==> Resolvable(evaluate(x)[i].plan.value))
  }

  predicate AllResolvable(found: seq<ReplayCandidate>) {
    forall i :: 0 <= i < |found| ==> found[i].candidate.plan.Some? ==> Resolvable(found[i].candidate.plan.value)
  }

  predicate Tradable(r: ReplayCandidate) {
    r.candidate.accepted && r.candidate.plan.Some?
  }

  /** One outcome for every accepted candidate, in candidate order. */
  function Outcomes(rows: seq<MarketRow>, found: seq<ReplayCandidate>): seq<Outcome>
    requires AllResolvable(found)
    decreases |found|
  {
    if found == [] then []
    else
      var before, last := Outcomes(rows, found[..|found| - 1]), found[|found| - 1];
      if Tradable(last)
        then before + [OutcomeOf(last.sequence, last.candidate, SymbolRows(rows, last.candidate.symbol))] else before
  }

  function Candidates(rows: seq<MarketRow>, c: ReplayConfig,
                      evaluate: ReplayInput -> seq<Candidate>): seq<ReplayCandidate>
    requires ValidReplay(c)
  {
    var ordered := Sort(RowOrder(), rows);
    RunEvents(ordered, Events(ordered), c, evaluate).candidates
  }
}
