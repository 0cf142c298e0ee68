/** From one-minute candles to 5m, 15m, 1h and 4h candles. */
module CandleAggregation {
  import opened Wrappers
  import opened MarketModels
  import opened Sequences

  datatype Timeframe = M5 | M15 | H1 | H4

  function Minutes(tf: Timeframe): nat {
    match tf
    case M5 => 5
    case M15 => 15
    case H1 => 60
    case H4 => 240
  }

  datatype AggregatedCandle = AggregatedCandle(
    symbol: string, timeframe: Timeframe, openMinute: int, closeMinute: int,
    openPrice: real, highPrice: real, lowPrice: real, closePrice: real,
    volume: real, turnover: real, sourceCount: nat)

  /** How far a minute lies inside its interval: the remainder by the interval's length. */
  function Offset(minute: int, tf: Timeframe): nat {
    match tf
    case M5 => minute % 5
    case M15 => minute % 15
    case H1 => minute % 60
    case H4 => minute % 240
  }

  function IntervalStart(minute: int, tf: Timeframe): int {
    minute - Offset(minute, tf)
  }

  function IntervalEnd(start: int, tf: Timeframe): int {
    IntervalStart(start, tf) + Minutes(tf)
  }

  function ByOpen(): (Candle1m, Candle1m) -> bool {
    (a: Candle1m, b: Candle1m) => a.openMinute <= b.openMinute
  }

  function Highest(s: seq<Candle1m>): real
    requires s != []
  {
    if |s| == 1 then s[0].highPrice
    else
      var rest := Highest(s[1..]);
      if s[0].highPrice < rest then rest else s[0].highPrice
  }

  function Lowest(s: seq<Candle1m>): real
    requires s != []
  {
    if |s| == 1 then s[0].lowPrice
    else
      var rest := Lowest(s[1..]);
      if rest < s[0].lowPrice then rest else s[0].lowPrice
  }

  function TotalVolume(s: seq<Candle1m>): real {
    if s == [] then 0.0 else s[0].volume + TotalVolume(s[1..])
  }

  function TotalTurnover(s: seq<Candle1m>): real {
    if s == [] then 0.0 else s[0].turnover + TotalTurnover(s[1..])
  }

  predicate OneSymbol(s: seq<Candle1m>) {
    forall i :: 0 <= i < |s| ==> s[i].symbol == s[0].symbol
  }

  predicate EveryMinute(s: seq<Candle1m>, start: int) {
    forall i :: 0 <= i < |s| ==> s[i].openMinute == start + i
  }

  /** One symbol, one candle for every minute from `start` on. */
  predicate Contiguous(s: seq<Candle1m>, start: int) {
    OneSymbol(s) && EveryMinute(s, start)
  }

  /** The aggregate of an ordered, complete run of minutes. */
  function Summary(s: seq<Candle1m>, tf: Timeframe, start: int): AggregatedCandle
    requires s != []
  {
    AggregatedCandle(s[0].symbol, tf, start, start + Minutes(tf), s[0].openPrice, Highest(s), Lowest(s),
                     s[|s| - 1].closePrice, TotalVolume(s), TotalTurnover(s), Minutes(tf))
  }

  function AggregateCandles(candles: seq<Candle1m>, tf: Timeframe, expected: Option<int>): (r: Option<AggregatedCandle>)
  {
    if candles == [] then None
    else
      var ordered := Sort(ByOpen(), candles);
      var start := IntervalStart(ordered[0].openMinute, tf);
      if expected.Some? && start != IntervalStart(expected.value, tf) then None
      else if |ordered| != Minutes(tf) then None
      else if !OneSymbol(ordered) then None
      else if !EveryMinute(ordered, start) then None
      else Some(Summary(ordered, tf, start).(closeMinute := IntervalEnd(start, tf)))
  }

  // ---------- intervals ----------

  predicate Finer(fine: Timeframe, coarse: Timeframe) {
    Minutes(fine) <= Minutes(coarse)
  }

  lemma Multiples(d: int, n: int)
    requires d > 0
    ensures n >= 1 ==> d * n >= d
    ensures n <= 0 ==> d * n <= 0
    ensures n <= -1 ==> d * n <= -d
    ensures n >= 0 ==> d * n >= 0
  {
  }

  lemma SameRemainder(d: int, q: int, r: int, q': int, r': int)
    requires d > 0 && d * q + r == d * q' + r' && 0 <= r < d && 0 <= r' < d
    ensures q == q' && r == r'
  {
    assert d * (q - q') == r' - r;
    Multiples(d, q - q');
  }

  lemma Remainder(x: int, d: int, q: int, r: int)
    requires d > 0 && x == d * q + r && 0 <= r < d
    ensures x % d == r
  {
    SameRemainder(d, q, r, x / d, x % d);
  }

  lemma QuotientBelow(f: int, k: int, s: int, t: int)
    requires f > 0 && 0 <= t < f && 0 <= f * s + t < f * k
    ensures 0 <= f * s <= f * k - f
  {
    assert f * (k - s) == f * k - f * s;
    Multiples(f, k - s);
    Multiples(f, s);
  }

  /** Rounding down to a multiple of `f` and then to one of `f * k` is rounding down to the latter at once. */
  lemma RoundingNests(m: int, f: int, k: int, c: int)
    requires f > 0 && k > 0 && c == f * k && c > 0
    ensures (m - m % f) % c == m % c - m % f
    ensures 0 <= m % f < f && 0 <= m % c - m % f <= c - f
  {
    var q, r := m / c, m % c;
    var s, t := r / f, r % f;
    assert m == c * q + r && r == f * s + t;
    assert c * q == f * (k * q);
    assert m == f * (k * q + s) + t;
    Remainder(m, f, k * q + s, t);
    QuotientBelow(f, k, s, t);
    Remainder(m - t, c, q, r - t);
  }

  /** A whole number of fine intervals makes a coarse one. */
  lemma OffsetsNest(minute: int, fine: Timeframe, coarse: Timeframe)
    requires Finer(fine, coarse)
    ensures Offset(minute - Offset(minute, fine), coarse) == Offset(minute, coarse) - Offset(minute, fine)
    ensures Offset(minute, fine) < Minutes(fine)
    ensures 0 <= Offset(minute, coarse) - Offset(minute, fine) <= Minutes(coarse) - Minutes(fine)
  {
    match fine {
      case M5 =>
        RoundingNests(minute, 5, 1, 5);
        RoundingNests(minute, 5, 3, 15);
        RoundingNests(minute, 5, 12, 60);
        RoundingNests(minute, 5, 48, 240);
      case M15 =>
        RoundingNests(minute, 15, 1, 15);
        RoundingNests(minute, 15, 4, 60);
        RoundingNests(minute, 15, 16, 240);
      case H1 =>
        RoundingNests(minute, 60, 1, 60);
        RoundingNests(minute, 60, 4, 240);
      case H4 =>
        RoundingNests(minute, 240, 1, 240);
    }
  }

  /** Interval starts are fixed points, contain their minute, and finer ones nest inside coarser ones. */
  lemma IntervalsNest(minute: int, fine: Timeframe, coarse: Timeframe)
    requires Finer(fine, coarse)
    ensures IntervalStart(IntervalStart(minute, fine), fine) == IntervalStart(minute, fine)
    ensures IntervalStart(minute, fine) <= minute < IntervalEnd(minute, fine)
    ensures IntervalStart(IntervalStart(minute, fine), coarse) == IntervalStart(minute, coarse)
    ensures IntervalStart(minute, coarse) <= IntervalStart(minute, fine)
            && IntervalEnd(minute, fine) <= IntervalEnd(minute, coarse)
  {
    OffsetsNest(minute, fine, fine);
    OffsetsNest(minute, coarse, coarse);
    OffsetsNest(minute, fine, coarse);
    hide Offset;
  }

  /** An aligned start is the start of every minute it covers. */
  lemma AlignedStart(start: int, tf: Timeframe, minute: int)
    requires IntervalStart(start, tf) == start && start <= minute < start + Minutes(tf)
    ensures IntervalStart(minute, tf) == start
  {
    var d := Minutes(tf);
    match tf {
      case M5 => Remainder(minute, 5, start / 5, minute - start);
      case M15 => Remainder(minute, 15, start / 15, minute - start);
      case H1 => Remainder(minute, 60, start / 60, minute - start);
      case H4 => Remainder(minute, 240, start / 240, minute - start);
    }
  }

  // ---------- what a result means ----------

  lemma ByOpenIsPreorder()
    ensures TotalPreorder(ByOpen())
  {
  }

  /** An aggregate exists exactly for an ordered run that fills its interval, and then it is the run's summary. */
  lemma AggregateMeaning(candles: seq<Candle1m>, tf: Timeframe, start: int)
    requires IntervalStart(start, tf) == start
    ensures var ordered := Sort(ByOpen(), candles);
            if |candles| == Minutes(tf) && Contiguous(ordered, start)
            then AggregateCandles(candles, tf, Some(start)) == Some(Summary(ordered, tf, start))
            else AggregateCandles(candles, tf, Some(start)) == None
  {
    hide Sort, Offset, OneSymbol, Highest, Lowest, TotalVolume, TotalTurnover;
    var ordered := Sort(ByOpen(), candles);
    if candles != [] && |candles| == Minutes(tf) && Contiguous(ordered, start) {
      assert ordered[0].openMinute == start;
    }
  }

  /** The order in which the minutes arrive does not matter, complete or not. */
  lemma OrderDoesNotMatter(a: seq<Candle1m>, b: seq<Candle1m>, tf: Timeframe, expected: Option<int>)
    requires multiset(a) == multiset(b)
    ensures AggregateCandles(a, tf, expected) == AggregateCandles(b, tf, expected)
  {
    hide Sort, Summary, Offset;
    assert |a| == |multiset(a)| == |multiset(b)| == |b|;
    if AggregateCandles(a, tf, expected).Some? {
      ResultNeedsDistinct(a, tf, expected);
      ByOpenIsPreorder();
      SortPermutation(ByOpen(), a, b);
    } else if AggregateCandles(b, tf, expected).Some? {
      ResultNeedsDistinct(b, tf, expected);
      ByOpenIsPreorder();
      SortPermutation(ByOpen(), b, a);
    }
  }

  /** A result needs one candle a minute, so no two of the candles share a minute. */
  lemma ResultNeedsDistinct(candles: seq<Candle1m>, tf: Timeframe, expected: Option<int>)
    requires AggregateCandles(candles, tf, expected).Some?
    ensures forall i, j :: 0 <= i < j < |candles| ==> candles[i] != candles[j]
    ensures forall x, y :: x in candles && y in candles && ByOpen()(x, y) && ByOpen()(y, x) ==> x == y
  {
    var ordered := Sort(ByOpen(), candles);
    SortMembers(ByOpen(), candles);
    forall i, j | 0 <= i < j < |ordered| ensures ordered[i] != ordered[j] {
      assert ordered[i].openMinute < ordered[j].openMinute;
    }
    forall i, j | 0 <= i < j < |candles| ensures candles[i] != candles[j] {
      NotRepeated(ordered, candles[i]);
      if candles[i] == candles[j] { Repeated(candles, i, j); }
    }
    forall x, y | x in candles && y in candles && x.openMinute == y.openMinute ensures x == y {
      assert x in ordered && y in ordered;
      var i :| 0 <= i < |ordered| && ordered[i] == x;
      var j :| 0 <= j < |ordered| && ordered[j] == y;
      assert i == j;
    }
  }

  // ---------- validity ----------

  predicate ValidCandle(c: Candle1m) {
    c.lowPrice <= c.openPrice <= c.highPrice && c.lowPrice <= c.closePrice <= c.highPrice && c.volume >= 0.0
  }

  lemma {:induction false} ExtremesBound(s: seq<Candle1m>, i: nat)
    requires i < |s|
    ensures Lowest(s) <= s[i].lowPrice && s[i].highPrice <= Highest(s)
  {
    if |s| > 1 && i > 0 {
      ExtremesBound(s[1..], i - 1);
    }
  }

  lemma {:induction false} VolumeNonNegative(s: seq<Candle1m>)
    requires forall i :: 0 <= i < |s| ==> ValidCandle(s[i])
    ensures TotalVolume(s) >= 0.0
  {
    if s != [] {
      VolumeNonNegative(s[1..]);
    }
  }

  /** Valid minutes aggregate to a valid candle. */
  lemma AggregateIsValid(candles: seq<Candle1m>, tf: Timeframe, expected: Option<int>)
    requires AggregateCandles(candles, tf, expected).Some? && forall c :: c in candles ==> ValidCandle(c)
    ensures var r := AggregateCandles(candles, tf, expected).value;
            && r.lowPrice <= r.openPrice <= r.highPrice && r.lowPrice <= r.closePrice <= r.highPrice
            && r.volume >= 0.0 && r.openMinute < r.closeMinute == r.openMinute + r.sourceCount
  {
    var ordered := Sort(ByOpen(), candles);
    SortMembers(ByOpen(), candles);
    assert forall i :: 0 <= i < |ordered| ==> ordered[i] in ordered;
    ExtremesBound(ordered, 0);
    ExtremesBound(ordered, |ordered| - 1);
    VolumeNonNegative(ordered);
    IntervalsNest(ordered[0].openMinute, tf, tf);
  }
}
