/** Coarse candles built directly from minutes equal those built through nested finer candles. */
module AggregationTower {
  import opened Wrappers
  import opened MarketModels
  import opened Sequences
  import opened CandleAggregation

  function InMinutes(lo: int, hi: int): Candle1m -> bool {
    (c: Candle1m) => lo <= c.openMinute < hi
  }

  /** The fine candle of one sub-interval, built from whatever minutes fall into it. */
  function Part(candles: seq<Candle1m>, fine: Timeframe, start: int): Option<AggregatedCandle> {
    AggregateCandles(Filter(InMinutes(start, start + Minutes(fine)), candles), fine, Some(start))
  }

  /** Two adjacent candles of one symbol become one; a missing or foreign neighbour withholds the result. */
  function Join(a: Option<AggregatedCandle>, b: Option<AggregatedCandle>): Option<AggregatedCandle> {
    if a.None? || b.None? || a.value.symbol != b.value.symbol || a.value.closeMinute != b.value.openMinute then None
    else
      var x, y := a.value, b.value;
      Some(AggregatedCandle(
        x.symbol, x.timeframe, x.openMinute, y.closeMinute, x.openPrice,
        if x.highPrice < y.highPrice then y.highPrice else x.highPrice,
        if y.lowPrice < x.lowPrice then y.lowPrice else x.lowPrice,
        y.closePrice, x.volume + y.volume, x.turnover + y.turnover, x.sourceCount + y.sourceCount))
  }

  /** `count` adjacent fine candles, joined from left to right. */
  function RollUp(candles: seq<Candle1m>, fine: Timeframe, start: int, count: nat): Option<AggregatedCandle>
    requires count > 0
  {
    if count == 1 then Part(candles, fine, start)
    else Join(RollUp(candles, fine, start, count - 1), Part(candles, fine, start + (count - 1) * Minutes(fine)))
  }

  function Relabelled(r: Option<AggregatedCandle>, tf: Timeframe): Option<AggregatedCandle> {
    if r.None? then None else Some(r.value.(timeframe := tf))
  }

  // ---------- splitting sorted minutes ----------

  lemma {:induction false} SortedSplits(s: seq<Candle1m>, lo: int, mid: int, hi: int)
    requires Sorted(ByOpen(), s) && lo <= mid <= hi
    ensures Filter(InMinutes(lo, hi), s) == Filter(InMinutes(lo, mid), s) + Filter(InMinutes(mid, hi), s)
  {
    if s != [] {
      SortedSplits(s[1..], lo, mid, hi);
      if s[0].openMinute >= mid {
        forall c | c in s ensures !InMinutes(lo, mid)(c) {
          var i :| 0 <= i < |s| && s[i] == c;
          assert i > 0 ==> ByOpen()(s[0], s[i]);
        }
        FilterNone(InMinutes(lo, mid), s);
        FilterNone(InMinutes(lo, mid), s[1..]);
      }
    }
  }

  /** The summary of a run of any length. */
  function SummaryOf(s: seq<Candle1m>, tf: Timeframe, start: int): AggregatedCandle
    requires s != []
  {
    Summary(s, tf, start).(closeMinute := start + |s|, sourceCount := |s|)
  }

  lemma {:induction false} StatisticsConcat(a: seq<Candle1m>, b: seq<Candle1m>)
    requires a != [] && b != []
    ensures Highest(a + b) == if Highest(a) < Highest(b) then Highest(b) else Highest(a)
    ensures Lowest(a + b) == if Lowest(b) < Lowest(a) then Lowest(b) else Lowest(a)
    ensures TotalVolume(a + b) == TotalVolume(a) + TotalVolume(b)
    ensures TotalTurnover(a + b) == TotalTurnover(a) + TotalTurnover(b)
  {
    assert (a + b)[1..] == a[1..] + b;
    if |a| == 1 {
      assert a[1..] + b == b;
    } else {
      StatisticsConcat(a[1..], b);
    }
  }

  predicate Full(s: seq<Candle1m>, start: int, length: nat) {
    |s| == length && Contiguous(s, start)
  }

  /** Joining the summaries of two adjacent ranges is summarising both, when and only when both are full. */
  lemma JoinFull(a: seq<Candle1m>, b: seq<Candle1m>, tf: Timeframe, start: int, m: nat, n: nat)
    requires m > 0 && n > 0
    requires forall i :: 0 <= i < |a| ==> start <= a[i].openMinute < start + m
    requires forall i :: 0 <= i < |b| ==> start + m <= b[i].openMinute
    ensures Join(if Full(a, start, m) then Some(SummaryOf(a, tf, start)) else None,
                 if Full(b, start + m, n) then Some(SummaryOf(b, tf, start + m)) else None)
            == if Full(a + b, start, m + n) then Some(SummaryOf(a + b, tf, start)) else None
  {
    hide Highest, Lowest, TotalVolume, TotalTurnover;
    if Full(a, start, m) && Full(b, start + m, n) {
      StatisticsConcat(a, b);
      assert (a + b)[|a|] == b[0];
    } else if Full(a + b, start, m + n) {
      HalvesFull(a, b, start, m, n);
    }
  }

  lemma HalvesFull(a: seq<Candle1m>, b: seq<Candle1m>, start: int, m: nat, n: nat)
    requires m > 0 && n > 0 && Full(a + b, start, m + n)
    requires forall i :: 0 <= i < |a| ==> start <= a[i].openMinute < start + m
    requires forall i :: 0 <= i < |b| ==> start + m <= b[i].openMinute
    ensures Full(a, start, m) && Full(b, start + m, n)
  {
    var s := a + b;
    assert |a| < |s| ==> s[|a|] == b[0] && s[|a|].openMinute == start + |a|;
    assert |a| > 0 ==> s[|a| - 1] == a[|a| - 1] && s[|a| - 1].openMinute == start + |a| - 1;
    assert |a| == m;
    forall i | 0 <= i < |a| ensures a[i].openMinute == start + i && a[i].symbol == a[0].symbol {
      assert s[i] == a[i];
    }
    forall i | 0 <= i < |b| ensures b[i].openMinute == start + m + i && b[i].symbol == b[0].symbol {
      assert s[m + i] == b[i];
    }
  }

  lemma AlignedPart(start: int, fine: Timeframe, coarse: Timeframe, j: nat)
    requires Finer(fine, coarse) && IntervalStart(start, coarse) == start
    ensures IntervalStart(start + j * Minutes(fine), fine) == start + j * Minutes(fine)
  {
    OffsetsNest(start, fine, coarse);
    match fine {
      case M5 => Remainder(start + j * 5, 5, start / 5 + j, 0);
      case M15 => Remainder(start + j * 15, 15, start / 15 + j, 0);
      case H1 => Remainder(start + j * 60, 60, start / 60 + j, 0);
      case H4 => Remainder(start + j * 240, 240, start / 240 + j, 0);
    }
  }

  /** One part in terms of the sorted minutes. */
  lemma PartMeaning(candles: seq<Candle1m>, fine: Timeframe, start: int)
    requires IntervalStart(start, fine) == start
    ensures var own := Filter(InMinutes(start, start + Minutes(fine)), Sort(ByOpen(), candles));
            Part(candles, fine, start) == if Full(own, start, Minutes(fine)) then Some(SummaryOf(own, fine, start))
              else None
  {
    var range := InMinutes(start, start + Minutes(fine));
    ByOpenIsPreorder();
    SortFilters(ByOpen(), range, candles);
    hide Sort, AggregateCandles;
    AggregateMeaning(Filter(range, candles), fine, start);
  }

  lemma {:induction false} RollUpMeaning(candles: seq<Candle1m>, fine: Timeframe, coarse: Timeframe, start: int,
                                         count: nat)
    requires count > 0 && Finer(fine, coarse) && IntervalStart(start, coarse) == start
    ensures var own := Filter(InMinutes(start, start + count * Minutes(fine)), Sort(ByOpen(), candles));
            RollUp(candles, fine, start, count)
            == if Full(own, start, count * Minutes(fine)) then Some(SummaryOf(own, fine, start)) else None
    decreases count
  {
    hide Sort, Part, Join, Full, Contiguous, SummaryOf, Offset, Filter;
    if count == 1 {
      AlignedPart(start, fine, coarse, 0);
      PartMeaning(candles, fine, start);
    } else {
      var length, before := Minutes(fine), (count - 1) * Minutes(fine);
      assert count * length == before + length;
      RollUpMeaning(candles, fine, coarse, start, count - 1);
      AlignedPart(start, fine, coarse, count - 1);
      PartMeaning(candles, fine, start + before);
      ByOpenIsPreorder();
      var s := Sort(ByOpen(), candles);
      SortSorts(ByOpen(), candles);
      SortedSplits(s, start, start + before, start + before + length);
      var a, b := Filter(InMinutes(start, start + before), s),
        Filter(InMinutes(start + before, start + before + length), s);
      assert forall i :: 0 <= i < |a| ==> a[i] in a;
      assert forall i :: 0 <= i < |b| ==> b[i] in b;
      JoinFull(a, b, fine, start, before, length);
    }
  }

  /** How many fine intervals make a coarse one. */
  function Ratio(fine: Timeframe, coarse: Timeframe): (k: nat)
    requires Finer(fine, coarse)
    ensures k > 0 && k * Minutes(fine) == Minutes(coarse)
  {
    if fine == coarse then 1
    else if fine == M5 then (if coarse == M15 then 3 else if coarse == H1 then 12 else 48)
    else if fine == M15 && coarse == H4 then 16
    else 4
  }

  /**
   * The tower: over the minutes of one coarse interval, complete or not, the candle built directly from the minutes
   * equals the one built through all nested finer candles; both are withheld together.
   */
  lemma DirectEqualsNested(candles: seq<Candle1m>, fine: Timeframe, coarse: Timeframe, start: int)
    requires Finer(fine, coarse) && IntervalStart(start, coarse) == start
    requires forall c :: c in candles ==> start <= c.openMinute < start + Minutes(coarse)
    ensures AggregateCandles(candles, coarse, Some(start))
            == Relabelled(RollUp(candles, fine, start, Ratio(fine, coarse)), coarse)
  {
    hide Sort, Filter, AggregateCandles, RollUp, Offset, Contiguous, Highest, Lowest, TotalVolume, TotalTurnover;
    RollUpMeaning(candles, fine, coarse, start, Ratio(fine, coarse));
    AggregateMeaning(candles, coarse, start);
    var s := Sort(ByOpen(), candles);
    SortMembers(ByOpen(), candles);
    FilterAll(InMinutes(start, start + Minutes(coarse)), s);
  }
}
