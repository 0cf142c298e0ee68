/** Building every timeframe's candles from replayed minutes. */
module ReplayAggregation {
  import opened Wrappers
  import opened Sequences
  import opened MarketModels
  import opened CandleAggregation
  import Smc = SmcModels

  function Ascending(): (int, int) -> bool {
    (a: int, b: int) => a <= b
  }

  function Opens(candles: seq<Candle1m>, tf: Timeframe): (r: seq<int>)
    ensures |r| == |candles| && forall i :: 0 <= i < |r| ==> r[i] == IntervalStart(candles[i].openMinute, tf)
  {
    seq(|candles|, i requires 0 <= i < |candles| => IntervalStart(candles[i].openMinute, tf))
  }

  /** The starts of the intervals the minutes fall into, in order. */
  function Starts(candles: seq<Candle1m>, tf: Timeframe): seq<int> {
    Sort(Ascending(), Distinct(Opens(candles, tf)))
  }

  function InBucket(tf: Timeframe, start: int): Candle1m -> bool {
    (c: Candle1m) => IntervalStart(c.openMinute, tf) == start
  }

  function Bucket(candles: seq<Candle1m>, tf: Timeframe, start: int): seq<Candle1m> {
    Filter(InBucket(tf, start), candles)
  }

  /** The analysis candle of one bucket, when the bucket is complete. */
  function BucketCandle(bucket: seq<Candle1m>, tf: Timeframe, start: int): seq<Smc.Candle> {
    var a := AggregateCandles(bucket, tf, Some(start));
    if a.None? then []
    else [Smc.Candle(a.value.symbol, tf, a.value.openMinute, a.value.closeMinute, a.value.openPrice, a.value.highPrice,
      a.value.lowPrice,
                     a.value.closePrice, a.value.volume)]
  }

  function Collect(candles: seq<Candle1m>, tf: Timeframe, starts: seq<int>): seq<Smc.Candle> {
    if starts == [] then []
    else Collect(candles, tf, starts[..|starts| - 1])
         + BucketCandle(Bucket(candles, tf, starts[|starts| - 1]), tf, starts[|starts| - 1])
  }

  function Series(candles: seq<Candle1m>, tf: Timeframe): seq<Smc.Candle> {
    Collect(candles, tf, Starts(candles, tf))
  }

  // ---------- the loops ----------

  /** The dictionary of buckets with its keys in insertion order. */
  method FillBuckets(candles: seq<Candle1m>, tf: Timeframe) returns (keys: seq<int>, buckets: map<int, seq<Candle1m>>)
    ensures keys == Distinct(Opens(candles, tf))
    ensures forall start :: start in buckets <==> start in keys
    ensures forall start :: start in buckets ==> buckets[start] == Bucket(candles, tf, start)
  {
    hide Distinct, IntervalStart, Filter;
    var key := (c: Candle1m) => IntervalStart(c.openMinute, tf);
    keys, buckets := GroupBy(key, candles);
    assert Mapped(key, candles) == Opens(candles, tf);
    forall start ensures Filter(HasKey(key, start), candles) == Bucket(candles, tf, start) {
      FilterSame(HasKey(key, start), InBucket(tf, start), candles);
    }
  }

  lemma CollectNext(candles: seq<Candle1m>, tf: Timeframe, starts: seq<int>, i: nat)
    requires i < |starts|
    ensures Collect(candles, tf, starts[..i + 1])
            == Collect(candles, tf, starts[..i]) + BucketCandle(Bucket(candles, tf, starts[i]), tf, starts[i])
  {
    hide BucketCandle, Bucket;
    assert starts[..i + 1][..i] == starts[..i];
  }

  lemma NothingCollected(candles: seq<Candle1m>, tf: Timeframe)
    ensures Collect(candles, tf, []) == []
  {
  }

  method AggregateTimeframe(candles: seq<Candle1m>, tf: Timeframe) returns (series: seq<Smc.Candle>)
    ensures series == Series(candles, tf)
  {
    hide Bucket, AggregateCandles, Distinct, Sort, Collect;
    var keys, buckets := FillBuckets(candles, tf);
    var starts := Sort(Ascending(), keys);
    SortMembers(Ascending(), keys);
    series := [];
    NothingCollected(candles, tf);
    for i := 0 to |starts|
      invariant series == Collect(candles, tf, starts[..i])
    {
      CollectNext(candles, tf, starts, i);
      assert starts[i] in starts;
      var aggregate := AggregateCandles(buckets[starts[i]], tf, Some(starts[i]));
      if aggregate.None? {
        continue;
      }
      var a := aggregate.value;
      series := series
        + [Smc.Candle(a.symbol, tf, a.openMinute, a.closeMinute, a.openPrice, a.highPrice, a.lowPrice, a.closePrice,
        a.volume)];
    }
    assert starts[..|starts|] == starts;
  }

  // ---------- no look-ahead ----------

  /** A minute that has closed by T. */
  function ClosedBy(T: int): Candle1m -> bool {
    (c: Candle1m) => c.openMinute + 1 <= T
  }

  function CandleClosedBy(T: int): Smc.Candle -> bool {
    (c: Smc.Candle) => c.closeTime <= T
  }

  lemma AscendingIsPreorder()
    ensures TotalPreorder(Ascending())
  {
  }

  /** A bucket's candle opens and closes with its interval. */
  lemma BucketCandleTimes(bucket: seq<Candle1m>, tf: Timeframe, start: int)
    requires IntervalStart(start, tf) == start
    ensures forall c :: c in BucketCandle(bucket, tf, start) ==>
              c.openTime == start && c.closeTime == start + Minutes(tf)
  {
    hide Highest, Lowest, TotalVolume, TotalTurnover, Sort, Offset;
    AggregateMeaning(bucket, tf, start);
  }

  /** A bucket without its last minutes gives no candle. */
  lemma CutBucketIsEmpty(bucket: seq<Candle1m>, tf: Timeframe, start: int, T: int)
    requires IntervalStart(start, tf) == start && start + Minutes(tf) > T
    requires forall c :: c in bucket ==> ClosedBy(T)(c)
    ensures BucketCandle(bucket, tf, start) == []
  {
    hide Sort, Offset, Summary;
    AggregateMeaning(bucket, tf, start);
    var ordered := Sort(ByOpen(), bucket);
    SortMembers(ByOpen(), bucket);
    if |bucket| == Minutes(tf) {
      assert ordered[|ordered| - 1] in ordered;
      assert ordered[|ordered| - 1].openMinute != start + (|ordered| - 1);
    }
  }

  lemma BucketCausal(candles: seq<Candle1m>, tf: Timeframe, start: int, T: int)
    requires IntervalStart(start, tf) == start
    ensures BucketCandle(Bucket(Filter(ClosedBy(T), candles), tf, start), tf, start)
            == Filter(CandleClosedBy(T), BucketCandle(Bucket(candles, tf, start), tf, start))
  {
    hide BucketCandle;
    var early := Filter(ClosedBy(T), candles);
    var bucket := Bucket(candles, tf, start);
    BucketCandleTimes(bucket, tf, start);
    if start + Minutes(tf) <= T {
      forall c | c in candles && InBucket(tf, start)(c) ensures ClosedBy(T)(c) {
        IntervalsNest(c.openMinute, tf, tf);
      }
      FilterNarrows(InBucket(tf, start), ClosedBy(T), candles);
      FilterAll(CandleClosedBy(T), BucketCandle(bucket, tf, start));
    } else {
      CutBucketIsEmpty(Bucket(early, tf, start), tf, start, T);
      FilterNone(CandleClosedBy(T), BucketCandle(bucket, tf, start));
    }
  }

  predicate Aligned(starts: seq<int>, tf: Timeframe) {
    forall i :: 0 <= i < |starts| ==> IntervalStart(starts[i], tf) == starts[i]
  }

  lemma {:induction false} CollectCausal(candles: seq<Candle1m>, tf: Timeframe, starts: seq<int>, T: int)
    requires Aligned(starts, tf)
    ensures Collect(Filter(ClosedBy(T), candles), tf, starts) == Filter(CandleClosedBy(T), Collect(candles, tf, starts))
    decreases |starts|
  {
    hide BucketCandle, IntervalStart, Filter, Bucket;
    if starts == [] {
      FilterNone(CandleClosedBy(T), []);
    } else {
      var most, last := starts[..|starts| - 1], starts[|starts| - 1];
      CollectCausal(candles, tf, most, T);
      BucketCausal(candles, tf, last, T);
      FilterConcat(CandleClosedBy(T), Collect(candles, tf, most), BucketCandle(Bucket(candles, tf, last), tf, last));
    }
  }

  lemma EmptyBucket(candles: seq<Candle1m>, tf: Timeframe, start: int)
    requires start !in Opens(candles, tf)
    ensures BucketCandle(Bucket(candles, tf, start), tf, start) == []
  {
    hide IntervalStart;
    forall c | c in candles ensures !InBucket(tf, start)(c) {
      var i :| 0 <= i < |candles| && candles[i] == c;
      assert Opens(candles, tf)[i] in Opens(candles, tf);
    }
    FilterNone(InBucket(tf, start), candles);
  }

  /** Only the intervals some minute falls into matter. */
  lemma {:induction false} CollectSkipsEmpty(candles: seq<Candle1m>, tf: Timeframe, starts: seq<int>)
    ensures Collect(candles, tf, Filter((s: int) => s in Opens(candles, tf), starts)) == Collect(candles, tf, starts)
    decreases |starts|
  {
    hide BucketCandle, Bucket, Opens;
    var used := (s: int) => s in Opens(candles, tf);
    if starts == [] {
      FilterNone(used, []);
    } else {
      var most, last := starts[..|starts| - 1], starts[|starts| - 1];
      CollectSkipsEmpty(candles, tf, most);
      assert starts == most + [last];
      FilterConcat(used, most, [last]);
      var kept := Filter(used, most);
      if used(last) {
        FilterAll(used, [last]);
        assert (kept + [last])[..|kept + [last]| - 1] == kept;
      } else {
        FilterNone(used, [last]);
        assert kept + [] == kept;
        EmptyBucket(candles, tf, last);
      }
    }
  }

  lemma StartsAligned(candles: seq<Candle1m>, tf: Timeframe)
    ensures Aligned(Starts(candles, tf), tf)
  {
    hide IntervalStart;
    var starts := Starts(candles, tf);
    SortMembers(Ascending(), Distinct(Opens(candles, tf)));
    forall i | 0 <= i < |starts| ensures IntervalStart(starts[i], tf) == starts[i] {
      assert starts[i] in starts && starts[i] in Opens(candles, tf);
      var k :| 0 <= k < |candles| && Opens(candles, tf)[k] == starts[i];
      IntervalsNest(candles[k].openMinute, tf, tf);
    }
  }

  /** The candles built from the minutes closed by T are exactly the candles of the full series that close by T. */
  lemma SeriesCausal(candles: seq<Candle1m>, tf: Timeframe, T: int)
    ensures Series(Filter(ClosedBy(T), candles), tf) == Filter(CandleClosedBy(T), Series(candles, tf))
  {
    hide Collect, IntervalStart, Sort, Distinct, Opens;
    var early := Filter(ClosedBy(T), candles);
    StartsAligned(candles, tf);
    CollectCausal(candles, tf, Starts(candles, tf), T);
    PartOpens(candles, early, tf);
    AscendingIsPreorder();
    SortedDistinctPart(Ascending(), Opens(early, tf), Opens(candles, tf));
    CollectSkipsEmpty(early, tf, Starts(candles, tf));
  }

  lemma PartOpens(candles: seq<Candle1m>, early: seq<Candle1m>, tf: Timeframe)
    requires forall c :: c in early ==> c in candles
    ensures forall s :: s in Opens(early, tf) ==> s in Opens(candles, tf)
  {
    hide IntervalStart;
    forall s | s in Opens(early, tf) ensures s in Opens(candles, tf) {
      var i :| 0 <= i < |early| && Opens(early, tf)[i] == s;
      assert early[i] in early;
      var k :| 0 <= k < |candles| && candles[k] == early[i];
      assert Opens(candles, tf)[k] == s;
    }
  }

  // ---------- order of the series ----------

  ghost predicate ByClose(series: seq<Smc.Candle>) {
    forall i, j :: 0 <= i < j < |series| ==> series[i].closeTime < series[j].closeTime
  }

  lemma {:induction false} CollectOrdered(candles: seq<Candle1m>, tf: Timeframe, starts: seq<int>)
    requires Aligned(starts, tf) && StrictlySorted(Ascending(), starts)
    ensures ByClose(Collect(candles, tf, starts))
    ensures forall c :: c in Collect(candles, tf, starts) ==>
              starts != [] && c.closeTime <= starts[|starts| - 1] + Minutes(tf)
    decreases |starts|
  {
    hide BucketCandle, Bucket, IntervalStart;
    if starts != [] {
      var most, last := starts[..|starts| - 1], starts[|starts| - 1];
      CollectOrdered(candles, tf, most);
      BucketCandleTimes(Bucket(candles, tf, last), tf, last);
      BucketCandleSingle(Bucket(candles, tf, last), tf, last);
      var before := Collect(candles, tf, most);
      forall i | 0 <= i < |before| ensures before[i].closeTime < last + Minutes(tf) {
        assert before[i] in before;
        assert Ascending()(most[|most| - 1], last) && !Ascending()(last, starts[|most| - 1]);
      }
    }
  }

  lemma BucketCandleSingle(bucket: seq<Candle1m>, tf: Timeframe, start: int)
    ensures |BucketCandle(bucket, tf, start)| <= 1
  {
    hide AggregateCandles;
  }

  /** A series is strictly ordered by close time. */
  lemma SeriesOrdered(candles: seq<Candle1m>, tf: Timeframe)
    ensures ByClose(Series(candles, tf))
  {
    hide Collect, Opens, Distinct, Sort;
    StartsAligned(candles, tf);
    AscendingIsPreorder();
    SortStrict(Ascending(), Distinct(Opens(candles, tf)));
    CollectOrdered(candles, tf, Starts(candles, tf));
  }
}
