/** Strict swing extremes with delayed confirmation. */
module Swings {
  import opened Wrappers
  import opened Sequences
  import opened SmcModels

  predicate IsSwingHigh(candles: seq<Candle>, i: int, lookback: nat) {
    && lookback <= i < |candles| - lookback
    && forall j :: i - lookback <= j <= i + lookback && j != i ==> candles[i].highPrice > candles[j].highPrice
  }

  predicate IsSwingLow(candles: seq<Candle>, i: int, lookback: nat) {
    && lookback <= i < |candles| - lookback
    && forall j :: i - lookback <= j <= i + lookback && j != i ==> candles[i].lowPrice < candles[j].lowPrice
  }

  function HighSwing(candles: seq<Candle>, i: nat, lookback: nat): Swing
    requires i < |candles|
  {
    Swing(High, i, i + lookback, candles[i].openTime, candles[i].highPrice)
  }

  function LowSwing(candles: seq<Candle>, i: nat, lookback: nat): Swing
    requires i < |candles|
  {
    Swing(Low, i, i + lookback, candles[i].openTime, candles[i].lowPrice)
  }

  /** The swings of one candle, the high one first. */
  function SwingsAt(candles: seq<Candle>, i: nat, lookback: nat): seq<Swing>
    requires lookback <= i < |candles| - lookback
  {
    (if IsSwingHigh(candles, i, lookback) then [HighSwing(candles, i, lookback)] else [])
    + (if IsSwingLow(candles, i, lookback) then [LowSwing(candles, i, lookback)] else [])
  }

  /** The swings of the candles before `end`. */
  function SwingsBefore(candles: seq<Candle>, lookback: nat, end: nat): seq<Swing>
    requires end <= |candles| - lookback
  {
    if end <= lookback then [] else SwingsBefore(candles, lookback, end - 1) + SwingsAt(candles, end - 1, lookback)
  }

  function AllSwings(candles: seq<Candle>, lookback: nat): seq<Swing> {
    if |candles| < lookback * 2 + 1 then [] else SwingsBefore(candles, lookback, |candles| - lookback)
  }

  function SwingOrder(): (Swing, Swing) -> bool {
    (a: Swing, b: Swing) =>
      if a.confirmation != b.confirmation then a.confirmation < b.confirmation
      else if a.index != b.index then a.index < b.index
      else a.kind == High || b.kind == Low
  }

  method DetectSwings(candles: seq<Candle>, lookback: nat) returns (swings: seq<Swing>)
    requires lookback >= 1
    ensures swings == AllSwings(candles, lookback)
  {
    hide IsSwingHigh, IsSwingLow, SwingsBefore, SwingOrder, Sort;
    if |candles| < lookback * 2 + 1 {
      return [];
    }
    swings := [];
    NoSwingsYet(candles, lookback, lookback);
    for index := lookback to |candles| - lookback
      invariant swings == SwingsBefore(candles, lookback, index)
    {
      var candle := candles[index];
      NextSwings(candles, lookback, index);
      if IsSwingHigh(candles, index, lookback) {
        swings := swings + [Swing(High, index, index + lookback, candle.openTime, candle.highPrice)];
      }
      if IsSwingLow(candles, index, lookback) {
        swings := swings + [Swing(Low, index, index + lookback, candle.openTime, candle.lowPrice)];
      }
    }
    SwingsInOrder(candles, lookback, |candles| - lookback);
    SortOfSorted(SwingOrder(), SwingsBefore(candles, lookback, |candles| - lookback));
    swings := Sort(SwingOrder(), swings);
  }

  lemma NoSwingsYet(candles: seq<Candle>, lookback: nat, end: nat)
    requires end <= lookback && end <= |candles| - lookback
    ensures SwingsBefore(candles, lookback, end) == []
  {
  }

  lemma NextSwings(candles: seq<Candle>, lookback: nat, i: nat)
    requires lookback <= i < |candles| - lookback
    ensures SwingsBefore(candles, lookback, i + 1) == SwingsBefore(candles, lookback, i)
            + SwingsAt(candles, i, lookback)
  {
  }

  // ---------- order and shape ----------

  lemma {:induction false} SwingShapes(candles: seq<Candle>, lookback: nat, end: nat)
    requires end <= |candles| - lookback
    ensures forall s :: s in SwingsBefore(candles, lookback, end) ==>
              s.confirmation == s.index + lookback && lookback <= s.index < end
  {
    hide IsSwingHigh, IsSwingLow;
    if end > lookback {
      SwingShapes(candles, lookback, end - 1);
    }
  }

  lemma SwingsAtInOrder(candles: seq<Candle>, i: nat, lookback: nat)
    requires lookback <= i < |candles| - lookback
    ensures Sorted(SwingOrder(), SwingsAt(candles, i, lookback))
    ensures forall s :: s in SwingsAt(candles, i, lookback) ==> s.index == i && s.confirmation == i + lookback
  {
    hide IsSwingHigh, IsSwingLow;
  }

  lemma SortedJoin(a: seq<Swing>, b: seq<Swing>)
    requires Sorted(SwingOrder(), a) && Sorted(SwingOrder(), b)
    requires forall x, y :: x in a && y in b ==> SwingOrder()(x, y)
    ensures Sorted(SwingOrder(), a + b)
  {
    assert forall i :: 0 <= i < |a| ==> a[i] in a;
    assert forall i :: 0 <= i < |b| ==> b[i] in b;
  }

  lemma LaterSwingsFollow(candles: seq<Candle>, lookback: nat, i: nat)
    requires lookback <= i < |candles| - lookback
    ensures forall x, y :: x in SwingsBefore(candles, lookback, i) && y in SwingsAt(candles, i, lookback) ==>
              SwingOrder()(x, y)
  {
    hide SwingsAt, SwingsBefore;
    SwingShapes(candles, lookback, i);
    SwingsAtInOrder(candles, i, lookback);
  }

  lemma {:induction false} SwingsInOrder(candles: seq<Candle>, lookback: nat, end: nat)
    requires end <= |candles| - lookback
    ensures Sorted(SwingOrder(), SwingsBefore(candles, lookback, end))
  {
    hide SwingsAt, SwingsBefore, SwingOrder;
    if end <= lookback {
      NoSwingsYet(candles, lookback, end);
    } else {
      NextSwings(candles, lookback, end - 1);
      SwingsInOrder(candles, lookback, end - 1);
      SwingShapes(candles, lookback, end - 1);
      SwingsAtInOrder(candles, end - 1, lookback);
      LaterSwingsFollow(candles, lookback, end - 1);
      SortedJoin(SwingsBefore(candles, lookback, end - 1), SwingsAt(candles, end - 1, lookback));
    }
  }

  lemma {:induction false} SwingsBeforeSplit(candles: seq<Candle>, lookback: nat, mid: nat, end: nat)
    requires mid <= end <= |candles| - lookback
    ensures SwingsBefore(candles, lookback, mid) <= SwingsBefore(candles, lookback, end)
    ensures forall s :: s in SwingsBefore(candles, lookback, end)[|SwingsBefore(candles, lookback, mid)|..] ==>
              s.confirmation >= mid + lookback
    decreases end - mid
  {
    hide SwingsAt, SwingsBefore;
    if mid < end && end <= lookback {
      NoSwingsYet(candles, lookback, mid);
      NoSwingsYet(candles, lookback, end);
    } else if mid < end {
      NextSwings(candles, lookback, end - 1);
      SwingsAtInOrder(candles, end - 1, lookback);
      SwingsBeforeSplit(candles, lookback, mid, end - 1);
      var first, most := SwingsBefore(candles, lookback, mid), SwingsBefore(candles, lookback, end - 1);
      assert SwingsBefore(candles, lookback, end)[|first|..] == most[|first|..] + SwingsAt(candles, end - 1, lookback);
    }
  }

  lemma SwingsAtCausal(candles: seq<Candle>, n: nat, lookback: nat, i: nat)
    requires lookback <= i && i + lookback < n <= |candles|
    ensures SwingsAt(candles[..n], i, lookback) == SwingsAt(candles, i, lookback)
  {
  }

  lemma {:induction false} SwingsBeforeCausal(candles: seq<Candle>, n: nat, lookback: nat, end: nat)
    requires n <= |candles| && end <= n - lookback
    ensures SwingsBefore(candles[..n], lookback, end) == SwingsBefore(candles, lookback, end)
  {
    hide SwingsAt, SwingsBefore;
    if end <= lookback {
      NoSwingsYet(candles, lookback, end);
      NoSwingsYet(candles[..n], lookback, end);
    } else {
      NextSwings(candles, lookback, end - 1);
      NextSwings(candles[..n], lookback, end - 1);
      SwingsBeforeCausal(candles, n, lookback, end - 1);
      SwingsAtCausal(candles, n, lookback, end - 1);
    }
  }

  /** The swings known after n candles are the full run's first swings; every later one is confirmed after n. */
  lemma SwingsCausal(candles: seq<Candle>, lookback: nat, n: nat)
    requires n <= |candles|
    ensures var early, all := AllSwings(candles[..n], lookback), AllSwings(candles, lookback);
            && early <= all
            && (forall s :: s in early ==> s.confirmation < n)
            && (forall s :: s in all[|early|..] ==> s.confirmation >= n)
  {
    hide SwingsBefore;
    var end := if n < lookback then 0 else n - lookback;
    if |candles| >= lookback * 2 + 1 {
      SwingsBeforeSplit(candles, lookback, end, |candles| - lookback);
      SwingShapes(candles, lookback, |candles| - lookback);
      if n >= lookback * 2 + 1 {
        SwingsBeforeCausal(candles, n, lookback, end);
        SwingShapes(candles, lookback, end);
      } else {
        forall s | s in AllSwings(candles, lookback) ensures s.confirmation >= n {
          assert s in SwingsBefore(candles, lookback, |candles| - lookback);
        }
      }
    }
  }

  // ---------- arrivals: a swing becomes usable on the candle after its confirmation ----------

  function ArrivesAt(i: int): Swing -> bool {
    (s: Swing) => s.confirmation + 1 == i
  }

  function Arrivals(swings: seq<Swing>, i: int): seq<Swing> {
    Filter(ArrivesAt(i), swings)
  }

  lemma ArrivalsCausal(candles: seq<Candle>, lookback: nat, n: nat, i: nat)
    requires i <= n <= |candles|
    ensures Arrivals(AllSwings(candles[..n], lookback), i) == Arrivals(AllSwings(candles, lookback), i)
  {
    SwingsCausal(candles, lookback, n);
    var early, all := AllSwings(candles[..n], lookback), AllSwings(candles, lookback);
    assert all == early + all[|early|..];
    FilterConcat(ArrivesAt(i), early, all[|early|..]);
    FilterNone(ArrivesAt(i), all[|early|..]);
  }

  lemma {:induction false} ArrivalsOfBefore(candles: seq<Candle>, lookback: nat, end: nat, i: int)
    requires end <= |candles| - lookback
    ensures Arrivals(SwingsBefore(candles, lookback, end), i)
            == if lookback <= i - 1 - lookback < end then SwingsAt(candles, i - 1 - lookback, lookback) else []
  {
    hide IsSwingHigh, IsSwingLow, Filter;
    if end <= lookback {
      FilterNone(ArrivesAt(i), []);
    } else {
      ArrivalsOfBefore(candles, lookback, end - 1, i);
      var last := SwingsAt(candles, end - 1, lookback);
      FilterConcat(ArrivesAt(i), SwingsBefore(candles, lookback, end - 1), last);
      if i - 1 - lookback == end - 1 {
        FilterAll(ArrivesAt(i), last);
      } else {
        FilterNone(ArrivesAt(i), last);
      }
    }
  }

  /** What arrives at candle i are exactly the swings of the candle one lookback and one step earlier. */
  lemma ArrivalsAre(candles: seq<Candle>, lookback: nat, i: nat)
    requires i <= |candles|
    ensures Arrivals(AllSwings(candles, lookback), i)
            == if 2 * lookback < i then SwingsAt(candles, i - 1 - lookback, lookback) else []
  {
    hide SwingsBefore, SwingsAt, Filter;
    if |candles| < lookback * 2 + 1 {
      FilterNone(ArrivesAt(i), []);
    } else {
      ArrivalsOfBefore(candles, lookback, |candles| - lookback, i);
    }
  }

  lemma OneMoreArrival(swings: seq<Swing>, k: nat, i: int)
    requires k < |swings|
    ensures Arrivals(swings[..k + 1], i)
            == Arrivals(swings[..k], i) + if i == swings[k].confirmation + 1 then [swings[k]] else []
  {
    var s := swings[k];
    assert swings[..k + 1] == swings[..k] + [s];
    FilterConcat(ArrivesAt(i), swings[..k], [s]);
    if ArrivesAt(i)(s) {
      FilterAll(ArrivesAt(i), [s]);
    } else {
      FilterNone(ArrivesAt(i), [s]);
    }
  }

  lemma NoArrivals(i: int)
    ensures Arrivals([], i) == []
  {
  }

  /** The dictionary `available`, filled swing by swing. */
  method CollectArrivals(swings: seq<Swing>) returns (available: map<int, seq<Swing>>)
    ensures forall i :: Arrivals(swings, i) == if i in available then available[i] else []
  {
    hide Arrivals;
    available := map[];
    forall i ensures Arrivals(swings[..0], i) == [] {
      NoArrivals(i);
    }
    for k := 0 to |swings|
      invariant forall i :: Arrivals(swings[..k], i) == if i in available then available[i] else []
    {
      var s := swings[k];
      var key := s.confirmation + 1;
      forall i ensures Arrivals(swings[..k + 1], i) == Arrivals(swings[..k], i) + if i == key then [s] else [] {
        OneMoreArrival(swings, k, i);
      }
      available := available[key := (if key in available then available[key] else []) + [s]];
    }
    assert swings[..|swings|] == swings;
  }
}
