/** True range, average true range and rolling means over candles. */
module SmcStatistics {
  import opened Wrappers
  import opened SmcModels

  function Sum(values: seq<real>): real {
    if values == [] then 0.0 else Sum(values[..|values| - 1]) + values[|values| - 1]
  }

  function Mean(total: real, period: nat): real
    requires period >= 1
  {
    total / (period as real)
  }

  /** The mean of the last `period` values up to an index, once there are that many. */
  function MeanAt(values: seq<real>, period: nat, index: nat): Option<real>
    requires period >= 1 && index < |values|
  {
    if index + 1 < period then None else Some(Mean(Sum(values[index + 1 - period..index + 1]), period))
  }

  lemma {:induction false} SumConcat(a: seq<real>, b: seq<real>)
    ensures Sum(a + b) == Sum(a) + Sum(b)
    decreases |b|
  {
    if b == [] {
      assert a + b == a;
    } else {
      assert (a + b)[..|a + b| - 1] == a + b[..|b| - 1];
      SumConcat(a, b[..|b| - 1]);
    }
  }

  /** Sliding a window by one adds the new value and drops the oldest. */
  lemma WindowSlides(values: seq<real>, low: nat, high: nat)
    requires low < high < |values|
    ensures Sum(values[low + 1..high + 1]) == Sum(values[low..high]) + values[high] - values[low]
  {
    var middle := values[low + 1..high];
    assert values[low..high] == [values[low]] + middle;
    assert values[low + 1..high + 1] == middle + [values[high]];
    SumConcat([values[low]], middle);
    SumConcat(middle, [values[high]]);
    assert [values[low]][..0] == [] && [values[high]][..0] == [];
  }

  /** The last `period` values before an index, or as many as there are. */
  function Window(values: seq<real>, period: nat, index: nat): seq<real>
    requires index <= |values|
  {
    values[if index < period then 0 else index - period..index]
  }

  lemma WindowMoves(values: seq<real>, period: nat, index: nat)
    requires period >= 1 && index < |values|
    ensures Sum(Window(values, period, index + 1))
            == Sum(Window(values, period, index)) + values[index] - if index >= period then values[index - period]
              else 0.0
  {
    if index >= period {
      WindowSlides(values, index - period, index);
    } else {
      assert Window(values, period, index + 1)[..index] == Window(values, period, index);
    }
  }

  method RollingMean(values: seq<real>, period: nat) returns (result: seq<Option<real>>)
    requires period >= 1
    ensures |result| == |values| && forall i :: 0 <= i < |values| ==> result[i] == MeanAt(values, period, i)
  {
    hide Sum, Mean;
    result := seq(|values|, _ => None);
    var total := 0.0;
    assert Window(values, period, 0) == [];
    EmptySum();
    for index := 0 to |values|
      invariant |result| == |values|
      invariant forall i :: 0 <= i < index ==> result[i] == MeanAt(values, period, i)
      invariant forall i :: index <= i < |values| ==> result[i] == None
      invariant total == Sum(Window(values, period, index))
    {
      WindowMoves(values, period, index);
      total := total + values[index];
      if index >= period {
        total := total - values[index - period];
      }
      if index >= period - 1 {
        result := result[index := Some(Mean(total, period))];
      }
    }
  }

  lemma EmptySum()
    ensures Sum([]) == 0.0
  {
  }

  function Larger(a: real, b: real): real {
    if a < b then b else a
  }

  function Scaled(value: real, ratio: real): real {
    value * ratio
  }

  function Distance(a: real, b: real): real {
    if a < b then b - a else a - b
  }

  function TrueRange(candles: seq<Candle>, i: nat): real
    requires i < |candles|
  {
    if i == 0 then candles[0].Range()
    else Larger(candles[i].Range(),
                Larger(Distance(candles[i].highPrice, candles[i - 1].closePrice),
                       Distance(candles[i].lowPrice, candles[i - 1].closePrice)))
  }

  function TrueRangesUpTo(candles: seq<Candle>, n: nat): (r: seq<real>)
    requires n <= |candles|
    ensures |r| == n && forall i :: 0 <= i < n ==> r[i] == TrueRange(candles, i)
  {
    seq(n, i requires 0 <= i < n => TrueRange(candles, i))
  }

  function Smoothed(previous: real, range: real, period: nat): real
    requires period >= 1
  {
    (previous * ((period - 1) as real) + range) / (period as real)
  }

  /** Wilder's average: the mean of the first `period` true ranges, then smoothed with each new one. */
  function AtrAt(candles: seq<Candle>, period: nat, i: nat): Option<real>
    requires period >= 1 && i < |candles|
  {
    if i + 1 < period then None
    else if i + 1 == period then Some(Mean(Sum(TrueRangesUpTo(candles, period)), period))
    else Some(Smoothed(AtrAt(candles, period, i - 1).value, TrueRange(candles, i), period))
  }

  function Atr(candles: seq<Candle>, period: nat): (r: seq<Option<real>>)
    requires period >= 1
    ensures |r| == |candles| && forall i :: 0 <= i < |r| ==> r[i] == AtrAt(candles, period, i)
  {
    seq(|candles|, i requires 0 <= i < |candles| => AtrAt(candles, period, i))
  }

  method TrueRanges(candles: seq<Candle>) returns (ranges: seq<real>)
    ensures ranges == TrueRangesUpTo(candles, |candles|)
  {
    if candles == [] {
      return [];
    }
    ranges := [candles[0].Range()];
    for i := 1 to |candles|
      invariant ranges == TrueRangesUpTo(candles, i)
    {
      var previous, candle := candles[i - 1], candles[i];
      ranges := ranges + [Larger(candle.Range(), Larger(Distance(candle.highPrice, previous.closePrice),
                                                        Distance(candle.lowPrice, previous.closePrice)))];
    }
  }

  method AverageTrueRange(candles: seq<Candle>, period: nat) returns (result: seq<Option<real>>)
    requires period >= 1
    ensures result == Atr(candles, period)
  {
    hide Sum, Mean, Smoothed, TrueRange;
    var ranges := TrueRanges(candles);
    result := seq(|candles|, _ => None);
    if |ranges| < period {
      return;
    }
    assert ranges[..period] == TrueRangesUpTo(candles, period);
    var current := Mean(Sum(ranges[..period]), period);
    result := result[period - 1 := Some(current)];
    for index := period to |ranges|
      invariant |result| == |candles|
      invariant forall i :: 0 <= i < index ==> result[i] == AtrAt(candles, period, i)
      invariant forall i :: index <= i < |candles| ==> result[i] == None
      invariant Some(current) == AtrAt(candles, period, index - 1)
    {
      current := Smoothed(current, ranges[index], period);
      result := result[index := Some(current)];
    }
  }

  // ---------- no look-ahead ----------

  lemma TrueRangeCausal(candles: seq<Candle>, n: nat, i: nat)
    requires i < n <= |candles|
    ensures TrueRange(candles[..n], i) == TrueRange(candles, i)
  {
  }

  lemma {:induction false} AtrCausalAt(candles: seq<Candle>, period: nat, n: nat, i: nat)
    requires period >= 1 && i < n <= |candles|
    ensures AtrAt(candles[..n], period, i) == AtrAt(candles, period, i)
    decreases i
  {
    hide Sum, Mean, Smoothed, TrueRange;
    TrueRangeCausal(candles, n, i);
    if i + 1 == period {
      forall k | 0 <= k < period ensures TrueRange(candles[..n], k) == TrueRange(candles, k) {
        TrueRangeCausal(candles, n, k);
      }
      assert TrueRangesUpTo(candles[..n], period) == TrueRangesUpTo(candles, period);
    } else if i + 1 > period {
      AtrCausalAt(candles, period, n, i - 1);
    }
  }

  /** The average true range over the first candles is the first part of the full series. */
  lemma AtrCausal(candles: seq<Candle>, period: nat, n: nat)
    requires period >= 1 && n <= |candles|
    ensures Atr(candles[..n], period) == Atr(candles, period)[..n]
  {
    forall i | 0 <= i < n ensures AtrAt(candles[..n], period, i) == AtrAt(candles, period, i) {
      AtrCausalAt(candles, period, n, i);
    }
  }

  lemma MeanCausal(values: seq<real>, period: nat, n: nat, i: nat)
    requires period >= 1 && i < n <= |values|
    ensures MeanAt(values[..n], period, i) == MeanAt(values, period, i)
  {
    if i + 1 >= period {
      assert values[..n][i + 1 - period..i + 1] == values[i + 1 - period..i + 1];
    }
  }
}
