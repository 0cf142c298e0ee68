/** The dealing range between the latest confirmed high and low, and where a price lies in it. */
module Ranges {
  import opened Wrappers
  import opened SmcModels
  import opened Swings

  datatype DealingRange = DealingRange(lowSwing: Swing, highSwing: Swing, lowPrice: real, highPrice: real,
    midpoint: real)

  datatype PriceLocation = Discount | Equilibrium | Premium

  /** Later confirmation first, then the later pivot. */
  predicate MoreRecent(a: Swing, b: Swing) {
    a.confirmation > b.confirmation || (a.confirmation == b.confirmation && a.index > b.index)
  }

  /** The first of the most recent swings of one kind. */
  function Latest(swings: seq<Swing>, kind: SwingKind): Option<Swing> {
    if swings == [] then None
    else
      var last, best := swings[|swings| - 1], Latest(swings[..|swings| - 1], kind);
      if last.kind != kind then best
      else if best.None? || MoreRecent(last, best.value) then Some(last)
      else best
  }

  function ActiveDealingRange(swings: seq<Swing>): Option<DealingRange> {
    var high, low := Latest(swings, High), Latest(swings, Low);
    if high.None? || low.None? || low.value.price >= high.value.price then None
    else Some(DealingRange(low.value, high.value, low.value.price, high.value.price,
      (low.value.price + high.value.price) / 2.0))
  }

  function ClassifyPrice(price: real, r: DealingRange): PriceLocation {
    if price < r.midpoint then Discount else if price > r.midpoint then Premium else Equilibrium
  }

  predicate IsLatest(swings: seq<Swing>, swing: Swing) {
    swing in swings && forall other :: other in swings && other.kind == swing.kind ==> !MoreRecent(other, swing)
  }

  lemma {:induction false} LatestMeans(swings: seq<Swing>, kind: SwingKind)
    ensures Latest(swings, kind).None? <==> forall s :: s in swings ==> s.kind != kind
    ensures Latest(swings, kind).Some? ==>
              Latest(swings, kind).value.kind == kind && IsLatest(swings, Latest(swings, kind).value)
  {
    if swings != [] {
      var last := |swings| - 1;
      LatestMeans(swings[..last], kind);
      assert swings == swings[..last] + [swings[last]];
    }
  }

  /** The swings of a series are its pivots. */
  lemma {:induction false} SwingsArePivots(candles: seq<Candle>, lookback: nat, end: nat, s: Swing)
    requires end <= |candles| - lookback
    ensures s in SwingsBefore(candles, lookback, end) <==>
              && lookback <= s.index < end
              && ((IsSwingHigh(candles, s.index, lookback) && s == HighSwing(candles, s.index, lookback))
                  || (IsSwingLow(candles, s.index, lookback) && s == LowSwing(candles, s.index, lookback)))
  {
    hide IsSwingHigh, IsSwingLow, SwingsBefore;
    if end <= lookback {
      NoSwingsYet(candles, lookback, end);
    } else {
      NextSwings(candles, lookback, end - 1);
      SwingsArePivots(candles, lookback, end - 1, s);
    }
  }

  predicate LastHigh(candles: seq<Candle>, i: nat, lookback: nat) {
    IsSwingHigh(candles, i, lookback) && forall j :: i < j < |candles| ==> !IsSwingHigh(candles, j, lookback)
  }

  predicate LastLow(candles: seq<Candle>, i: nat, lookback: nat) {
    IsSwingLow(candles, i, lookback) && forall j :: i < j < |candles| ==> !IsSwingLow(candles, j, lookback)
  }

  lemma AllSwingsArePivots(candles: seq<Candle>, lookback: nat, s: Swing)
    ensures s in AllSwings(candles, lookback) <==>
              || (s.index < |candles| && IsSwingHigh(candles, s.index, lookback)
                   && s == HighSwing(candles, s.index, lookback))
              || (s.index < |candles| && IsSwingLow(candles, s.index, lookback)
                   && s == LowSwing(candles, s.index, lookback))
  {
    if |candles| >= lookback * 2 + 1 {
      SwingsArePivots(candles, lookback, |candles| - lookback, s);
    }
  }

  lemma LatestIsLast(candles: seq<Candle>, lookback: nat, i: nat)
    ensures LastHigh(candles, i, lookback) <==>
              i < |candles| && Latest(AllSwings(candles, lookback), High) == Some(HighSwing(candles, i, lookback))
    ensures LastLow(candles, i, lookback) <==>
              i < |candles| && Latest(AllSwings(candles, lookback), Low) == Some(LowSwing(candles, i, lookback))
  {
    hide IsSwingHigh, IsSwingLow, Latest, AllSwings;
    var swings := AllSwings(candles, lookback);
    LatestMeans(swings, High);
    LatestMeans(swings, Low);
    forall s ensures s in swings <==>
                       || (s.index < |candles| && IsSwingHigh(candles, s.index, lookback)
                            && s == HighSwing(candles, s.index, lookback))
                       || (s.index < |candles| && IsSwingLow(candles, s.index, lookback)
                            && s == LowSwing(candles, s.index, lookback)) {
      AllSwingsArePivots(candles, lookback, s);
    }
    PivotsInRange(candles, lookback);
    forall j: nat | j < |candles|
      && IsSwingHigh(candles, j, lookback) ensures HighSwing(candles, j, lookback) in swings {
    }
    forall j: nat | j < |candles| && IsSwingLow(candles, j, lookback) ensures LowSwing(candles, j, lookback) in swings {
    }
  }

  lemma PivotsInRange(candles: seq<Candle>, lookback: nat)
    ensures forall i: nat :: IsSwingHigh(candles, i, lookback) || IsSwingLow(candles, i, lookback) ==> i < |candles|
  {
  }

  /**
   * A series has a dealing range exactly when its last low pivot lies below its last high pivot; the middle lies
   * strictly between them, so the low is at a discount and the high at a premium.
   */
  lemma RangeMeans(candles: seq<Candle>, lookback: nat)
    ensures ActiveDealingRange(AllSwings(candles, lookback)).Some? <==>
              exists low: nat, high: nat :: LastLow(candles, low, lookback) && LastHigh(candles, high, lookback)
                                            && candles[low].lowPrice < candles[high].highPrice
    ensures ActiveDealingRange(AllSwings(candles, lookback)).Some? ==>
              var r := ActiveDealingRange(AllSwings(candles, lookback)).value;
              var low, high := r.lowSwing.index, r.highSwing.index;
              && LastLow(candles, low, lookback) && LastHigh(candles, high, lookback)
              && candles[low].lowPrice == r.lowPrice < r.midpoint < r.highPrice == candles[high].highPrice
              && ClassifyPrice(r.lowPrice, r) == Discount && ClassifyPrice(r.highPrice, r) == Premium
  {
    hide IsSwingHigh, IsSwingLow, Latest, AllSwings, LastHigh, LastLow;
    var swings := AllSwings(candles, lookback);
    LatestMeans(swings, High);
    LatestMeans(swings, Low);
    forall i: nat
      ensures LastHigh(candles, i, lookback) <==>
                i < |candles| && Latest(swings, High) == Some(HighSwing(candles, i, lookback))
      ensures LastLow(candles, i, lookback) <==>
                i < |candles| && Latest(swings, Low) == Some(LowSwing(candles, i, lookback))
    {
      LatestIsLast(candles, lookback, i);
    }
    if ActiveDealingRange(swings).Some? {
      AllSwingsArePivots(candles, lookback, Latest(swings, High).value);
      AllSwingsArePivots(candles, lookback, Latest(swings, Low).value);
    }
  }
}
