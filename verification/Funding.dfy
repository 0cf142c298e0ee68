/** The funding estimate of a virtual trade. */
module Funding {
  import opened Wrappers
  import opened Lifecycle

  const MICROSECONDS_PER_MINUTE := 60_000_000

  function Later(a: int, b: int): int {
    if a < b then b else a
  }

  function Earlier(a: int, b: int): int {
    if a < b then a else b
  }

  /** Signed funding rate: longs pay a positive rate, shorts receive it. */
  function DirectedRate(t: Terms): real {
    t.fundingRate * (if t.direction == Long then 1.0 else -1.0)
  }

  /** Quantity held for a span of time. */
  function Weighted(quantity: real, span: int): real {
    quantity * (span as real)
  }

  /** The cost of one unit of exposure, before dividing by the funding interval. */
  function UnitRate(t: Terms): real {
    t.plannedEntry * DirectedRate(t)
  }

  function IntervalLength(t: Terms): real {
    (t.fundingIntervalMinutes * MICROSECONDS_PER_MINUTE) as real
  }

  function SegmentCost(t: Terms, quantity: real, start: int, end: int): real
    requires t.fundingIntervalMinutes > 0
  {
    quantity * t.plannedEntry * DirectedRate(t) * (Later(0, end - start) as real) / IntervalLength(t)
  }

  function EstimateFundingCost(s: LifecycleState, eventTime: int, target: SignalStatus): real {
    var t := s.terms;
    if s.enteredAt.None? || eventTime <= s.enteredAt.value || t.fundingIntervalMinutes <= 0 || t.fundingRate == 0.0
      then 0.0
    else
      var entered := s.enteredAt.value;
      if target == Tp1Reached || s.tp1ReachedAt.None? then SegmentCost(t, t.quantity, entered, eventTime)
      else
        var tp1 := Earlier(Later(s.tp1ReachedAt.value, entered), eventTime);
        SegmentCost(t, t.quantity, entered, tp1) + SegmentCost(t, t.quantity / 2.0, tp1, eventTime)
  }

  // ---------- the independent definition: a sum over every instant the position was open ----------

  /** The quantity open at one instant; TP1 itself still closes on the full quantity. */
  function OpenQuantity(s: LifecycleState, target: SignalStatus, at: int): real {
    if s.enteredAt.None? || at < s.enteredAt.value then 0.0
    else if target != Tp1Reached && s.tp1ReachedAt.Some? && s.tp1ReachedAt.value <= at then s.terms.quantity / 2.0
    else s.terms.quantity
  }

  /** Quantity held, summed over the microseconds from `start` up to `end`. */
  function Exposure(s: LifecycleState, target: SignalStatus, start: int, end: int): real
    decreases end - start
  {
    if end <= start then 0.0 else Exposure(s, target, start, end - 1) + OpenQuantity(s, target, end - 1)
  }

  lemma {:induction false} ConstantExposure(s: LifecycleState, target: SignalStatus, start: int, end: int,
                                            quantity: real)
    requires start <= end && forall at :: start <= at < end ==> OpenQuantity(s, target, at) == quantity
    ensures Exposure(s, target, start, end) == Weighted(quantity, end - start)
    decreases end - start
  {
    if start < end {
      ConstantExposure(s, target, start, end - 1, quantity);
      assert ((end - start) as real) == ((end - 1 - start) as real) + 1.0;
    }
  }

  lemma {:induction false} ExposureSplits(s: LifecycleState, target: SignalStatus, start: int, mid: int, end: int)
    requires start <= mid <= end
    ensures Exposure(s, target, start, end) == Exposure(s, target, start, mid) + Exposure(s, target, mid, end)
    decreases end - mid
  {
    if mid < end {
      ExposureSplits(s, target, start, mid, end - 1);
    }
  }

  /** The cost of an exposure at the signal's funding rate. */
  function Cost(t: Terms, exposure: real): real
    requires t.fundingIntervalMinutes > 0
  {
    exposure * UnitRate(t) / IntervalLength(t)
  }

  lemma CostAdds(t: Terms, a: real, b: real)
    requires t.fundingIntervalMinutes > 0
    ensures Cost(t, a) + Cost(t, b) == Cost(t, a + b)
    ensures Cost(t, 0.0) == 0.0
    ensures t.fundingRate == 0.0 ==> UnitRate(t) == 0.0 && Cost(t, a) == 0.0
  {
    var i := IntervalLength(t);
    assert i > 0.0;
    assert a * UnitRate(t) / i + b * UnitRate(t) / i == (a + b) * UnitRate(t) / i;
    if t.fundingRate == 0.0 {
      assert DirectedRate(t) == 0.0;
    }
  }

  /**
   * The two-segment estimate is the integral of the open quantity over the holding time, whatever the order of the
   * recorded times; it is zero when the signal never entered or funds at no interval.
   */
  lemma FundingIsExposure(s: LifecycleState, eventTime: int, target: SignalStatus)
    ensures EstimateFundingCost(s, eventTime, target)
            == if s.enteredAt.None? || s.terms.fundingIntervalMinutes <= 0 then 0.0
               else Cost(s.terms, Exposure(s, target, s.enteredAt.value, eventTime))
  {
    var t := s.terms;
    if s.enteredAt.Some? && t.fundingIntervalMinutes > 0 {
      hide SegmentCost, Cost, Weighted, UnitRate;
      var entered, exposure := s.enteredAt.value, Exposure(s, target, s.enteredAt.value, eventTime);
      CostAdds(t, exposure, 0.0);
      if eventTime > entered {
        hide Exposure;
        var tp1 := HalvedAt(s, target, eventTime);
        ExposureInTwoParts(s, eventTime, target);
        SegmentRegroups(t, t.quantity, entered, tp1);
        SegmentRegroups(t, t.quantity / 2.0, tp1, eventTime);
        CostAdds(t, Weighted(t.quantity, tp1 - entered), Weighted(t.quantity / 2.0, eventTime - tp1));
        NoSpan(t.quantity / 2.0);
      }
    }
  }

  lemma NoSpan(quantity: real)
    ensures Weighted(quantity, 0) == 0.0
  {
  }

  /** From when the position counts half, clamped into the holding time. */
  function HalvedAt(s: LifecycleState, target: SignalStatus, eventTime: int): int
    requires s.enteredAt.Some?
  {
    if target == Tp1Reached || s.tp1ReachedAt.None? then eventTime
    else Earlier(Later(s.tp1ReachedAt.value, s.enteredAt.value), eventTime)
  }

  lemma ExposureInTwoParts(s: LifecycleState, eventTime: int, target: SignalStatus)
    requires s.enteredAt.Some? && eventTime > s.enteredAt.value
    ensures var tp1 := HalvedAt(s, target, eventTime);
            && s.enteredAt.value <= tp1 <= eventTime
            && Exposure(s, target, s.enteredAt.value, eventTime)
               == Weighted(s.terms.quantity, tp1 - s.enteredAt.value)
                 + Weighted(s.terms.quantity / 2.0, eventTime - tp1)
  {
    hide Weighted, Exposure;
    var entered, tp1 := s.enteredAt.value, HalvedAt(s, target, eventTime);
    ConstantExposure(s, target, entered, tp1, s.terms.quantity);
    ConstantExposure(s, target, tp1, eventTime, s.terms.quantity / 2.0);
    ExposureSplits(s, target, entered, tp1, eventTime);
  }

  lemma SegmentRegroups(t: Terms, quantity: real, start: int, end: int)
    requires t.fundingIntervalMinutes > 0 && start <= end
    ensures SegmentCost(t, quantity, start, end) == Cost(t, Weighted(quantity, end - start))
  {
    var n := (end - start) as real;
    assert quantity * t.plannedEntry * DirectedRate(t) * n == quantity * n * (t.plannedEntry * DirectedRate(t));
  }
}
