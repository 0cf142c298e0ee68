/** Risk sizing: from an entry zone and a target to a plan with levels, quantity and estimated costs. */
module TradePlans {
  import opened Wrappers
  import opened Lifecycle

  /** The part of the strategy configuration that sizes a trade. */
  datatype RiskConfig = RiskConfig(
    referenceBalance: real, riskFraction: real, maximumDisplayLeverage: real, liquidationBuffer: real,
    stopAtrBuffer: real, takeProfit1Multiple: real, minimumNetRewardToRisk: real)
  {
    function RiskAmount(): real {
      referenceBalance * riskFraction
    }
  }

  /** What the configuration's constructor enforces. */
  predicate ValidConfig(c: RiskConfig) {
    && c.referenceBalance > 0.0 && 0.0 < c.riskFraction < 1.0
    && c.maximumDisplayLeverage >= 1.0 && c.liquidationBuffer > 1.0
    && c.stopAtrBuffer >= 0.0 && c.minimumNetRewardToRisk > 0.0
  }

  const DEFAULT_CONFIG := RiskConfig(10000.0, 0.01, 20.0, 1.5, 0.1, 1.5, 3.0)

  /** What the ordering of the levels needs beyond the constructor's checks. */
  predicate Spaced(c: RiskConfig) {
    c.stopAtrBuffer > 0.0 && 1.0 <= c.takeProfit1Multiple < c.minimumNetRewardToRisk
  }

  /** The default values pass the constructor's checks and space the levels. */
  lemma DefaultsAreSpaced()
    ensures ValidConfig(DEFAULT_CONFIG) && Spaced(DEFAULT_CONFIG)
  {
  }

  datatype PlanRequest = PlanRequest(
    direction: Direction, entryLower: real, entryUpper: real, atr: real, target: real,
    feeRate: real, maxLeverage: real, quantityStep: real, minimumNotional: real)
  {
    function Entry(): real {
      (entryLower + entryUpper) / 2.0
    }

    function Stop(c: RiskConfig): real {
      if direction == Long then entryLower - atr * c.stopAtrBuffer else entryUpper + atr * c.stopAtrBuffer
    }

    function Risk(c: RiskConfig): real {
      SignedMove(direction, Stop(c), Entry())
    }

    function Reward(): real {
      SignedMove(direction, Entry(), target)
    }

    /** The fee on one unit at a price. */
    function Fee(price: real): real {
      price * feeRate
    }

    function NetRisk(c: RiskConfig): real {
      Risk(c) + Fee(Entry()) + Fee(Stop(c))
    }

    function NetReward(): real {
      Reward() - Fee(Entry()) - Fee(target)
    }
  }

  datatype TradePlan = TradePlan(
    entryLower: real, entryUpper: real, plannedEntry: real, stopLoss: real,
    takeProfit1: real, takeProfit2: real, grossRewardToRisk: real, netRewardToRisk: real,
    riskAmount: real, quantity: real, notional: real, leverage: real, margin: real,
    entryFee: real, exitFee: real, lossAtStop: real)

  datatype Refusal =
    | InvalidEntryZone | InvalidStopLoss | NoDirectionalTarget | FeesConsumeReward
    | QuantityBelowMinimum | NotionalBelowMinimum | DivisionByZero

  /** ROUND_DOWN: towards zero. */
  function Truncated(x: real): real {
    if x >= 0.0 then x.Floor as real else -((-x).Floor as real)
  }

  function Times(a: real, b: real): real {
    a * b
  }

  function RoundedDown(x: real, step: real): real
    requires step > 0.0
  {
    Times(Truncated(x / step), step)
  }

  function Least(a: real, b: real): real {
    if b < a then b else a
  }

  function Most(a: real, b: real): real {
    if b > a then b else a
  }

  function SafeLeverage(stopFraction: real, buffer: real): real
    requires stopFraction > 0.0 && buffer > 0.0
  {
    TimesPositive(stopFraction, buffer);
    RoundedDown(1.0 / Times(stopFraction, buffer), 0.01)
  }

  lemma TimesPositive(a: real, b: real)
    requires a > 0.0 && b > 0.0
    ensures Times(a, b) > 0.0
  {
  }

  lemma Positive(a: real, b: real)
    requires a > 0.0 && b > 0.0
    ensures a * b > 0.0 && a / b > 0.0
  {
  }

  function Leverage(r: PlanRequest, c: RiskConfig): real
    requires r.Entry() > 0.0 && r.Risk(c) > 0.0 && c.liquidationBuffer > 0.0
  {
    Positive(r.Risk(c), r.Entry());
    Most(1.0, Least(Least(c.maximumDisplayLeverage, r.maxLeverage),
      SafeLeverage(r.Risk(c) / r.Entry(), c.liquidationBuffer)))
  }

  function Ratio(a: real, b: real): real
    requires b != 0.0
  {
    a / b
  }

  function Sized(r: PlanRequest, c: RiskConfig, quantity: real): TradePlan
    requires r.Entry() > 0.0 && r.Risk(c) > 0.0 && r.NetRisk(c) != 0.0 && c.liquidationBuffer > 0.0
  {
    var entry, notional, leverage := r.Entry(), quantity * r.Entry(), Leverage(r, c);
    var distance := Times(c.takeProfit1Multiple, r.Risk(c));
    TradePlan(
      r.entryLower, r.entryUpper, entry, r.Stop(c),
      if r.direction == Long then entry + distance else entry - distance, r.target,
      Ratio(r.Reward(), r.Risk(c)), Ratio(r.NetReward(), r.NetRisk(c)),
      c.RiskAmount(), quantity, notional, leverage, notional / leverage,
      quantity * r.Fee(entry), quantity * r.Fee(r.target), quantity * r.NetRisk(c))
  }

  function BuildTradePlan(r: PlanRequest, c: RiskConfig): Result<TradePlan, Refusal>
    requires ValidConfig(c)
  {
    if r.entryLower <= 0.0 || r.entryUpper <= r.entryLower || r.atr <= 0.0 || r.quantityStep <= 0.0
      then Err(InvalidEntryZone)
    else if r.Stop(c) <= 0.0 || r.Risk(c) <= 0.0 then Err(InvalidStopLoss)
    else if r.Reward() <= 0.0 then Err(NoDirectionalTarget)
    else if r.NetReward() <= 0.0 then Err(FeesConsumeReward)
    else if r.NetRisk(c) == 0.0 then Err(DivisionByZero)
    else
      var quantity := RoundedDown(c.RiskAmount() / r.NetRisk(c), r.quantityStep);
      if quantity <= 0.0 then Err(QuantityBelowMinimum)
      else if quantity * r.Entry() < r.minimumNotional then Err(NotionalBelowMinimum)
      else Ok(Sized(r, c, quantity))
  }

  /** Whether the plan carries the reduced-leverage warning. */
  predicate LeverageReduced(p: TradePlan, c: RiskConfig) {
    p.leverage < c.maximumDisplayLeverage
  }

  // ---------- rounding ----------

  lemma TimesMonotone(a: real, b: real, k: real)
    requires a <= b && k >= 0.0
    ensures a * k <= b * k
  {
  }

  lemma DivideTimes(x: real, step: real)
    requires step != 0.0
    ensures x / step * step == x
  {
  }

  lemma TimesStrict(a: real, b: real, k: real)
    requires a < b && k > 0.0
    ensures Times(a, k) < Times(b, k)
  {
  }

  lemma OneMore(a: real, k: real)
    ensures Times(a + 1.0, k) == Times(a, k) + k
  {
  }

  lemma BetweenMultiples(step: real, q: real, floor: real)
    requires step > 0.0 && floor <= q < floor + 1.0
    ensures Times(floor, step) <= Times(q, step) < Times(floor, step) + step
  {
    hide Times;
    if floor < q {
      TimesStrict(floor, q, step);
    }
    TimesStrict(q, floor + 1.0, step);
    OneMore(floor, step);
  }

  /** Rounding down never exceeds the value and falls short of it by less than one step. */
  lemma RoundedDownBounds(x: real, step: real)
    requires x >= 0.0 && step > 0.0
    ensures x - step < RoundedDown(x, step) <= x
  {
    hide Times;
    QuotientTimes(x, step);
    if x > 0.0 {
      Positive(x, step);
    }
    BetweenMultiples(step, x / step, Truncated(x / step));
  }

  lemma QuotientTimes(x: real, step: real)
    requires step != 0.0
    ensures Times(x / step, step) == x
  {
    DivideTimes(x, step);
  }

  // ---------- the levels of an accepted plan ----------

  /** What the evaluator accepts: a plan whose net reward is at least the configured multiple of its net risk. */
  predicate Accepted(r: PlanRequest, c: RiskConfig, p: TradePlan)
    requires ValidConfig(c)
  {
    BuildTradePlan(r, c) == Ok(p) && p.netRewardToRisk >= c.minimumNetRewardToRisk
  }

  lemma FeeNotNegative(r: PlanRequest, price: real)
    requires price > 0.0 && r.feeRate >= 0.0
    ensures r.Fee(price) >= 0.0
  {
  }

  lemma RatioBound(reward: real, risk: real, ratio: real)
    requires risk > 0.0 && reward / risk >= ratio
    ensures reward >= Times(ratio, risk)
  {
    DivideTimes(reward, risk);
    TimesMonotone(ratio, reward / risk, risk);
  }

  /** Fees shrink the reward and grow the risk, so a net ratio bounds the gross one. */
  lemma GrossFromNet(reward: real, risk: real, rewardFees: real, riskFees: real, ratio: real)
    requires risk > 0.0 && rewardFees >= 0.0 && riskFees >= 0.0 && ratio > 0.0
    requires Ratio(reward - rewardFees, risk + riskFees) >= ratio
    ensures reward >= Times(ratio, risk)
  {
    RatioBound(reward - rewardFees, risk + riskFees, ratio);
    TimesMonotone(risk, risk + riskFees, ratio);
  }

  /** The facts the guards leave about an accepted plan; everything below is derived from them. */
  predicate Guarded(r: PlanRequest, c: RiskConfig) {
    && 0.0 < r.entryLower < r.entryUpper && r.atr > 0.0 && r.quantityStep > 0.0
    && r.Stop(c) > 0.0 && r.Risk(c) > 0.0 && r.Reward() > 0.0 && r.NetReward() > 0.0 && r.NetRisk(c) != 0.0
  }

  lemma BuiltMeans(r: PlanRequest, c: RiskConfig, p: TradePlan)
    requires ValidConfig(c) && BuildTradePlan(r, c) == Ok(p)
    ensures Guarded(r, c) && p.quantity > 0.0 && p == Sized(r, c, p.quantity)
    ensures p.quantity == RoundedDown(c.RiskAmount() / r.NetRisk(c), r.quantityStep)
    ensures p.quantity * r.Entry() >= r.minimumNotional
  {
    hide RoundedDown, SafeLeverage, Leverage;
  }

  /** The stop, the entry zone and the two targets are strictly ordered away from the stop. */
  predicate Ordered(d: Direction, p: TradePlan) {
    if d == Long
    then 0.0 < p.stopLoss < p.entryLower < p.plannedEntry < p.entryUpper < p.takeProfit1 < p.takeProfit2
    else 0.0 < p.takeProfit2 < p.takeProfit1 < p.entryLower < p.plannedEntry < p.entryUpper < p.stopLoss
  }

  lemma GrossReward(r: PlanRequest, c: RiskConfig, p: TradePlan)
    requires ValidConfig(c) && Accepted(r, c, p) && r.feeRate >= 0.0 && r.target > 0.0
    ensures r.Reward() >= Times(c.minimumNetRewardToRisk, r.Risk(c))
    ensures r.NetRisk(c) >= r.Risk(c)
  {
    hide BuildTradePlan, Leverage, Ratio, PlanRequest.Fee, PlanRequest.Stop;
    BuiltMeans(r, c, p);
    FeeNotNegative(r, r.Entry());
    FeeNotNegative(r, r.Stop(c));
    FeeNotNegative(r, r.target);
    GrossFromNet(r.Reward(), r.Risk(c), r.Fee(r.Entry()) + r.Fee(r.target), r.Fee(r.Entry()) + r.Fee(r.Stop(c)),
      c.minimumNetRewardToRisk);
  }

  lemma MultipleOfRisk(multiple: real, risk: real)
    requires multiple >= 1.0 && risk > 0.0
    ensures Times(multiple, risk) >= risk
  {
  }

  lemma BufferPositive(r: PlanRequest, c: RiskConfig)
    requires r.atr > 0.0 && c.stopAtrBuffer > 0.0
    ensures if r.direction == Long then r.Stop(c) < r.entryLower else r.Stop(c) > r.entryUpper
  {
    Positive(r.atr, c.stopAtrBuffer);
  }

  /** Every accepted plan has its stop, entry zone and targets strictly in order. */
  lemma LevelsOrdered(r: PlanRequest, c: RiskConfig, p: TradePlan)
    requires ValidConfig(c) && Spaced(c) && Accepted(r, c, p) && r.feeRate >= 0.0 && r.target > 0.0
    ensures Ordered(r.direction, p)
  {
    hide BuildTradePlan, Leverage, Ratio, Times, PlanRequest.Fee, PlanRequest.Stop;
    BuiltMeans(r, c, p);
    GrossReward(r, c, p);
    BufferPositive(r, c);
    MultipleOfRisk(c.takeProfit1Multiple, r.Risk(c));
    TimesStrict(c.takeProfit1Multiple, c.minimumNetRewardToRisk, r.Risk(c));
  }

  // ---------- fees and breakeven ----------

  /** The signal record a plan is published as; the fee rate is recovered from the fee and the notional. */
  function TermsOf(d: Direction, p: TradePlan, fundingRate: real, fundingIntervalMinutes: int): Terms {
    Terms(d, p.entryLower, p.entryUpper, p.plannedEntry, p.stopLoss, p.takeProfit1, p.takeProfit2,
          p.quantity, p.riskAmount, if p.notional > 0.0 then p.entryFee / p.notional else 0.00055,
          fundingRate, fundingIntervalMinutes)
  }

  lemma RateFromFee(quantity: real, entry: real, rate: real)
    requires quantity > 0.0 && entry > 0.0
    ensures quantity * entry > 0.0 && quantity * (entry * rate) / (quantity * entry) == rate
  {
    PositiveProduct(quantity, entry);
    assert quantity * (entry * rate) == rate * (quantity * entry);
  }

  lemma PositiveProduct(a: real, b: real)
    requires a > 0.0 && b > 0.0
    ensures a * b > 0.0
  {
  }

  /** The recovered rate is the rate the plan was built with. */
  lemma FeeRateRecovered(r: PlanRequest, c: RiskConfig, p: TradePlan, fundingRate: real, fundingIntervalMinutes: int)
    requires ValidConfig(c) && BuildTradePlan(r, c) == Ok(p)
    ensures TermsOf(r.direction, p, fundingRate, fundingIntervalMinutes).feeRate == r.feeRate
  {
    hide BuildTradePlan, Leverage, Ratio, Times;
    BuiltMeans(r, c, p);
    RateFromFee(p.quantity, r.Entry(), r.feeRate);
  }

  lemma BreakevenBound(entry: real, target: real, rate: real, numerator: real, denominator: real)
    requires denominator > 0.0 && numerator < target * denominator
    ensures numerator / denominator < target
  {
    if numerator / denominator >= target {
      TimesMonotone(target, numerator / denominator, denominator);
      DivideTimes(numerator, denominator);
    }
  }

  lemma LongBreakeven(entry: real, target: real, rate: real)
    requires entry > 0.0 && target > 0.0 && rate >= 0.0 && target - entry - entry * rate - target * rate > 0.0
    ensures rate < 1.0 && entry * (1.0 + rate) / (1.0 - rate) < target
  {
    if rate >= 1.0 {
      TimesMonotone(1.0, rate, target);
      PositiveProduct(entry, rate);
    }
    assert entry * (1.0 + rate) == entry + entry * rate;
    assert target * (1.0 - rate) == target - target * rate;
    BreakevenBound(entry, target, rate, entry * (1.0 + rate), 1.0 - rate);
  }

  lemma ShortBreakeven(entry: real, target: real, rate: real)
    requires entry > 0.0 && target > 0.0 && rate >= 0.0 && entry - target - entry * rate - target * rate > 0.0
    ensures rate < 1.0 && target < entry * (1.0 - rate) / (1.0 + rate)
  {
    if rate >= 1.0 {
      TimesMonotone(1.0, rate, entry);
      PositiveProduct(target, rate);
    }
    assert entry * (1.0 - rate) == entry - entry * rate;
    assert target * (1.0 + rate) == target + target * rate;
    if entry * (1.0 - rate) / (1.0 + rate) <= target {
      TimesMonotone(entry * (1.0 - rate) / (1.0 + rate), target, 1.0 + rate);
      DivideTimes(entry * (1.0 - rate), 1.0 + rate);
    }
  }

  predicate BreakevenBefore(t: Terms, target: real)
    requires t.feeRate != 1.0 && t.feeRate != -1.0
  {
    if t.direction == Long then Breakeven(t) < target else target < Breakeven(t)
  }

  lemma NetRewardMeansBeyond(r: PlanRequest, t: Terms)
    requires t.direction == r.direction && t.plannedEntry == r.Entry() && t.feeRate == r.feeRate
    requires r.Entry() > 0.0 && r.target > 0.0 && r.feeRate >= 0.0 && r.NetReward() > 0.0
    ensures t.feeRate < 1.0 && BreakevenBefore(t, r.target)
  {
    if t.direction == Long {
      LongBreakeven(t.plannedEntry, r.target, t.feeRate);
    } else {
      ShortBreakeven(t.plannedEntry, r.target, t.feeRate);
    }
  }

  /** The second target lies strictly beyond the fee-adjusted breakeven level, and the fee rate is below one. */
  lemma TargetBeyondBreakeven(r: PlanRequest, c: RiskConfig, p: TradePlan, fundingRate: real,
                              fundingIntervalMinutes: int)
    requires ValidConfig(c) && BuildTradePlan(r, c) == Ok(p) && r.feeRate >= 0.0 && r.target > 0.0
    ensures var t := TermsOf(r.direction, p, fundingRate, fundingIntervalMinutes);
            0.0 <= t.feeRate < 1.0 && BreakevenBefore(t, p.takeProfit2)
  {
    hide BuildTradePlan, Leverage, Ratio, Times, Breakeven, BreakevenBefore, PlanRequest.Fee, PlanRequest.Stop;
    BuiltMeans(r, c, p);
    FeeRateRecovered(r, c, p, fundingRate, fundingIntervalMinutes);
    NetRewardMeansBeyond(r, TermsOf(r.direction, p, fundingRate, fundingIntervalMinutes));
  }

  // ---------- the loss at the stop ----------

  lemma LossFormula(d: Direction, quantity: real, entry: real, stop: real, rate: real)
    ensures quantity * SignedMove(d, entry, stop) - quantity * (entry + stop) * rate
            == -(quantity * (SignedMove(d, stop, entry) + entry * rate + stop * rate))
  {
  }

  lemma SizeWithinBudget(budget: real, perUnit: real, step: real)
    requires budget > 0.0 && perUnit > 0.0 && step > 0.0
    ensures var quantity := RoundedDown(budget / perUnit, step);
            budget - step * perUnit < quantity * perUnit <= budget
  {
    hide RoundedDown;
    Positive(budget, perUnit);
    var raw := budget / perUnit;
    RoundedDownBounds(raw, step);
    var quantity := RoundedDown(raw, step);
    DivideTimes(budget, perUnit);
    TimesMonotone(quantity, raw, perUnit);
    TimesStrict(raw, quantity + step, perUnit);
    assert Times(quantity + step, perUnit) == quantity * perUnit + step * perUnit;
  }

  lemma LossIsEstimate(r: PlanRequest, c: RiskConfig, p: TradePlan, fundingRate: real, fundingIntervalMinutes: int)
    requires ValidConfig(c) && BuildTradePlan(r, c) == Ok(p)
    ensures FullExitPnl(TermsOf(r.direction, p, fundingRate, fundingIntervalMinutes), p.stopLoss) == -p.lossAtStop
  {
    hide BuildTradePlan, Leverage, Ratio, Times, RoundedDown;
    BuiltMeans(r, c, p);
    FeeRateRecovered(r, c, p, fundingRate, fundingIntervalMinutes);
    LossFormula(r.direction, p.quantity, r.Entry(), r.Stop(c), r.feeRate);
  }

  lemma LossWithinBudget(r: PlanRequest, c: RiskConfig, p: TradePlan)
    requires ValidConfig(c) && BuildTradePlan(r, c) == Ok(p) && r.feeRate >= 0.0
    ensures p.riskAmount - r.quantityStep * r.NetRisk(c) < p.lossAtStop <= p.riskAmount && p.riskAmount > 0.0
  {
    hide BuildTradePlan, Leverage, Ratio, Times, RoundedDown, PlanRequest.Fee, PlanRequest.Stop, PlanRequest.Risk;
    BuiltMeans(r, c, p);
    FeeNotNegative(r, r.Entry());
    FeeNotNegative(r, r.Stop(c));
    PositiveProduct(c.referenceBalance, c.riskFraction);
    SizeWithinBudget(c.RiskAmount(), r.NetRisk(c), r.quantityStep);
  }

  lemma AboveMinusOne(ratio: real, risk: real)
    requires risk > 0.0 && Times(ratio, risk) >= -risk
    ensures ratio >= -1.0
  {
    if ratio < -1.0 {
      TimesStrict(ratio, -1.0, risk);
    }
  }

  lemma NotBelowMinusOne(pnl: real, risk: real)
    requires risk > 0.0 && pnl >= -risk
    ensures pnl / risk >= -1.0
  {
    QuotientTimes(pnl, risk);
    AboveMinusOne(pnl / risk, risk);
  }

  /**
   * A full stop loses exactly the plan's estimate, at most the risk amount (so never worse than -1 R) and less than one
   * quantity step short of it.
   */
  lemma FullStopLosesEstimate(r: PlanRequest, c: RiskConfig, p: TradePlan, fundingRate: real,
                              fundingIntervalMinutes: int)
    requires ValidConfig(c) && BuildTradePlan(r, c) == Ok(p) && r.feeRate >= 0.0
    ensures p.riskAmount > 0.0
    ensures var t := TermsOf(r.direction, p, fundingRate, fundingIntervalMinutes);
            FullExitPnl(t, p.stopLoss) == -p.lossAtStop && FullExitPnl(t, p.stopLoss) / p.riskAmount >= -1.0
    ensures p.riskAmount - r.quantityStep * r.NetRisk(c) < p.lossAtStop <= p.riskAmount
  {
    hide BuildTradePlan, FullExitPnl, TermsOf;
    LossIsEstimate(r, c, p, fundingRate, fundingIntervalMinutes);
    LossWithinBudget(r, c, p);
    NotBelowMinusOne(-p.lossAtStop, p.riskAmount);
  }

  // ---------- leverage ----------

  lemma Halved(x: real, y: real)
    requires x > 0.0 && 0.0 <= y <= 1.0 / x
    ensures Times(y, x) <= 1.0
  {
    DivideTimes(1.0, x);
    TimesMonotone(y, 1.0 / x, x);
  }

  /**
   * Leverage above one respects both caps and leaves the stop inside the liquidation distance: the move to the stop,
   * scaled by the safety buffer, consumes at most the whole margin.
   */
  lemma LeverageIsSafe(r: PlanRequest, c: RiskConfig, p: TradePlan)
    requires ValidConfig(c) && BuildTradePlan(r, c) == Ok(p)
    ensures p.leverage >= 1.0
    ensures p.leverage > 1.0 ==>
              && p.leverage <= c.maximumDisplayLeverage && p.leverage <= r.maxLeverage
              && Times(p.leverage, Times(r.Risk(c) / r.Entry(), c.liquidationBuffer)) <= 1.0
  {
    hide BuildTradePlan, Ratio, Times, RoundedDown;
    BuiltMeans(r, c, p);
    Positive(r.Risk(c), r.Entry());
    var stopFraction := r.Risk(c) / r.Entry();
    TimesPositive(stopFraction, c.liquidationBuffer);
    var consumed := Times(stopFraction, c.liquidationBuffer);
    Positive(1.0, consumed);
    RoundedDownBounds(1.0 / consumed, 0.01);
    if p.leverage > 1.0 {
      Halved(consumed, p.leverage);
    }
  }

  // ---------- what publication may rely on ----------

  /** An accepted plan is published as a well-formed signal: the hypothesis of every lifecycle theorem is met. */
  lemma AcceptedIsWellFormed(r: PlanRequest, c: RiskConfig, p: TradePlan, fundingRate: real,
                             fundingIntervalMinutes: int)
    requires ValidConfig(c) && Spaced(c) && Accepted(r, c, p) && r.feeRate >= 0.0 && r.target > 0.0
    ensures WellFormedTerms(TermsOf(r.direction, p, fundingRate, fundingIntervalMinutes))
  {
    hide BuildTradePlan, Leverage, Ratio, Times, Breakeven, PlanRequest.Fee, PlanRequest.Stop;
    BuiltMeans(r, c, p);
    LevelsOrdered(r, c, p);
    TargetBeyondBreakeven(r, c, p, fundingRate, fundingIntervalMinutes);
    PositiveProduct(c.referenceBalance, c.riskFraction);
  }
}
