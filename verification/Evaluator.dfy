/** Scoring and suppressing one candidate, and what an accepted candidate guarantees. */
module Evaluator {
  import opened Wrappers
  import opened Sequences
  import opened SmcModels
  import opened Ranges
  import opened Analysis
  import opened Lifecycle
  import opened TradePlans

  datatype MarketContext = MarketContext(
    currentPrice: real, volumeRatio: Option<real>, openInterestChange: Option<real>, fundingRate: Option<real>,
    spreadBps: Option<real>, turnover24h: Option<real>, btcReturn: Option<real>, btcTrueRangeRatio: Option<real>,
    takerFeeRate: real, maxLeverage: real, quantityStep: real, minimumNotional: real)

  datatype StrategyInput = StrategyInput(
    symbol: string, analyzedAt: int, h4: SmcAnalysis, h1: SmcAnalysis, m15: SmcAnalysis, m5: SmcAnalysis,
      market: MarketContext)

  datatype Weights = Weights(
    alignment: nat, sweep: nat, structure: nat, zone: nat, location: nat, volumeInterest: nat, condition: nat)
  {
    function Total(): nat {
      alignment + sweep + structure + zone + location + volumeInterest + condition
    }
  }

  datatype StrategyConfig = StrategyConfig(
    weights: Weights, minimumScore: nat, strongScore: nat, lifetime: int, risk: RiskConfig,
    minimumTurnover: real, maximumSpreadBps: real, minimumAtrPercent: real, maximumAtrPercent: real,
    volumeRatio: real, openInterestRatio: real, crowdedFundingRate: real, btcReturn: real, btcTrueRangeRatio: real)

  predicate ValidStrategy(c: StrategyConfig) {
    && c.weights.Total() == 100
    && c.minimumScore <= c.strongScore <= 100
    && c.lifetime >= 1
    && ValidConfig(c.risk)
  }

  datatype Reason =
    | HigherTimeframesOpposed | MissingStructureDisplacement | MissingEntryZone | EntryZoneNotRetested
    | TurnoverBelowMinimum | SpreadAboveMaximum | VolatilityBelowMinimum | VolatilityAboveMaximum
    | MissingConfirmation | AtrUnavailable | LiquidityTargetUnavailable | PlanRefused(refusal: Refusal)
    | RewardToRiskBelowMinimum | ScoreBelowThreshold

  datatype Caution = CrowdedFunding | AbnormalBtcMovement | LeverageReducedForLiquidation

  datatype Candidate = Candidate(
    symbol: string, direction: Direction, accepted: bool, score: int, strong: bool, components: seq<nat>,
    warnings: seq<Caution>, suppression: seq<Reason>, plan: Option<TradePlan>, analyzedAt: int, expiresAt: int)

  // ---------- reading the analyses ----------

  function BiasOf(d: Direction): Bias {
    if d == Long then Bullish else Bearish
  }

  function PreferredLocation(d: Direction): PriceLocation {
    if d == Long then Discount else Premium
  }

  function LatestBreakDirection(f: SmcAnalysis): Option<Bias> {
    var breaks := f.breaks;
    if breaks == [] then None else Some(breaks[|breaks| - 1].direction)
  }

  predicate IsLastOf(breaks: seq<StructureBreak>, bias: Bias, k: int) {
    0 <= k < |breaks| && breaks[k].direction == bias && forall j :: k < j < |breaks| ==> breaks[j].direction != bias
  }

  function LatestBreak(breaks: seq<StructureBreak>, bias: Bias): (r: Option<StructureBreak>)
    ensures r.None? <==> forall k :: 0 <= k < |breaks| ==> breaks[k].direction != bias
    ensures r.Some? ==> exists k :: IsLastOf(breaks, bias, k) && breaks[k] == r.value
  {
    if breaks == [] then None
    else
      var n := |breaks| - 1;
      var last, before := breaks[n], breaks[..n];
      assert last.direction == bias ==> IsLastOf(breaks, bias, n);
      assert last.direction != bias ==> forall k :: IsLastOf(before, bias, k) ==> IsLastOf(breaks, bias, k);
      if last.direction == bias then Some(last) else LatestBreak(before, bias)
  }

  predicate HasSweep(f: SmcAnalysis, bias: Bias) {
    exists k :: 0 <= k < |f.sweeps| && f.sweeps[k].direction == bias
  }

  predicate HasDisplacement(f: SmcAnalysis, bias: Bias, index: nat) {
    exists k :: 0 <= k < |f.displacements| && f.displacements[k].direction == bias && f.displacements[k].index == index
  }

  function LatestAtr(atr: seq<Option<real>>): (r: Option<real>)
    ensures r.None? <==> forall k :: 0 <= k < |atr| ==> atr[k].None?
  {
    if atr == [] then None
    else if atr[|atr| - 1].Some? then atr[|atr| - 1]
    else LatestAtr(atr[..|atr| - 1])
  }

  datatype Zone = Zone(created: nat, lower: real, upper: real, retested: bool)

  predicate Usable(p: ZoneProgress) {
    p.status == Open || p.status == PartiallyFilled
  }

  function GapZones(gaps: seq<FairValueGap>, bias: Bias): seq<Zone> {
    if gaps == [] then []
    else
      var g := gaps[0];
      (if g.direction == bias && Usable(g.progress)
       then [Zone(g.createdIndex, g.lowerPrice, g.upperPrice, g.progress.status == PartiallyFilled)] else [])
      + GapZones(gaps[1..], bias)
  }

  function BlockZones(blocks: seq<OrderBlock>, bias: Bias): seq<Zone> {
    if blocks == [] then []
    else
      var b := blocks[0];
      (if b.direction == bias && Usable(b.progress)
       then [Zone(b.createdIndex, b.lowerPrice, b.upperPrice, b.progress.status == PartiallyFilled)] else [])
      + BlockZones(blocks[1..], bias)
  }

  /** The first of the most recently created zones. */
  function Newest(zones: seq<Zone>): (r: Option<Zone>)
    ensures r.None? <==> zones == []
    ensures r.Some? ==> exists k :: 0 <= k < |zones| && zones[k] == r.value
                                    && (forall j :: 0 <= j < k ==> zones[j].created < r.value.created)
                                    && (forall j :: k <= j < |zones| ==> zones[j].created <= r.value.created)
  {
    if zones == [] then None
    else
      var rest := Newest(zones[1..]);
      if rest.None? || zones[0].created >= rest.value.created then Some(zones[0]) else rest
  }

  function EntryZone(f: SmcAnalysis, bias: Bias): Option<Zone> {
    Newest(GapZones(f.gaps, bias) + BlockZones(f.blocks, bias))
  }

  predicate IsTarget(s: Swing, d: Direction, entry: real) {
    if d == Long then s.kind == High && s.price > entry else s.kind == Low && s.price < entry
  }

  /** The nearest opposing swing beyond the entry. */
  function NearestTarget(swings: seq<Swing>, d: Direction, entry: real): (r: Option<real>)
    ensures r.None? <==> forall s :: s in swings ==> !IsTarget(s, d, entry)
    ensures r.Some? ==> exists s :: s in swings && IsTarget(s, d, entry) && s.price == r.value
    ensures r.Some? ==> forall s :: s in swings && IsTarget(s, d, entry) ==>
              if d == Long then r.value <= s.price else s.price <= r.value
  {
    if swings == [] then None
    else
      var rest := NearestTarget(swings[1..], d, entry);
      if !IsTarget(swings[0], d, entry) then rest
      else if rest.None? then Some(swings[0].price)
      else if d == Long then Some(Least(swings[0].price, rest.value))
      else Some(Most(swings[0].price, rest.value))
  }

  function LiquidityTarget(x: StrategyInput, d: Direction, z: Zone): Option<real> {
    NearestTarget(x.m15.swings + x.h1.swings, d, (z.lower + z.upper) / 2.0)
  }

  predicate FundingIsCrowded(d: Direction, rate: Option<real>, threshold: real) {
    rate.Some? && if d == Long then rate.value >= threshold else rate.value <= -threshold
  }

  function Magnitude(x: real): real {
    if x < 0.0 then -x else x
  }

  predicate BtcIsAbnormal(m: MarketContext, c: StrategyConfig) {
    || (m.btcReturn.Some? && Magnitude(m.btcReturn.value) >= c.btcReturn)
    || (m.btcTrueRangeRatio.Some? && m.btcTrueRangeRatio.value >= c.btcTrueRangeRatio)
  }

  // ---------- what acceptance requires ----------

  predicate Opposed(f: SmcAnalysis, bias: Bias) {
    LatestBreakDirection(f).Some? && LatestBreakDirection(f) != Some(bias)
  }

  predicate Displaced(x: StrategyInput, bias: Bias) {
    var setup := LatestBreak(x.m15.breaks, bias);
    setup.Some? && HasDisplacement(x.m15, bias, setup.value.index)
  }

  predicate Retested(z: Zone, price: real) {
    z.retested || z.lower <= price <= z.upper
  }

  predicate VolatilityInRange(x: StrategyInput, c: StrategyConfig) {
    var atr, price := LatestAtr(x.m15.atr), x.market.currentPrice;
    atr.Some? && price > 0.0 ==> c.minimumAtrPercent <= atr.value / price <= c.maximumAtrPercent
  }

  predicate MarketPasses(x: StrategyInput, c: StrategyConfig) {
    && (x.market.turnover24h.Some? ==> x.market.turnover24h.value >= c.minimumTurnover)
    && (x.market.spreadBps.Some? ==> x.market.spreadBps.value <= c.maximumSpreadBps)
    && VolatilityInRange(x, c)
  }

  function RequestOf(x: StrategyInput, d: Direction, z: Zone, atr: real, target: real): PlanRequest {
    PlanRequest(d, z.lower, z.upper, atr, target, x.market.takerFeeRate, x.market.maxLeverage,
                x.market.quantityStep, x.market.minimumNotional)
  }

  /** The plan attempted for the newest usable zone, when an average range and a target exist. */
  function PlanAttempt(x: StrategyInput, d: Direction, c: StrategyConfig): Option<Result<TradePlan, Refusal>>
    requires ValidStrategy(c)
  {
    var zone, atr := EntryZone(x.m15, BiasOf(d)), LatestAtr(x.m15.atr);
    if zone.None? || atr.None? || LiquidityTarget(x, d, zone.value).None? then None
    else Some(BuildTradePlan(RequestOf(x, d, zone.value, atr.value, LiquidityTarget(x, d, zone.value).value), c.risk))
  }

  function AlignmentScore(x: StrategyInput, bias: Bias, weight: nat): nat {
    var first, second := LatestBreakDirection(x.h4), LatestBreakDirection(x.h1);
    if first == Some(bias) && second == Some(bias) then weight
    else if (first == Some(bias) && second.None?) || (first.None? && second == Some(bias)) then weight / 2
    else 0
  }

  function StructureScore(x: StrategyInput, bias: Bias, weight: nat): nat {
    if Displaced(x, bias) then weight else if LatestBreak(x.m15.breaks, bias).Some? then weight / 2 else 0
  }

  function LocationScore(x: StrategyInput, d: Direction, weight: nat): nat {
    if x.h4.location == Some(PreferredLocation(d)) || x.h1.location == Some(PreferredLocation(d)) then weight else 0
  }

  predicate VolumeConfirms(m: MarketContext, c: StrategyConfig) {
    m.volumeRatio.Some? && m.volumeRatio.value >= c.volumeRatio
  }

  predicate InterestConfirms(m: MarketContext, c: StrategyConfig) {
    m.openInterestChange.Some? && m.openInterestChange.value >= c.openInterestRatio
  }

  /** Both confirmations earn the weight, one of them half of it. */
  function ParticipationScore(volume: bool, interest: bool, weight: nat): nat {
    if volume && interest then weight else if volume || interest then weight / 2 else 0
  }

  function ConditionScore(x: StrategyInput, d: Direction, c: StrategyConfig): nat {
    if FundingIsCrowded(d, x.market.fundingRate, c.crowdedFundingRate) || BtcIsAbnormal(x.market, c) then 0
      else c.weights.condition
  }

  function Score(x: StrategyInput, d: Direction, c: StrategyConfig): nat {
    var bias, w := BiasOf(d), c.weights;
    AlignmentScore(x, bias, w.alignment)
    + (if HasSweep(x.m15, bias) then w.sweep else 0)
    + StructureScore(x, bias, w.structure)
    + (if EntryZone(x.m15, bias).Some? then w.zone else 0)
    + LocationScore(x, d, w.location)
    + ParticipationScore(VolumeConfirms(x.market, c), InterestConfirms(x.market, c), w.volumeInterest)
    + ConditionScore(x, d, c)
  }

  predicate Acceptable(x: StrategyInput, d: Direction, c: StrategyConfig)
    requires ValidStrategy(c)
  {
    var bias := BiasOf(d);
    && !(Opposed(x.h4, bias) && Opposed(x.h1, bias))
    && Displaced(x, bias)
    && EntryZone(x.m15, bias).Some? && Retested(EntryZone(x.m15, bias).value, x.market.currentPrice)
    && MarketPasses(x, c)
    && LatestBreak(x.m5.breaks, bias).Some?
    && PlanAttempt(x, d, c).Some? && PlanAttempt(x, d, c).value.Ok?
    && PlanAttempt(x, d, c).value.value.netRewardToRisk >= c.risk.minimumNetRewardToRisk
    && Score(x, d, c) >= c.minimumScore
  }

  /** What each suppression reason says about the candidate. */
  predicate SetupFails(x: StrategyInput, d: Direction, reason: Reason) {
    var bias := BiasOf(d);
    match reason
    case HigherTimeframesOpposed => Opposed(x.h4, bias) && Opposed(x.h1, bias)
    case MissingStructureDisplacement => !Displaced(x, bias)
    case MissingEntryZone => EntryZone(x.m15, bias).None?
    case EntryZoneNotRetested => EntryZone(x.m15, bias).Some?
      && !Retested(EntryZone(x.m15, bias).value, x.market.currentPrice)
    case _ => false
  }

  predicate MarketFails(x: StrategyInput, c: StrategyConfig, reason: Reason) {
    var m, atr := x.market, LatestAtr(x.m15.atr);
    match reason
    case TurnoverBelowMinimum => m.turnover24h.Some? && m.turnover24h.value < c.minimumTurnover
    case SpreadAboveMaximum => m.spreadBps.Some? && m.spreadBps.value > c.maximumSpreadBps
    case VolatilityBelowMinimum => atr.Some? && m.currentPrice > 0.0 && atr.value / m.currentPrice < c.minimumAtrPercent
    case VolatilityAboveMaximum => atr.Some? && m.currentPrice > 0.0 && atr.value / m.currentPrice > c.maximumAtrPercent
    case _ => false
  }

  predicate PlanFails(x: StrategyInput, d: Direction, c: StrategyConfig, reason: Reason)
    requires ValidStrategy(c)
  {
    var zone, atr, attempt := EntryZone(x.m15, BiasOf(d)), LatestAtr(x.m15.atr), PlanAttempt(x, d, c);
    match reason
    case AtrUnavailable => zone.Some? && atr.None?
    case LiquidityTargetUnavailable => zone.Some? && atr.Some? && LiquidityTarget(x, d, zone.value).None?
    case PlanRefused(refusal) => attempt == Some(Err(refusal))
    case RewardToRiskBelowMinimum =>
      attempt.Some? && attempt.value.Ok? && attempt.value.value.netRewardToRisk < c.risk.minimumNetRewardToRisk
    case _ => false
  }

  predicate Fails(x: StrategyInput, d: Direction, c: StrategyConfig, reason: Reason)
    requires ValidStrategy(c)
  {
    || SetupFails(x, d, reason) || MarketFails(x, c, reason) || PlanFails(x, d, c, reason)
    || (reason == MissingConfirmation && LatestBreak(x.m5.breaks, BiasOf(d)).None?)
    || (reason == ScoreBelowThreshold && Score(x, d, c) < c.minimumScore)
  }

  // ---------- the evaluation ----------

  function SumOf(s: seq<nat>): nat {
    if s == [] then 0 else SumOf(s[..|s| - 1]) + s[|s| - 1]
  }

  lemma SumOfMore(s: seq<nat>, v: nat)
    ensures SumOf(s + [v]) == SumOf(s) + v
  {
    assert (s + [v])[..|s|] == s;
  }

  lemma SumSeven(a: nat, b: nat, c: nat, d: nat, e: nat, f: nat, g: nat)
    ensures SumOf([a, b, c, d, e, f, g]) == a + b + c + d + e + f + g
  {
    hide SumOf;
    SumOfMore([], a);
    SumOfMore([a], b);
    SumOfMore([a, b], c);
    SumOfMore([a, b, c], d);
    SumOfMore([a, b, c, d], e);
    SumOfMore([a, b, c, d, e], f);
    SumOfMore([a, b, c, d, e, f], g);
    NothingSums();
    assert [] + [a] == [a] && [a] + [b] == [a, b] && [a, b] + [c] == [a, b, c] && [a, b, c] + [d] == [a, b, c, d]
      && [a, b, c, d] + [e] == [a, b, c, d, e] && [a, b, c, d, e] + [f] == [a, b, c, d, e, f]
      && [a, b, c, d, e, f] + [g] == [a, b, c, d, e, f, g];
  }

  lemma NothingSums()
    ensures SumOf([]) == 0
  {
  }

  lemma ParticipationIs(volume: bool, interest: bool, weight: nat)
    ensures weight * ((if volume then 1 else 0) + (if interest then 1 else 0)) / 2
            == ParticipationScore(volume, interest, weight)
  {
  }

  lemma ScoreWithinWeights(x: StrategyInput, d: Direction, c: StrategyConfig)
    ensures Score(x, d, c) <= c.weights.Total()
  {
    hide LatestBreak, Displaced, BtcIsAbnormal, FundingIsCrowded, VolumeConfirms, InterestConfirms;
    var bias, w := BiasOf(d), c.weights;
    assert AlignmentScore(x, bias, w.alignment) <= w.alignment;
    assert StructureScore(x, bias, w.structure) <= w.structure;
    assert LocationScore(x, d, w.location) <= w.location;
    assert ParticipationScore(VolumeConfirms(x.market, c), InterestConfirms(x.market, c),
      w.volumeInterest) <= w.volumeInterest;
    assert ConditionScore(x, d, c) <= w.condition;
  }

  method AlignmentComponent(x: StrategyInput, bias: Bias, weight: nat) returns (r: nat)
    ensures r == AlignmentScore(x, bias, weight)
  {
    var first, second := LatestBreakDirection(x.h4), LatestBreakDirection(x.h1);
    var aligned := (if first == Some(bias) then 1 else 0) + (if second == Some(bias) then 1 else 0);
    var opposing := (if first.Some? && first != Some(bias) then 1 else 0)
      + (if second.Some? && second != Some(bias) then 1 else 0);
    r := if aligned == 2 then weight else if aligned == 1 && opposing == 0 then weight / 2 else 0;
  }

  method StructureComponent(x: StrategyInput, bias: Bias, weight: nat) returns (r: nat)
    ensures r == StructureScore(x, bias, weight)
  {
    hide LatestBreak, HasDisplacement;
    var setup := LatestBreak(x.m15.breaks, bias);
    var displaced := setup.Some? && HasDisplacement(x.m15, bias, setup.value.index);
    r := if displaced then weight else if setup.Some? then weight / 2 else 0;
  }

  method ParticipationComponent(m: MarketContext, c: StrategyConfig, weight: nat) returns (r: nat)
    ensures r == ParticipationScore(VolumeConfirms(m, c), InterestConfirms(m, c), weight)
  {
    var volume, interest := VolumeConfirms(m, c), InterestConfirms(m, c);
    r := weight * ((if volume then 1 else 0) + (if interest then 1 else 0)) / 2;
    ParticipationIs(volume, interest, weight);
  }

  method ScoreComponents(x: StrategyInput, d: Direction, c: StrategyConfig) returns (components: seq<nat>)
    requires ValidStrategy(c)
    ensures |components| == 7 && SumOf(components) == Score(x, d, c) <= 100
  {
    hide EntryZone, SumOf, BtcIsAbnormal, FundingIsCrowded, HasSweep, ValidConfig,
      AlignmentScore, StructureScore, ParticipationScore, PreferredLocation, BiasOf;
    var bias, m, w := BiasOf(d), x.market, c.weights;
    var alignment := AlignmentComponent(x, bias, w.alignment);
    var swept := if HasSweep(x.m15, bias) then w.sweep else 0;
    var structure := StructureComponent(x, bias, w.structure);
    var zoned := if EntryZone(x.m15, bias).Some? then w.zone else 0;
    var located := if x.h4.location == Some(PreferredLocation(d)) || x.h1.location == Some(PreferredLocation(d))
      then w.location else 0;
    var market := ParticipationComponent(m, c, w.volumeInterest);
    var condition := if FundingIsCrowded(d, m.fundingRate, c.crowdedFundingRate) || BtcIsAbnormal(m, c) then 0
      else w.condition;
    components := [alignment, swept, structure, zoned, located, market, condition];
    SumSeven(alignment, swept, structure, zoned, located, market, condition);
    ScoreWithinWeights(x, d, c);
  }

  method SetupReasons(x: StrategyInput, d: Direction) returns (reasons: seq<Reason>)
    ensures var bias := BiasOf(d);
            reasons == [] <==>
              && !(Opposed(x.h4, bias) && Opposed(x.h1, bias)) && Displaced(x, bias)
              && EntryZone(x.m15, bias).Some? && Retested(EntryZone(x.m15, bias).value, x.market.currentPrice)
    ensures EntryZone(x.m15, BiasOf(d)).None? ==> reasons != []
    ensures forall reason :: reason in reasons <==> SetupFails(x, d, reason)
  {
    hide LatestBreak, EntryZone, Newest, HasDisplacement;
    var bias := BiasOf(d);
    reasons := [];
    var first, second := LatestBreakDirection(x.h4), LatestBreakDirection(x.h1);
    var opposing := (if first.Some? && first != Some(bias) then 1 else 0)
      + (if second.Some? && second != Some(bias) then 1 else 0);
    if opposing == 2 {
      reasons := reasons + [HigherTimeframesOpposed];
    }
    var setup := LatestBreak(x.m15.breaks, bias);
    if setup.None? || !HasDisplacement(x.m15, bias, setup.value.index) {
      reasons := reasons + [MissingStructureDisplacement];
    }
    var zone := EntryZone(x.m15, bias);
    if zone.None? {
      reasons := reasons + [MissingEntryZone];
    } else if !zone.value.retested && !(zone.value.lower <= x.market.currentPrice <= zone.value.upper) {
      reasons := reasons + [EntryZoneNotRetested];
    }
  }

  method MarketFilterReasons(x: StrategyInput, c: StrategyConfig, before: seq<Reason>) returns (reasons: seq<Reason>)
    ensures before <= reasons
    ensures reasons == before <==> MarketPasses(x, c)
    ensures forall reason :: reason in reasons <==> reason in before || MarketFails(x, c, reason)
  {
    var m := x.market;
    reasons := before;
    if m.turnover24h.Some? && m.turnover24h.value < c.minimumTurnover {
      reasons := reasons + [TurnoverBelowMinimum];
    }
    if m.spreadBps.Some? && m.spreadBps.value > c.maximumSpreadBps {
      reasons := reasons + [SpreadAboveMaximum];
    }
    var atr := LatestAtr(x.m15.atr);
    if atr.Some? && m.currentPrice > 0.0 {
      var percent := atr.value / m.currentPrice;
      if percent < c.minimumAtrPercent {
        reasons := reasons + [VolatilityBelowMinimum];
      }
      if percent > c.maximumAtrPercent {
        reasons := reasons + [VolatilityAboveMaximum];
      }
    }
  }

  method PlanReasons(x: StrategyInput, d: Direction, c: StrategyConfig, before: seq<Reason>, cautions: seq<Caution>)
    returns (plan: Option<TradePlan>, reasons: seq<Reason>, warnings: seq<Caution>)
    requires ValidStrategy(c) && (EntryZone(x.m15, BiasOf(d)).None? ==> before != [])
    ensures plan == match PlanAttempt(x, d, c) case Some(Ok(p)) => Some(p) case _ => None
    ensures before <= reasons
    ensures reasons == [] <==> before == [] && plan.Some? && plan.value.netRewardToRisk >= c.risk.minimumNetRewardToRisk
    ensures forall reason :: reason in reasons <==> reason in before || PlanFails(x, d, c, reason)
    ensures warnings == if plan.Some? && LeverageReduced(plan.value, c.risk)
            then cautions + [LeverageReducedForLiquidation] else cautions
  {
    hide BuildTradePlan, NearestTarget, Newest;
    plan, reasons, warnings := None, before, cautions;
    var zone := EntryZone(x.m15, BiasOf(d));
    if zone.None? {
      return;
    }
    var atr := LatestAtr(x.m15.atr);
    var target := LiquidityTarget(x, d, zone.value);
    if atr.None? {
      reasons := reasons + [AtrUnavailable];
    } else if target.None? {
      reasons := reasons + [LiquidityTargetUnavailable];
    } else {
      var built := BuildTradePlan(RequestOf(x, d, zone.value, atr.value, target.value), c.risk);
      if built.Err? {
        reasons := reasons + [PlanRefused(built.error)];
      } else {
        plan := Some(built.value);
        if built.value.netRewardToRisk < c.risk.minimumNetRewardToRisk {
          reasons := reasons + [RewardToRiskBelowMinimum];
        }
        if LeverageReduced(built.value, c.risk) {
          warnings := warnings + [LeverageReducedForLiquidation];
        }
      }
    }
  }

  /**
   * One direction: seven score components, every failed requirement recorded as a suppression reason, and a plan when
   * the ingredients exist. A candidate is accepted exactly when it meets every requirement.
   */
  method EvaluateDirection(x: StrategyInput, d: Direction, c: StrategyConfig) returns (r: Candidate)
    requires ValidStrategy(c)
    ensures r.accepted <==> Acceptable(x, d, c)
    ensures r.accepted <==> r.suppression == []
    ensures r.score == SumOf(r.components) == Score(x, d, c) && 0 <= r.score <= 100
            && r.strong == (r.score >= c.strongScore)
    ensures r.plan == match PlanAttempt(x, d, c) case Some(Ok(p)) => Some(p) case _ => None
    ensures r.symbol == x.symbol && r.direction == d && r.analyzedAt == x.analyzedAt
            && r.expiresAt == x.analyzedAt + c.lifetime
    ensures forall reason :: reason in r.suppression <==> Fails(x, d, c, reason)
    ensures forall i, j :: 0 <= i < j < |r.suppression| ==> r.suppression[i] != r.suppression[j]
  {
    hide BuildTradePlan, LatestBreak, EntryZone, LatestAtr, MarketPasses, Distinct, SumOf, PlanAttempt, BtcIsAbnormal,
      FundingIsCrowded,
      Score, Displaced, Opposed, Retested, SetupFails, MarketFails, PlanFails;
    var bias := BiasOf(d);
    var warnings: seq<Caution> := [];
    var components := ScoreComponents(x, d, c);
    var suppression := SetupReasons(x, d);
    if FundingIsCrowded(d, x.market.fundingRate, c.crowdedFundingRate) {
      warnings := warnings + [CrowdedFunding];
    }
    if BtcIsAbnormal(x.market, c) {
      warnings := warnings + [AbnormalBtcMovement];
    }
    suppression := MarketFilterReasons(x, c, suppression);
    if LatestBreak(x.m5.breaks, bias).None? {
      suppression := suppression + [MissingConfirmation];
    }
    var plan;
    plan, suppression, warnings := PlanReasons(x, d, c, suppression, warnings);
    var score := SumOf(components);
    if score < c.minimumScore {
      suppression := suppression + [ScoreBelowThreshold];
    }
    suppression := Distinct(suppression);
    r := Candidate(x.symbol, d, suppression == [], score, score >= c.strongScore, components, Distinct(warnings),
      suppression, plan,
                   x.analyzedAt, x.analyzedAt + c.lifetime);
  }

  // ---------- what acceptance guarantees ----------

  predicate PositiveSwings(f: SmcAnalysis) {
    forall k :: 0 <= k < |f.swings| ==> f.swings[k].price > 0.0
  }

  lemma TargetIsPositive(x: StrategyInput, d: Direction, z: Zone)
    requires PositiveSwings(x.m15) && PositiveSwings(x.h1) && LiquidityTarget(x, d, z).Some?
    ensures LiquidityTarget(x, d, z).value > 0.0
  {
    hide NearestTarget;
    var swings := x.m15.swings + x.h1.swings;
    var s :| s in swings && s.price == LiquidityTarget(x, d, z).value;
    assert s in x.m15.swings || s in x.h1.swings;
  }

  /**
   * An accepted candidate carries a plan; published, it is a well-formed signal whose full stop loses exactly the
   * estimate, never more than the risk amount, and whose target is the nearest opposing swing.
   */
  lemma AcceptedCandidateIsSound(x: StrategyInput, d: Direction, c: StrategyConfig, fundingRate: real, interval: int)
    requires ValidStrategy(c) && Spaced(c.risk) && x.market.takerFeeRate >= 0.0
    requires PositiveSwings(x.m15) && PositiveSwings(x.h1)
    requires Acceptable(x, d, c)
    ensures var p := PlanAttempt(x, d, c).value.value;
            var t := TermsOf(d, p, fundingRate, interval);
            && WellFormedTerms(t) && Ordered(d, p)
            && FullExitPnl(t, p.stopLoss) == -p.lossAtStop && p.lossAtStop <= p.riskAmount == c.risk.RiskAmount()
            && (exists s :: s in x.m15.swings + x.h1.swings && s.price == p.takeProfit2)
  {
    hide BuildTradePlan, NearestTarget, EntryZone, LatestAtr, MarketPasses, Displaced, Score, WellFormedTerms, Ordered,
      FullExitPnl;
    var zone, atr := EntryZone(x.m15, BiasOf(d)).value, LatestAtr(x.m15.atr).value;
    var target := LiquidityTarget(x, d, zone).value;
    var r, p := RequestOf(x, d, zone, atr, target), PlanAttempt(x, d, c).value.value;
    TargetIsPositive(x, d, zone);
    BuiltMeans(r, c.risk, p);
    LevelsOrdered(r, c.risk, p);
    AcceptedIsWellFormed(r, c.risk, p, fundingRate, interval);
    FullStopLosesEstimate(r, c.risk, p, fundingRate, interval);
  }
}
