/** The whole analysis of one candle series, and the theorem that it never looks ahead. */
module Analysis {
  import opened Wrappers
  import opened SmcModels
  import opened SmcStatistics
  import opened Swings
  import opened Structure
  import opened Liquidity
  import opened Displacements
  import opened Imbalances
  import opened OrderBlocks
  import opened Ranges

  datatype Settings = Settings(
    atrPeriod: nat, swingLookback: nat,
    levelTolerance: real, levelSeparation: nat,
    displacement: DisplacementSettings,
    gapAtrRatio: real, blockLookback: nat)

  /** What the configuration's constructor enforces. */
  predicate ValidSettings(s: Settings) {
    && s.atrPeriod >= 1 && s.swingLookback >= 1
    && s.levelTolerance >= 0.0 && s.levelSeparation >= 1
    && s.displacement.period >= 1 && s.displacement.bodyRatio >= 0.0 && s.displacement.rangeRatio >= 0.0
    && 0.0 <= s.displacement.closeFraction <= 1.0
    && s.gapAtrRatio >= 0.0 && s.blockLookback >= 1
  }

  datatype SeriesError = EmptySeries | MixedSymbols | MixedTimeframes | NotStrictlyOrdered

  datatype SmcAnalysis = SmcAnalysis(
    atr: seq<Option<real>>, swings: seq<Swing>, breaks: seq<StructureBreak>, sweeps: seq<LiquiditySweep>,
    levels: seq<EqualLevel>, displacements: seq<Displacement>, gaps: seq<FairValueGap>, blocks: seq<OrderBlock>,
    range: Option<DealingRange>, location: Option<PriceLocation>)

  /** What is wrong with the candle at position i, after the first one. */
  function PairError(candles: seq<Candle>, i: nat): Option<SeriesError>
    requires 0 < i < |candles|
  {
    if candles[i].symbol != candles[0].symbol then Some(MixedSymbols)
    else if candles[i].timeframe != candles[0].timeframe then Some(MixedTimeframes)
    else if candles[i].openTime <= candles[i - 1].openTime then Some(NotStrictlyOrdered)
    else None
  }

  /** One symbol and timeframe, every candle later than all before it. */
  predicate OneSeries(candles: seq<Candle>) {
    && (forall i, j :: 0 <= i < |candles| && 0 <= j < |candles| ==>
          candles[i].symbol == candles[j].symbol && candles[i].timeframe == candles[j].timeframe)
    && (forall i, j :: 0 <= i < j < |candles| ==> candles[i].openTime < candles[j].openTime)
  }

  lemma {:induction false} PairsMakeASeries(candles: seq<Candle>, n: nat)
    requires n <= |candles| && forall i :: 0 < i < n ==> PairError(candles, i).None?
    ensures OneSeries(candles[..n])
    decreases n
  {
    if n > 1 {
      PairsMakeASeries(candles, n - 1);
      assert PairError(candles, n - 1).None?;
      assert forall i :: 0 <= i < n - 1 ==> candles[..n - 1][i] == candles[i];
    }
  }

  lemma BreaksInRange(candles: seq<Candle>, lookback: nat)
    ensures InRange(Breaks(candles, AllSwings(candles, lookback)), |candles|)
  {
    hide BreaksUpTo, AllSwings;
    assert candles[..|candles|] == candles;
    BreaksCausal(candles, lookback, |candles|);
  }

  /** The analysis as the composition of the detectors' specifications. */
  function AnalysisOf(candles: seq<Candle>, s: Settings): SmcAnalysis
    requires ValidSettings(s)
  {
    var atr := Atr(candles, s.atrPeriod);
    var swings := AllSwings(candles, s.swingLookback);
    var breaks := Breaks(candles, swings);
    var displacements := DisplacementsUpTo(candles, atr, s.displacement, |candles|);
    BreaksInRange(candles, s.swingLookback);
    SmcAnalysis(
      atr, swings, breaks, Sweeps(candles, swings),
      EqualLevels(swings, atr, s.levelTolerance, s.levelSeparation),
      displacements, Gaps(candles, atr, s.gapAtrRatio),
      Blocks(candles, breaks, displacements, s.blockLookback),
      ActiveDealingRange(swings), LocationOf(candles, ActiveDealingRange(swings)))
  }

  /** Where the last close lies in the dealing range, if there is one. */
  function LocationOf(candles: seq<Candle>, range: Option<DealingRange>): Option<PriceLocation> {
    if candles == [] || range.None? then None else Some(ClassifyPrice(candles[|candles| - 1].closePrice, range.value))
  }

  /** No error exactly for a non-empty single series; otherwise the first pair that breaks it is reported. */
  method ValidateCandleSeries(candles: seq<Candle>) returns (error: Option<SeriesError>)
    ensures error == None <==> candles != [] && OneSeries(candles)
    ensures error == Some(EmptySeries) <==> candles == []
    ensures error.Some? && candles != [] ==>
              exists i :: 0 < i < |candles| && PairError(candles, i) == error && forall j :: 0 < j < i ==>
                PairError(candles, j).None?
  {
    if candles == [] {
      return Some(EmptySeries);
    }
    for i := 1 to |candles|
      invariant forall k :: 0 < k < i ==> PairError(candles, k).None?
    {
      if candles[i].symbol != candles[0].symbol {
        assert PairError(candles, i) == Some(MixedSymbols);
        return Some(MixedSymbols);
      }
      if candles[i].timeframe != candles[0].timeframe {
        assert PairError(candles, i) == Some(MixedTimeframes);
        return Some(MixedTimeframes);
      }
      if candles[i].openTime <= candles[i - 1].openTime {
        assert PairError(candles, i) == Some(NotStrictlyOrdered);
        return Some(NotStrictlyOrdered);
      }
    }
    PairsMakeASeries(candles, |candles|);
    assert candles[..|candles|] == candles;
    error := None;
  }

  method Analyze(candles: seq<Candle>, s: Settings) returns (r: Result<SmcAnalysis, SeriesError>)
    requires ValidSettings(s)
    ensures r.Ok? <==> candles != [] && OneSeries(candles)
    ensures r.Ok? ==> r.value == AnalysisOf(candles, s)
  {
    hide Atr, AllSwings, Breaks, Sweeps, EqualLevels, DisplacementsUpTo, Gaps, Blocks, OneSeries, InRange, PairError,
      ActiveDealingRange;
    var error := ValidateCandleSeries(candles);
    if error.Some? {
      return Err(error.value);
    }
    var atr := AverageTrueRange(candles, s.atrPeriod);
    var swings := DetectSwings(candles, s.swingLookback);
    var breaks := DetectStructureBreaks(candles, swings);
    var sweeps := DetectLiquiditySweeps(candles, swings);
    var levels := DetectEqualLevels(swings, atr, s.levelTolerance, s.levelSeparation);
    var displacements := DetectDisplacements(candles, atr, s.displacement);
    var gaps := DetectFairValueGaps(candles, atr, s.gapAtrRatio);
    BreaksInRange(candles, s.swingLookback);
    var blocks := DetectOrderBlocks(candles, breaks, displacements, s.blockLookback);
    var range := ActiveDealingRange(swings);
    var location := if range.Some? then Some(ClassifyPrice(candles[|candles| - 1].closePrice, range.value)) else None;
    r := Ok(SmcAnalysis(atr, swings, breaks, sweeps, levels, displacements, gaps, blocks, range, location));
  }

  /** What analysing n candles reports, against what the full series reports. */
  ghost predicate NothingTakenBack(early: SmcAnalysis, all: SmcAnalysis, n: nat) {
    && early.atr <= all.atr && |early.atr| == n
    && early.swings <= all.swings
    && (forall k :: |early.swings| <= k < |all.swings| ==> all.swings[k].confirmation >= n)
    && early.breaks <= all.breaks
    && (forall k :: |early.breaks| <= k < |all.breaks| ==> all.breaks[k].index >= n)
    && early.sweeps <= all.sweeps
    && (forall k :: |early.sweeps| <= k < |all.sweeps| ==> all.sweeps[k].index >= n)
    && early.levels <= all.levels
    && (forall k :: |early.levels| <= k < |all.levels| ==> all.levels[k].second.confirmation >= n)
    && early.displacements <= all.displacements
    && (forall k :: |early.displacements| <= k < |all.displacements| ==> all.displacements[k].index >= n)
    && SameGaps(early.gaps, all.gaps, n)
    && SameBlocks(early.blocks, all.blocks, n)
    && early.range == ActiveDealingRange(all.swings[..|early.swings|])
  }

  ghost predicate SameGaps(early: seq<FairValueGap>, all: seq<FairValueGap>, n: nat) {
    && |early| <= |all|
    && (forall k :: 0 <= k < |early| ==>
          all[k] == early[k].(progress := all[k].progress) && Advances(early[k].progress, all[k].progress))
    && (forall k :: |early| <= k < |all| ==> all[k].createdIndex >= n)
  }

  ghost predicate SameBlocks(early: seq<OrderBlock>, all: seq<OrderBlock>, n: nat) {
    && |early| <= |all|
    && (forall k :: 0 <= k < |early| ==>
          all[k] == early[k].(progress := all[k].progress) && Advances(early[k].progress, all[k].progress))
    && (forall k :: |early| <= k < |all| ==> all[k].createdIndex >= n)
  }

  lemma AfterPrefix<T>(early: seq<T>, all: seq<T>)
    requires early <= all
    ensures forall k :: |early| <= k < |all| ==> all[k] in all[|early|..]
  {
    forall k | |early| <= k < |all| ensures all[k] in all[|early|..] {
      assert all[|early|..][k - |early|] == all[k];
    }
  }

  lemma BlocksPart(candles: seq<Candle>, s: Settings, n: nat)
    requires ValidSettings(s) && n <= |candles|
    ensures SameBlocks(AnalysisOf(candles[..n], s).blocks, AnalysisOf(candles, s).blocks, n)
  {
    hide Atr, AllSwings, Breaks, Sweeps, EqualLevels, DisplacementsUpTo, Gaps, Blocks, Advances;
    AtrCausal(candles, s.atrPeriod, n);
    BreaksCausal(candles, s.swingLookback, n);
    var atr := Atr(candles, s.atrPeriod);
    DisplacementsCausal(candles, atr, s.displacement, n);
    BreaksInRange(candles, s.swingLookback);
    BreaksInRange(candles[..n], s.swingLookback);
    var early, all := AnalysisOf(candles[..n], s), AnalysisOf(candles, s);
    var lateBreaks, late := all.breaks[|early.breaks|..], all.displacements[|early.displacements|..];
    assert all.breaks == early.breaks + lateBreaks && all.displacements == early.displacements + late;
    BlocksCausal(candles, n, early.breaks, lateBreaks, early.displacements, late, s.blockLookback);
  }

  /**
   * The analysis of the first n candles is what the full analysis already knew then: the average true range, swings,
   * breaks, sweeps, levels and displacements are exact prefixes and everything after them is dated n or later; the gaps
   * and order blocks are the same ones, with their progress only advanced; the dealing range is that of the swings
   * confirmed by then.
   */
  lemma AnalysisIsCausal(candles: seq<Candle>, s: Settings, n: nat)
    requires ValidSettings(s) && n <= |candles|
    ensures NothingTakenBack(AnalysisOf(candles[..n], s), AnalysisOf(candles, s), n)
  {
    hide Atr, AllSwings, Breaks, Sweeps, EqualLevels, DisplacementsUpTo, Gaps, Blocks, Advances;
    var early, all := AnalysisOf(candles[..n], s), AnalysisOf(candles, s);
    var atr := Atr(candles, s.atrPeriod);
    AtrCausal(candles, s.atrPeriod, n);
    SwingsCausal(candles, s.swingLookback, n);
    AfterPrefix(early.swings, all.swings);
    BreaksCausal(candles, s.swingLookback, n);
    AfterPrefix(early.breaks, all.breaks);
    SweepsCausal(candles, s.swingLookback, n);
    AfterPrefix(early.sweeps, all.sweeps);
    LevelsCausal(candles, s.swingLookback, n, atr, s.levelTolerance, s.levelSeparation);
    AfterPrefix(early.levels, all.levels);
    DisplacementsCausal(candles, atr, s.displacement, n);
    AfterPrefix(early.displacements, all.displacements);
    GapsCausal(candles, atr, s.gapAtrRatio, n);
    BlocksPart(candles, s, n);
    assert all.swings[..|early.swings|] == early.swings;
  }
}
