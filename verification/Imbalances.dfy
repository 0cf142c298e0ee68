/** Fair value gaps and how later candles fill them. */
module Imbalances {
  import opened Wrappers
  import opened SmcModels
  import opened SmcStatistics

  const FRESH := ZoneProgress(Open, None, None)

  /** Nothing already reported about a zone is taken back: touch and end indices stay, the status only moves on. */
  predicate Advances(a: ZoneProgress, b: ZoneProgress) {
    && (a.resolved.Some? ==> b == a)
    && (a.firstTouch.Some? ==> b.firstTouch == a.firstTouch)
    && StatusRank(a.status) <= StatusRank(b.status)
  }

  function StatusRank(s: ZoneStatus): nat {
    match s
    case Open => 0
    case PartiallyFilled => 1
    case Filled => 2
    case ZoneInvalidated => 2
  }

  /** The gap candle i opens against the candle two before it, if any. */
  function GapOf(candles: seq<Candle>, i: nat): Option<FairValueGap>
    requires 2 <= i < |candles|
  {
    var first, third := candles[i - 2], candles[i];
    if third.lowPrice > first.highPrice
    then Some(FairValueGap(Bullish, i - 2, i, third.closeTime, first.highPrice, third.lowPrice, FRESH))
    else if third.highPrice < first.lowPrice
    then Some(FairValueGap(Bearish, i - 2, i, third.closeTime, third.highPrice, first.lowPrice, FRESH))
    else None
  }

  predicate LargeEnough(g: FairValueGap, atr: real, ratio: real) {
    g.upperPrice - g.lowerPrice >= Scaled(atr, ratio)
  }

  function FreshGapAt(candles: seq<Candle>, atr: Option<real>, ratio: real, i: nat): seq<FairValueGap>
    requires i < |candles|
  {
    if i < 2 || atr.None? then []
    else
      var gap := GapOf(candles, i);
      if gap.Some? && LargeEnough(gap.value, atr.value, ratio) then [gap.value] else []
  }

  /** The gaps created by the first n candles, before any later candle is looked at. */
  function FreshGaps(candles: seq<Candle>, atr: seq<Option<real>>, ratio: real, n: nat): seq<FairValueGap>
    requires n <= |candles| <= |atr|
  {
    if n == 0 then [] else FreshGaps(candles, atr, ratio, n - 1) + FreshGapAt(candles, atr[n - 1], ratio, n - 1)
  }

  predicate Fills(g: FairValueGap, c: Candle) {
    if g.direction == Bullish then c.lowPrice <= g.lowerPrice else c.highPrice >= g.upperPrice
  }

  predicate Enters(g: FairValueGap, c: Candle) {
    if g.direction == Bullish then c.lowPrice < g.upperPrice else c.highPrice > g.lowerPrice
  }

  function OrElse(a: Option<nat>, i: nat): Option<nat> {
    if a.Some? then a else Some(i)
  }

  function GapStep(g: FairValueGap, p: ZoneProgress, i: nat, c: Candle): ZoneProgress {
    if p.resolved.Some? then p
    else if Fills(g, c) then ZoneProgress(Filled, OrElse(p.firstTouch, i), Some(i))
    else if Enters(g, c) then ZoneProgress(PartiallyFilled, OrElse(p.firstTouch, i), None)
    else p
  }

  /** What the candles after its creation and before n did to a gap. */
  function GapProgress(g: FairValueGap, candles: seq<Candle>, n: nat): ZoneProgress
    requires n <= |candles|
  {
    if n <= g.createdIndex + 1 then g.progress else GapStep(g, GapProgress(g, candles, n - 1), n - 1, candles[n - 1])
  }

  function Resolved(g: FairValueGap, candles: seq<Candle>): FairValueGap {
    g.(progress := GapProgress(g, candles, |candles|))
  }

  function ResolvedGaps(gaps: seq<FairValueGap>, candles: seq<Candle>): (r: seq<FairValueGap>)
    ensures |r| == |gaps| && forall k :: 0 <= k < |r| ==> r[k] == Resolved(gaps[k], candles)
  {
    seq(|gaps|, k requires 0 <= k < |gaps| => Resolved(gaps[k], candles))
  }

  function Gaps(candles: seq<Candle>, atr: seq<Option<real>>, ratio: real): seq<FairValueGap>
    requires |candles| <= |atr|
  {
    ResolvedGaps(FreshGaps(candles, atr, ratio, |candles|), candles)
  }

  lemma {:induction false} ResolvedStays(g: FairValueGap, candles: seq<Candle>, i: nat, n: nat)
    requires i <= n <= |candles| && GapProgress(g, candles, i).resolved.Some?
    ensures GapProgress(g, candles, n) == GapProgress(g, candles, i)
    decreases n
  {
    if i < n {
      ResolvedStays(g, candles, i, n - 1);
    }
  }

  method ResolveGap(gap: FairValueGap, candles: seq<Candle>) returns (r: FairValueGap)
    requires gap.createdIndex < |candles| && gap.progress == FRESH
    ensures r == Resolved(gap, candles)
  {
    var status := gap.progress.status;
    var firstTouch: Option<nat>, resolved: Option<nat> := None, None;
    for index := gap.createdIndex + 1 to |candles|
      invariant resolved.None? && ZoneProgress(status, firstTouch, resolved) == GapProgress(gap, candles, index)
    {
      var candle := candles[index];
      if gap.direction == Bullish {
        if candle.lowPrice <= gap.lowerPrice {
          firstTouch := if firstTouch.Some? then firstTouch else Some(index);
          status := Filled;
          resolved := Some(index);
          ResolvedStays(gap, candles, index + 1, |candles|);
          break;
        }
        if candle.lowPrice < gap.upperPrice {
          firstTouch := if firstTouch.Some? then firstTouch else Some(index);
          status := PartiallyFilled;
        }
      } else {
        if candle.highPrice >= gap.upperPrice {
          firstTouch := if firstTouch.Some? then firstTouch else Some(index);
          status := Filled;
          resolved := Some(index);
          ResolvedStays(gap, candles, index + 1, |candles|);
          break;
        }
        if candle.highPrice > gap.lowerPrice {
          firstTouch := if firstTouch.Some? then firstTouch else Some(index);
          status := PartiallyFilled;
        }
      }
    }
    r := gap.(progress := ZoneProgress(status, firstTouch, resolved));
  }

  method DetectFairValueGaps(candles: seq<Candle>, atr: seq<Option<real>>,
                             ratio: real) returns (gaps: seq<FairValueGap>)
    requires ratio >= 0.0 && |candles| <= |atr|
    ensures gaps == Gaps(candles, atr, ratio)
  {
    hide Resolved, FreshGaps, ResolvedGaps, Scaled;
    gaps := [];
    ghost var created: seq<FairValueGap> := [];
    var index := 2;
    FewCandles(candles, atr, ratio);
    while index < |candles|
      invariant 2 <= index && (|candles| >= 2 ==> index <= |candles|)
      invariant |candles| >= 2 ==> created == FreshGaps(candles, atr, ratio, index)
      invariant |candles| < 2 ==> created == []
      invariant gaps == ResolvedGaps(created, candles)
    {
      var first, third, measured := candles[index - 2], candles[index], atr[index];
      FreshGapsNext(candles, atr, ratio, index);
      index := index + 1;
      if measured.None? {
        continue;
      }
      var lower, upper, direction;
      if third.lowPrice > first.highPrice {
        lower, upper, direction := first.highPrice, third.lowPrice, Bullish;
      } else if third.highPrice < first.lowPrice {
        lower, upper, direction := third.highPrice, first.lowPrice, Bearish;
      } else {
        continue;
      }
      if upper - lower < Scaled(measured.value, ratio) {
        continue;
      }
      var gap := FairValueGap(direction, index - 3, index - 1, third.closeTime, lower, upper,
        ZoneProgress(Open, None, None));
      var resolved := ResolveGap(gap, candles);
      ResolvedGapsNext(created, gap, candles);
      created := created + [gap];
      gaps := gaps + [resolved];
    }
  }

  lemma FreshGapsNext(candles: seq<Candle>, atr: seq<Option<real>>, ratio: real, i: nat)
    requires 2 <= i < |candles| <= |atr|
    ensures FreshGaps(candles, atr, ratio, i + 1) == FreshGaps(candles, atr, ratio, i)
            + FreshGapAt(candles, atr[i], ratio, i)
  {
  }

  lemma ResolvedGapsNext(gaps: seq<FairValueGap>, g: FairValueGap, candles: seq<Candle>)
    ensures ResolvedGaps(gaps + [g], candles) == ResolvedGaps(gaps, candles) + [Resolved(g, candles)]
  {
    hide Resolved;
  }

  lemma FewCandles(candles: seq<Candle>, atr: seq<Option<real>>, ratio: real)
    requires |candles| <= |atr|
    ensures forall n :: 0 <= n <= 2 && n <= |candles| ==> FreshGaps(candles, atr, ratio, n) == []
  {
    forall n | 0 <= n <= 2 && n <= |candles| ensures FreshGaps(candles, atr, ratio, n) == [] {
      assert n > 0 ==> FreshGaps(candles, atr, ratio, n - 1) == [];
    }
  }

  // ---------- what the progress says ----------

  /**
   * A gap is filled by the first later candle that reaches its far edge, touched by the first that enters or fills it.
   */
  lemma {:induction false} GapMeaning(g: FairValueGap, candles: seq<Candle>, n: nat)
    requires g.createdIndex < n <= |candles| && g.progress == FRESH && g.lowerPrice < g.upperPrice
    ensures var p := GapProgress(g, candles, n);
            && (p.resolved.None? <==> forall k :: g.createdIndex < k < n ==> !Fills(g, candles[k]))
            && (p.resolved.Some? ==>
                  && g.createdIndex < p.resolved.value < n && Fills(g, candles[p.resolved.value])
                  && forall k :: g.createdIndex < k < p.resolved.value ==> !Fills(g, candles[k]))
            && (p.firstTouch.None? <==> forall k :: g.createdIndex < k < n ==> !Enters(g, candles[k]))
            && (p.firstTouch.Some? ==>
                  && g.createdIndex < p.firstTouch.value < n && Enters(g, candles[p.firstTouch.value])
                  && forall k :: g.createdIndex < k < p.firstTouch.value ==> !Enters(g, candles[k]))
            && p.status == if p.resolved.Some? then Filled else if p.firstTouch.Some? then PartiallyFilled else Open
  {
    if n > g.createdIndex + 1 {
      GapMeaning(g, candles, n - 1);
      assert Fills(g, candles[n - 1]) ==> Enters(g, candles[n - 1]);
    }
  }

  // ---------- no look-ahead ----------

  lemma {:induction false} GapProgressCausal(g: FairValueGap, candles: seq<Candle>, n: nat, i: nat)
    requires i <= n <= |candles|
    ensures GapProgress(g, candles[..n], i) == GapProgress(g, candles, i)
    decreases i
  {
    if i > g.createdIndex + 1 {
      GapProgressCausal(g, candles, n, i - 1);
    }
  }

  predicate Coherent(p: ZoneProgress) {
    && (p.status == Open <==> p.firstTouch.None? && p.resolved.None?)
    && (StatusRank(p.status) == 2 <==> p.resolved.Some?)
  }

  lemma GapStepAdvances(g: FairValueGap, p: ZoneProgress, i: nat, c: Candle)
    requires Coherent(p)
    ensures Coherent(GapStep(g, p, i, c)) && Advances(p, GapStep(g, p, i, c))
  {
  }

  lemma {:induction false} GapAdvances(g: FairValueGap, candles: seq<Candle>, n: nat, m: nat)
    requires n <= m <= |candles| && g.progress == FRESH
    ensures Coherent(GapProgress(g, candles, m)) && Advances(GapProgress(g, candles, n), GapProgress(g, candles, m))
    decreases m
  {
    hide GapStep;
    if m > g.createdIndex + 1 {
      GapAdvances(g, candles, if n < m then n else m - 1, m - 1);
      GapStepAdvances(g, GapProgress(g, candles, m - 1), m - 1, candles[m - 1]);
    }
  }

  lemma {:induction false} FreshGapsCausal(candles: seq<Candle>, atr: seq<Option<real>>, ratio: real, n: nat, i: nat)
    requires i <= n <= |candles| <= |atr|
    ensures FreshGaps(candles[..n], atr[..n], ratio, i) == FreshGaps(candles, atr, ratio, i)
    decreases i
  {
    hide LargeEnough;
    if i > 0 {
      FreshGapsCausal(candles, atr, ratio, n, i - 1);
    }
  }

  lemma FreshGapShape(candles: seq<Candle>, atr: Option<real>, ratio: real, i: nat)
    requires i < |candles|
    ensures forall g :: g in FreshGapAt(candles, atr, ratio, i) ==> g.progress == FRESH && g.createdIndex == i
  {
    hide LargeEnough;
  }

  lemma {:induction false} FreshGapsGrow(candles: seq<Candle>, atr: seq<Option<real>>, ratio: real, n: nat, m: nat)
    requires n <= m <= |candles| <= |atr|
    ensures var early, late := FreshGaps(candles, atr, ratio, n), FreshGaps(candles, atr, ratio, m);
            && early <= late
            && (forall g :: g in late ==> g.progress == FRESH && g.createdIndex < m)
            && (forall g :: g in late[|early|..] ==> g.createdIndex >= n)
    decreases m
  {
    hide FreshGapAt;
    if m > 0 {
      FreshGapsGrow(candles, atr, ratio, if n < m then n else m - 1, m - 1);
      FreshGapShape(candles, atr[m - 1], ratio, m - 1);
      if n < m {
        var early, most := FreshGaps(candles, atr, ratio, n), FreshGaps(candles, atr, ratio, m - 1);
        var added := FreshGapAt(candles, atr[m - 1], ratio, m - 1);
        assert (most + added)[|early|..] == most[|early|..] + added;
      }
    }
  }

  /** The gaps created by n candles are the full run's first gaps; later candles only advance their progress. */
  lemma GapsCausal(candles: seq<Candle>, atr: seq<Option<real>>, ratio: real, n: nat)
    requires n <= |candles| == |atr|
    ensures var early, all := Gaps(candles[..n], atr[..n], ratio), Gaps(candles, atr, ratio);
            && |early| <= |all|
            && (forall k :: 0 <= k < |early| ==>
                  all[k] == early[k].(progress := all[k].progress) && Advances(early[k].progress, all[k].progress))
            && (forall k :: |early| <= k < |all| ==> all[k].createdIndex >= n)
  {
    hide FreshGaps, GapProgress, Advances;
    var created, total := FreshGaps(candles, atr, ratio, n), FreshGaps(candles, atr, ratio, |candles|);
    FreshGapsCausal(candles, atr, ratio, n, n);
    FreshGapsGrow(candles, atr, ratio, n, |candles|);
    forall k | 0 <= k < |created|
      ensures Advances(GapProgress(created[k], candles[..n], n), GapProgress(created[k], candles, |candles|))
    {
      assert created[k] == total[k] && total[k] in total;
      GapProgressCausal(created[k], candles, n, n);
      GapAdvances(created[k], candles, n, |candles|);
    }
    forall k | |created| <= k < |total| ensures total[k].createdIndex >= n {
      assert total[|created|..][k - |created|] == total[k];
    }
  }
}
