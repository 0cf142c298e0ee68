/** Order blocks: the last opposite candle before a displaced structure break. */
module OrderBlocks {
  import opened Wrappers
  import opened SmcModels
  import opened Imbalances

  /** The last displacement recorded under an index. */
  function DisplacementOn(displacements: seq<Displacement>, index: nat): Option<Displacement> {
    if displacements == [] then None
    else
      var last := displacements[|displacements| - 1];
      if last.index == index then Some(last) else DisplacementOn(displacements[..|displacements| - 1], index)
  }

  /** The latest candle in [low, high) that went in a direction. */
  function LastGoing(candles: seq<Candle>, direction: Bias, low: nat, high: nat): (r: Option<nat>)
    requires high <= |candles|
    ensures r.None? ==> forall k :: low <= k < high ==> candles[k].Direction() != Some(direction)
    ensures r.Some? ==> low <= r.value < high && candles[r.value].Direction() == Some(direction)
    ensures r.Some? ==> forall k :: r.value < k < high ==> candles[k].Direction() != Some(direction)
  {
    if high <= low then None
    else if candles[high - 1].Direction() == Some(direction) then Some(high - 1)
    else LastGoing(candles, direction, low, high - 1)
  }

  function Opposite(direction: Bias): Bias {
    if direction == Bullish then Bearish else Bullish
  }

  function SearchStart(index: nat, lookback: nat): nat {
    if index < lookback then 0 else index - lookback
  }

  /** The block a structure break points at, before the blocks already taken are considered. */
  function BlockFor(candles: seq<Candle>, b: StructureBreak, displacements: seq<Displacement>,
                    lookback: nat): Option<OrderBlock>
    requires b.index < |candles|
  {
    var displacement := DisplacementOn(displacements, b.index);
    if displacement.None? || displacement.value.direction != b.direction then None
    else
      var source := LastGoing(candles, Opposite(b.direction), SearchStart(b.index, lookback), b.index);
      if source.None? then None
      else
        var c := candles[source.value];
        Some(OrderBlock(b.direction, source.value, b.index, b.time, c.lowPrice, c.highPrice, b, FRESH))
  }

  predicate Taken(blocks: seq<OrderBlock>, direction: Bias, index: nat) {
    exists k :: 0 <= k < |blocks| && blocks[k].direction == direction && blocks[k].candleIndex == index
  }

  predicate InRange(breaks: seq<StructureBreak>, n: nat) {
    forall k :: 0 <= k < |breaks| ==> breaks[k].index < n
  }

  /** The blocks created for a list of breaks; each source candle is used once per direction. */
  function FreshBlocks(candles: seq<Candle>, breaks: seq<StructureBreak>, displacements: seq<Displacement>,
                       lookback: nat): seq<OrderBlock>
    requires InRange(breaks, |candles|)
    decreases |breaks|
  {
    if breaks == [] then []
    else
      var before := FreshBlocks(candles, breaks[..|breaks| - 1], displacements, lookback);
      var block := BlockFor(candles, breaks[|breaks| - 1], displacements, lookback);
      WithBlock(before, block)
  }

  function WithBlock(blocks: seq<OrderBlock>, block: Option<OrderBlock>): seq<OrderBlock> {
    if block.None? || Taken(blocks, block.value.direction, block.value.candleIndex) then blocks
      else blocks + [block.value]
  }

  predicate Invalidates(b: OrderBlock, c: Candle) {
    if b.direction == Bullish then c.closePrice < b.lowerPrice else c.closePrice > b.upperPrice
  }

  predicate Touches(b: OrderBlock, c: Candle) {
    if b.direction == Bullish then c.lowPrice <= b.upperPrice else c.highPrice >= b.lowerPrice
  }

  function BlockStep(b: OrderBlock, p: ZoneProgress, i: nat, c: Candle): ZoneProgress {
    if p.resolved.Some? then p
    else if Invalidates(b, c) then ZoneProgress(ZoneInvalidated, p.firstTouch, Some(i))
    else if Touches(b, c) && p.firstTouch.None? then ZoneProgress(PartiallyFilled, Some(i), None)
    else p
  }

  /** What the candles after its creation and before n did to a block. */
  function BlockProgress(b: OrderBlock, candles: seq<Candle>, n: nat): ZoneProgress
    requires n <= |candles|
  {
    if n <= b.createdIndex + 1 then b.progress
      else BlockStep(b, BlockProgress(b, candles, n - 1), n - 1, candles[n - 1])
  }

  function Resolved(b: OrderBlock, candles: seq<Candle>): OrderBlock {
    b.(progress := BlockProgress(b, candles, |candles|))
  }

  function ResolvedBlocks(blocks: seq<OrderBlock>, candles: seq<Candle>): (r: seq<OrderBlock>)
    ensures |r| == |blocks| && forall k :: 0 <= k < |r| ==> r[k] == Resolved(blocks[k], candles)
  {
    seq(|blocks|, k requires 0 <= k < |blocks| => Resolved(blocks[k], candles))
  }

  function Blocks(candles: seq<Candle>, breaks: seq<StructureBreak>, displacements: seq<Displacement>,
                  lookback: nat): seq<OrderBlock>
    requires InRange(breaks, |candles|)
  {
    ResolvedBlocks(FreshBlocks(candles, breaks, displacements, lookback), candles)
  }

  // ---------- the loops ----------

  lemma {:induction false} EndStays(b: OrderBlock, candles: seq<Candle>, i: nat, n: nat)
    requires i <= n <= |candles| && BlockProgress(b, candles, i).resolved.Some?
    ensures BlockProgress(b, candles, n) == BlockProgress(b, candles, i)
    decreases n
  {
    if i < n {
      EndStays(b, candles, i, n - 1);
    }
  }

  method ResolveOrderBlock(block: OrderBlock, candles: seq<Candle>) returns (r: OrderBlock)
    requires block.createdIndex < |candles| && block.progress == FRESH
    ensures r == Resolved(block, candles)
  {
    var firstTouch: Option<nat>, invalidated: Option<nat> := None, None;
    var status := block.progress.status;
    for index := block.createdIndex + 1 to |candles|
      invariant invalidated.None? && ZoneProgress(status, firstTouch, invalidated)
                == BlockProgress(block, candles, index)
    {
      var candle := candles[index];
      var touched;
      if block.direction == Bullish {
        if candle.closePrice < block.lowerPrice {
          invalidated := Some(index);
          status := ZoneInvalidated;
          EndStays(block, candles, index + 1, |candles|);
          break;
        }
        touched := candle.lowPrice <= block.upperPrice;
      } else {
        if candle.closePrice > block.upperPrice {
          invalidated := Some(index);
          status := ZoneInvalidated;
          EndStays(block, candles, index + 1, |candles|);
          break;
        }
        touched := candle.highPrice >= block.lowerPrice;
      }
      if touched && firstTouch.None? {
        firstTouch := Some(index);
        status := PartiallyFilled;
      }
    }
    r := block.(progress := ZoneProgress(status, firstTouch, invalidated));
  }

  method IndexDisplacements(displacements: seq<Displacement>) returns (byIndex: map<nat, Displacement>)
    ensures forall i: nat :: DisplacementOn(displacements, i) == if i in byIndex then Some(byIndex[i]) else None
  {
    byIndex := map[];
    for k := 0 to |displacements|
      invariant forall i: nat :: DisplacementOn(displacements[..k], i) == if i in byIndex then Some(byIndex[i])
                  else None
    {
      assert displacements[..k + 1][..k] == displacements[..k];
      byIndex := byIndex[displacements[k].index := displacements[k]];
    }
    assert displacements[..|displacements|] == displacements;
  }

  /** The backward search over the candles before a break. */
  method SearchBack(candles: seq<Candle>, direction: Bias, low: nat, high: nat) returns (found: Option<nat>)
    requires high <= |candles|
    ensures found == LastGoing(candles, direction, low, high)
  {
    var index := high;
    while index > low
      invariant 0 <= index <= high
      invariant LastGoing(candles, direction, low, high) == LastGoing(candles, direction, low, index)
    {
      index := index - 1;
      if candles[index].Direction() == Some(direction) {
        return Some(index);
      }
    }
    found := None;
  }

  ghost predicate UsedAre(used: set<(Bias, nat)>, blocks: seq<OrderBlock>) {
    forall direction: Bias, index: nat :: (direction, index) in used <==> Taken(blocks, direction, index)
  }

  lemma UsedGrows(used: set<(Bias, nat)>, blocks: seq<OrderBlock>, block: OrderBlock)
    requires UsedAre(used, blocks)
    ensures UsedAre(used + {(block.direction, block.candleIndex)}, blocks + [block])
  {
    var more := blocks + [block];
    forall direction: Bias, index: nat
      ensures (direction, index) in used + {(block.direction, block.candleIndex)} <==> Taken(more, direction, index)
    {
      if Taken(blocks, direction, index) {
        var k :| 0 <= k < |blocks| && blocks[k].direction == direction && blocks[k].candleIndex == index;
        assert more[k] == blocks[k];
      }
      assert more[|blocks|] == block;
    }
  }

  lemma ResolvedBlocksNext(blocks: seq<OrderBlock>, b: OrderBlock, candles: seq<Candle>)
    ensures ResolvedBlocks(blocks + [b], candles) == ResolvedBlocks(blocks, candles) + [Resolved(b, candles)]
  {
    hide Resolved;
  }

  lemma FreshBlocksNext(candles: seq<Candle>, breaks: seq<StructureBreak>, displacements: seq<Displacement>,
                        lookback: nat, k: nat)
    requires InRange(breaks, |candles|) && k < |breaks|
    ensures FreshBlocks(candles, breaks[..k + 1], displacements, lookback)
            == WithBlock(FreshBlocks(candles, breaks[..k], displacements, lookback),
              BlockFor(candles, breaks[k], displacements, lookback))
  {
    assert breaks[..k + 1][..k] == breaks[..k];
  }

  method DetectOrderBlocks(candles: seq<Candle>, breaks: seq<StructureBreak>, displacements: seq<Displacement>,
                           lookback: nat)
    returns (blocks: seq<OrderBlock>)
    requires lookback >= 1 && InRange(breaks, |candles|)
    ensures blocks == Blocks(candles, breaks, displacements, lookback)
  {
    hide FreshBlocks, ResolvedBlocks, Resolved, DisplacementOn, LastGoing, Taken, UsedAre;
    var byIndex := IndexDisplacements(displacements);
    blocks := [];
    ghost var created: seq<OrderBlock> := FreshBlocks(candles, [], displacements, lookback);
    var used: set<(Bias, nat)> := {};
    NothingYet(candles, displacements, lookback);
    for k := 0 to |breaks|
      invariant created == FreshBlocks(candles, breaks[..k], displacements, lookback)
      invariant blocks == ResolvedBlocks(created, candles)
      invariant UsedAre(used, created)
    {
      var event := breaks[k];
      FreshBlocksNext(candles, breaks, displacements, lookback, k);
      if event.index !in byIndex || byIndex[event.index].direction != event.direction {
        continue;
      }
      var start := if event.index < lookback then 0 else event.index - lookback;
      var source := SearchBack(candles, Opposite(event.direction), start, event.index);
      if source.None? {
        continue;
      }
      UsedLookup(used, created, event.direction, source.value);
      if (event.direction, source.value) in used {
        continue;
      }
      var candle := candles[source.value];
      var block := OrderBlock(event.direction, source.value, event.index, event.time, candle.lowPrice, candle.highPrice,
        event,
                              ZoneProgress(Open, None, None));
      var resolved := ResolveOrderBlock(block, candles);
      ResolvedBlocksNext(created, block, candles);
      UsedGrows(used, created, block);
      created := created + [block];
      blocks := blocks + [resolved];
      used := used + {(event.direction, source.value)};
    }
    assert breaks[..|breaks|] == breaks;
  }

  lemma UsedLookup(used: set<(Bias, nat)>, blocks: seq<OrderBlock>, direction: Bias, index: nat)
    requires UsedAre(used, blocks)
    ensures (direction, index) in used <==> Taken(blocks, direction, index)
  {
  }

  lemma NothingYet(candles: seq<Candle>, displacements: seq<Displacement>, lookback: nat)
    ensures FreshBlocks(candles, [], displacements, lookback) == [] && ResolvedBlocks([], candles) == []
    ensures UsedAre({}, [])
  {
  }

  // ---------- what the progress says ----------

  /**
   * A block ends at the first later close beyond it, and is touched by the first candle that reaches it before that.
   */
  lemma {:induction false} BlockMeaning(b: OrderBlock, candles: seq<Candle>, n: nat)
    requires b.createdIndex < n <= |candles| && b.progress == FRESH
    ensures var p := BlockProgress(b, candles, n);
            var end := if p.resolved.Some? then p.resolved.value else n;
            && (p.resolved.None? <==> forall k :: b.createdIndex < k < n ==> !Invalidates(b, candles[k]))
            && (p.resolved.Some? ==>
                  && b.createdIndex < p.resolved.value < n && Invalidates(b, candles[p.resolved.value])
                  && forall k :: b.createdIndex < k < p.resolved.value ==> !Invalidates(b, candles[k]))
            && (p.firstTouch.None? <==> forall k :: b.createdIndex < k < end ==> !Touches(b, candles[k]))
            && (p.firstTouch.Some? ==>
                  && b.createdIndex < p.firstTouch.value < end && Touches(b, candles[p.firstTouch.value])
                  && forall k :: b.createdIndex < k < p.firstTouch.value ==> !Touches(b, candles[k]))
            && p.status == if p.resolved.Some? then ZoneInvalidated else if p.firstTouch.Some? then PartiallyFilled
                 else Open
  {
    if n > b.createdIndex + 1 {
      BlockMeaning(b, candles, n - 1);
    }
  }

  // ---------- no look-ahead ----------

  lemma {:induction false} BlockProgressCausal(b: OrderBlock, candles: seq<Candle>, n: nat, i: nat)
    requires i <= n <= |candles|
    ensures BlockProgress(b, candles[..n], i) == BlockProgress(b, candles, i)
    decreases i
  {
    if i > b.createdIndex + 1 {
      BlockProgressCausal(b, candles, n, i - 1);
    }
  }

  lemma BlockStepAdvances(b: OrderBlock, p: ZoneProgress, i: nat, c: Candle)
    requires p.status == PartiallyFilled ==> p.firstTouch.Some?
    requires p.resolved.None? ==> p.status == if p.firstTouch.Some? then PartiallyFilled else Open
    ensures var r := BlockStep(b, p, i, c);
            && Advances(p, r)
            && (r.status == PartiallyFilled ==> r.firstTouch.Some?)
            && (r.resolved.None? ==> r.status == if r.firstTouch.Some? then PartiallyFilled else Open)
  {
  }

  lemma {:induction false} BlockAdvances(b: OrderBlock, candles: seq<Candle>, n: nat, m: nat)
    requires n <= m <= |candles| && b.progress == FRESH
    ensures var p := BlockProgress(b, candles, m);
            && Advances(BlockProgress(b, candles, n), p)
            && (p.status == PartiallyFilled ==> p.firstTouch.Some?)
            && (p.resolved.None? ==> p.status == if p.firstTouch.Some? then PartiallyFilled else Open)
    decreases m
  {
    hide BlockStep;
    if m > b.createdIndex + 1 {
      BlockAdvances(b, candles, if n < m then n else m - 1, m - 1);
      BlockStepAdvances(b, BlockProgress(b, candles, m - 1), m - 1, candles[m - 1]);
    }
  }

  lemma {:induction false} DisplacementOnPrefix(early: seq<Displacement>, late: seq<Displacement>, index: nat)
    requires forall d :: d in late ==> d.index != index
    ensures DisplacementOn(early + late, index) == DisplacementOn(early, index)
    decreases |late|
  {
    if late == [] {
      assert early + late == early;
    } else {
      assert late[|late| - 1] in late && (early + late)[..|early + late| - 1] == early + late[..|late| - 1];
      DisplacementOnPrefix(early, late[..|late| - 1], index);
    }
  }

  lemma {:induction false} LastGoingCausal(candles: seq<Candle>, n: nat, direction: Bias, low: nat, high: nat)
    requires high <= n <= |candles|
    ensures LastGoing(candles[..n], direction, low, high) == LastGoing(candles, direction, low, high)
    decreases high
  {
    if high > low {
      LastGoingCausal(candles, n, direction, low, high - 1);
    }
  }

  lemma BlockForCausal(candles: seq<Candle>, n: nat, b: StructureBreak, early: seq<Displacement>,
                       late: seq<Displacement>, lookback: nat)
    requires b.index < n <= |candles| && forall d :: d in late ==> d.index >= n
    ensures BlockFor(candles[..n], b, early, lookback) == BlockFor(candles, b, early + late, lookback)
  {
    hide DisplacementOn, LastGoing;
    DisplacementOnPrefix(early, late, b.index);
    LastGoingCausal(candles, n, Opposite(b.direction), SearchStart(b.index, lookback), b.index);
  }

  lemma {:induction false} FreshBlocksCausal(
      candles: seq<Candle>, n: nat, breaks: seq<StructureBreak>, early: seq<Displacement>, late: seq<Displacement>,
        lookback: nat)
    requires n <= |candles| && InRange(breaks, n) && forall d :: d in late ==> d.index >= n
    ensures FreshBlocks(candles[..n], breaks, early, lookback) == FreshBlocks(candles, breaks, early + late, lookback)
    decreases |breaks|
  {
    hide BlockFor, WithBlock;
    if breaks != [] {
      FreshBlocksCausal(candles, n, breaks[..|breaks| - 1], early, late, lookback);
      BlockForCausal(candles, n, breaks[|breaks| - 1], early, late, lookback);
    }
  }

  lemma BlockForShape(candles: seq<Candle>, b: StructureBreak, displacements: seq<Displacement>, lookback: nat)
    requires b.index < |candles|
    ensures var block := BlockFor(candles, b, displacements, lookback);
            block.Some? ==> block.value.createdIndex == b.index && block.value.progress == FRESH
  {
    hide DisplacementOn, LastGoing;
  }

  lemma {:induction false} FreshBlocksGrow(
      candles: seq<Candle>, early: seq<StructureBreak>, late: seq<StructureBreak>, displacements: seq<Displacement>,
        lookback: nat, n: nat)
    requires InRange(early + late, |candles|) && forall b :: b in late ==> b.index >= n
    ensures InRange(early, |candles|)
    ensures var before, all := FreshBlocks(candles, early, displacements, lookback),
            FreshBlocks(candles, early + late, displacements, lookback);
            && before <= all
            && (forall k :: 0 <= k < |all| ==> all[k].progress == FRESH)
            && (forall k :: |before| <= k < |all| ==> all[k].createdIndex >= n)
    decreases |early| + |late|
  {
    hide BlockFor, Taken;
    assert forall k :: 0 <= k < |early| ==> (early + late)[k] == early[k];
    if late != [] {
      var most, last := late[..|late| - 1], late[|late| - 1];
      assert last in late && (early + late)[|early + late| - 1] == last;
      assert (early + late)[..|early + late| - 1] == early + most;
      assert forall k :: 0 <= k < |early + most| ==> (early + most)[k] == (early + late)[k];
      FreshBlocksGrow(candles, early, most, displacements, lookback, n);
      BlockForShape(candles, last, displacements, lookback);
    } else {
      assert early + late == early;
      if early != [] {
        var most, last := early[..|early| - 1], early[|early| - 1];
        assert most + [] == most;
        FreshBlocksGrow(candles, most, [], displacements, lookback, n);
        BlockForShape(candles, last, displacements, lookback);
      }
    }
  }

  /**
   * The order blocks created by n candles are the full run's first blocks; later candles only advance their progress.
   */
  lemma BlocksCausal(
      candles: seq<Candle>, n: nat, earlyBreaks: seq<StructureBreak>, lateBreaks: seq<StructureBreak>,
      early: seq<Displacement>, late: seq<Displacement>, lookback: nat)
    requires n <= |candles| && InRange(earlyBreaks, n) && InRange(earlyBreaks + lateBreaks, |candles|)
    requires (forall b :: b in lateBreaks ==> b.index >= n) && (forall d :: d in late ==> d.index >= n)
    ensures var some := Blocks(candles[..n], earlyBreaks, early, lookback);
            var all := Blocks(candles, earlyBreaks + lateBreaks, early + late, lookback);
            && |some| <= |all|
            && (forall k :: 0 <= k < |some| ==>
                  all[k] == some[k].(progress := all[k].progress) && Advances(some[k].progress, all[k].progress))
            && (forall k :: |some| <= k < |all| ==> all[k].createdIndex >= n)
  {
    hide FreshBlocks, BlockProgress, Advances;
    FreshBlocksCausal(candles, n, earlyBreaks, early, late, lookback);
    FreshBlocksGrow(candles, earlyBreaks, lateBreaks, early + late, lookback, n);
    var created := FreshBlocks(candles[..n], earlyBreaks, early, lookback);
    var total := FreshBlocks(candles, earlyBreaks + lateBreaks, early + late, lookback);
    forall k | 0 <= k < |created|
      ensures Advances(BlockProgress(created[k], candles[..n], n), BlockProgress(created[k], candles, |candles|))
    {
      assert created[k] == total[k];
      BlockProgressCausal(created[k], candles, n, n);
      BlockAdvances(created[k], candles, n, |candles|);
    }
  }
}
