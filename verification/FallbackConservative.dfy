/** When the candle fallback never books more than any tape the candle could stand for. */
module FallbackConservative {
  import opened Wrappers
  import opened MarketModels
  import opened Lifecycle
  import opened Fallback

  // ---------- the order of the status values ----------

  /** What selling (or buying back) one unit at a price brings over the planned entry, exit fee paid. */
  function NetExit(t: Terms, price: real): real {
    if t.direction == Long
    then price * (1.0 - t.feeRate) - t.plannedEntry
    else t.plannedEntry - price * (1.0 + t.feeRate)
  }

  /** The entry cost of one unit, its exit fee at the planned entry. */
  function UnitCost(t: Terms): real {
    t.plannedEntry * t.feeRate
  }

  lemma PnlByNetExit(t: Terms, price: real)
    ensures EntryFee(t) == t.quantity * UnitCost(t)
    ensures FullExitPnl(t, price) == t.quantity * NetExit(t, price) - EntryFee(t)
    ensures Tp1Pnl(t) == t.quantity / 2.0 * NetExit(t, t.takeProfit1) - EntryFee(t)
    ensures Tp1ThenExitPnl(t, price)
            == t.quantity / 2.0 * NetExit(t, t.takeProfit1) + t.quantity / 2.0 * NetExit(t, price) - EntryFee(t)
  {
  }

  lemma BreakevenNets(t: Terms)
    requires 0.0 <= t.feeRate < 1.0
    ensures NetExit(t, Breakeven(t)) == t.plannedEntry * t.feeRate
  {
    if t.direction == Long {
      var x, d := t.plannedEntry * (1.0 + t.feeRate), 1.0 - t.feeRate;
      assert x / d * d == x;
    } else {
      var x, d := t.plannedEntry * (1.0 - t.feeRate), 1.0 + t.feeRate;
      assert x / d * d == x;
    }
  }

  /** A price further in the signal's favour nets more. */
  lemma NetExitMonotone(t: Terms, a: real, b: real)
    requires 0.0 <= t.feeRate < 1.0
    requires if t.direction == Long then a < b else a > b
    ensures NetExit(t, a) < NetExit(t, b)
  {
    if t.direction == Long {
      var d := 1.0 - t.feeRate;
      assert d > 0.0 && b - a > 0.0;
      assert (b - a) * d > 0.0;
      assert NetExit(t, b) - NetExit(t, a) == (b - a) * d;
    } else {
      var d := 1.0 + t.feeRate;
      assert d > 0.0 && a - b > 0.0;
      assert (a - b) * d > 0.0;
      assert NetExit(t, b) - NetExit(t, a) == (a - b) * d;
    }
  }

  lemma HalvesGrow(half: real, a: real, b: real)
    requires half > 0.0 && a < b
    ensures half * a < half * b
  {
  }

  lemma UnitOrder(t: Terms)
    requires WellFormedTerms(t)
    ensures NetExit(t, t.stopLoss) < -UnitCost(t) < NetExit(t, t.takeProfit1)
    ensures NetExit(t, Breakeven(t)) == UnitCost(t) < NetExit(t, t.takeProfit2)
    ensures UnitCost(t) >= 0.0 && (UnitCost(t) > 0.0 <==> t.feeRate > 0.0)
  {
    BreakevenNets(t);
    assert NetExit(t, t.plannedEntry) == -UnitCost(t);
    NetExitMonotone(t, t.stopLoss, t.plannedEntry);
    NetExitMonotone(t, t.plannedEntry, t.takeProfit1);
    NetExitMonotone(t, Breakeven(t), t.takeProfit2);
  }

  lemma BookedByNetExit(t: Terms)
    requires WellFormedTerms(t)
    ensures BookedPnl(t, Entered) == -(t.quantity * UnitCost(t))
    ensures BookedPnl(t, Stopped) == t.quantity * NetExit(t, t.stopLoss) - t.quantity * UnitCost(t)
    ensures BookedPnl(t, Tp1Reached) == t.quantity / 2.0 * NetExit(t, t.takeProfit1) - t.quantity * UnitCost(t)
    ensures BookedPnl(t, StoppedAtBreakeven)
            == BookedPnl(t, Tp1Reached) + t.quantity / 2.0 * NetExit(t, Breakeven(t))
    ensures BookedPnl(t, Tp2Completed)
            == BookedPnl(t, Tp1Reached) + t.quantity / 2.0 * NetExit(t, t.takeProfit2)
  {
    hide FullExitPnl, Tp1Pnl, Tp1ThenExitPnl, EntryFee, NetExit, Breakeven, UnitCost;
    PnlByNetExit(t, t.stopLoss);
    PnlByNetExit(t, Breakeven(t));
    PnlByNetExit(t, t.takeProfit2);
  }

  /** The money statuses in order: a full stop is the worst, TP2 the best, and only TP1 may fall below the entry fee. */
  lemma StatusValues(t: Terms)
    requires WellFormedTerms(t)
    ensures BookedPnl(t, Stopped) < BookedPnl(t, Entered) <= 0.0
    ensures BookedPnl(t, Stopped) < BookedPnl(t, Tp1Reached) <= BookedPnl(t, StoppedAtBreakeven) < BookedPnl(t,
            Tp2Completed)
    ensures BookedPnl(t, Entered) < BookedPnl(t, StoppedAtBreakeven)
    ensures BookedPnl(t, Entered) < 0.0 <==> t.feeRate > 0.0
    ensures t.feeRate == 0.0 ==> BookedPnl(t, Tp1Reached) > 0.0
  {
    hide BookedPnl, NetExit, Breakeven, UnitCost;
    var half, cost := t.quantity / 2.0, UnitCost(t);
    var s, one, two := NetExit(t, t.stopLoss), NetExit(t, t.takeProfit1), NetExit(t, t.takeProfit2);
    UnitOrder(t);
    BookedByNetExit(t);
    HalvesGrow(half, s, -cost);
    HalvesGrow(half, -cost, one);
    HalvesGrow(half, cost, two);
    assert t.quantity * s == 2.0 * (half * s) && t.quantity * cost == 2.0 * (half * cost);
    assert half * -cost == -(half * cost) && half * cost >= 0.0;
    if cost > 0.0 { HalvesGrow(half, 0.0, cost); }
  }

  // ---------- statuses alone ----------

  /** The status half of one trade step, with the stop read off the status. */
  function NextStatus(s: LifecycleState, status: SignalStatus, trade: PublicTrade): SignalStatus
    requires Divisible(s.terms)
  {
    var t := s.terms;
    match status
    case Active =>
      if trade.executedAt >= s.expiresAt then Expired
      else if BeyondStop(t.direction, t.stopLoss, trade.price) then Invalidated
      else if InEntryZone(t, trade.price) then Entered
      else Active
    case Entered =>
      if BeyondStop(t.direction, t.stopLoss, trade.price) then Stopped
      else if TargetReached(t.direction, t.takeProfit2, trade.price) then Tp2Completed
      else if TargetReached(t.direction, t.takeProfit1, trade.price) then Tp1Reached
      else Entered
    case Tp1Reached =>
      if BeyondStop(t.direction, Breakeven(t), trade.price) then StoppedAtBreakeven
      else if TargetReached(t.direction, t.takeProfit2, trade.price) then Tp2Completed
      else Tp1Reached
    case _ => status
  }

  function FinalStatus(s: LifecycleState, status: SignalStatus, trades: seq<PublicTrade>): SignalStatus
    requires Divisible(s.terms)
    decreases |trades|
  {
    if trades == [] then status else FinalStatus(s, NextStatus(s, status, trades[0]), trades[1..])
  }

  lemma StepFollowsStatus(p: Position, trade: PublicTrade)
    requires Booked(p) && trade.symbol == p.state.symbol
    ensures StepTrade(p, trade).state.status == NextStatus(p.state, p.state.status, trade)
  {
    hide FullExitPnl, FullExitFees, Tp1Pnl, Tp1Fees, Tp1ThenExitPnl, Tp1ThenExitFees, EntryFee, Breakeven;
    ApplyFewActions(p, EvaluatePublicTrade(p.state, trade), trade.executedAt);
  }

  lemma {:induction false} RunFollowsStatus(p: Position, trades: seq<PublicTrade>)
    requires Booked(p) && forall i :: 0 <= i < |trades| ==> trades[i].symbol == p.state.symbol
    ensures RunTrades(p, trades).state.status == FinalStatus(p.state, p.state.status, trades)
    ensures RunTrades(p, trades).pnl == BookedPnl(p.state.terms, FinalStatus(p.state, p.state.status, trades))
    decreases |trades|
  {
    hide BookedPnl, BookedFees, Breakeven, EvaluatePublicTrade;
    RunKeepsBooks(p, trades);
    if trades != [] {
      var q := StepTrade(p, trades[0]);
      StepFollowsStatus(p, trades[0]);
      StepKeepsBooks(p, trades[0]);
      RunFollowsStatus(q, trades[1..]);
      SameTermsSameFinal(p.state, q.state, q.state.status, trades[1..]);
    }
  }

  lemma {:induction false} SameTermsSameFinal(a: LifecycleState, b: LifecycleState, status: SignalStatus,
                                              trades: seq<PublicTrade>)
    requires a.terms == b.terms && a.expiresAt == b.expiresAt && Divisible(a.terms)
    ensures FinalStatus(a, status, trades) == FinalStatus(b, status, trades)
    decreases |trades|
  {
    if trades != [] {
      SameTermsSameFinal(a, b, NextStatus(a, status, trades[0]), trades[1..]);
    }
  }

  lemma {:induction false} FinalStatusConcat(s: LifecycleState, status: SignalStatus, a: seq<PublicTrade>,
                                             b: seq<PublicTrade>)
    requires Divisible(s.terms)
    ensures FinalStatus(s, status, a + b) == FinalStatus(s, FinalStatus(s, status, a), b)
    decreases |a|
  {
    hide NextStatus;
    if a == [] {
      assert a + b == b;
    } else {
      assert (a + b)[1..] == a[1..] + b;
      FinalStatusConcat(s, NextStatus(s, status, a[0]), a[1..], b);
    }
  }

  /** No trade of the tape leads out of this set of statuses. */
  ghost predicate Closed(s: LifecycleState, trades: seq<PublicTrade>, inside: set<SignalStatus>)
    requires Divisible(s.terms)
  {
    forall i, st :: 0 <= i < |trades| && st in inside ==> NextStatus(s, st, trades[i]) in inside
  }

  lemma {:induction false} Confined(s: LifecycleState, status: SignalStatus, trades: seq<PublicTrade>,
                                    inside: set<SignalStatus>)
    requires Divisible(s.terms) && status in inside && Closed(s, trades, inside)
    ensures FinalStatus(s, status, trades) in inside
    decreases |trades|
  {
    hide NextStatus;
    if trades != [] {
      assert NextStatus(s, status, trades[0]) in inside;
      forall i, st | 0 <= i < |trades[1..]| && st in inside
        ensures NextStatus(s, st, trades[1..][i]) in inside
      {
        assert trades[1..][i] == trades[i + 1];
      }
      Confined(s, NextStatus(s, status, trades[0]), trades[1..], inside);
    }
  }

  /** A tape confined to one set crosses into a second closed set when one of its trades leads there. */
  lemma Crossed(s: LifecycleState, status: SignalStatus, trades: seq<PublicTrade>, k: nat,
                from: set<SignalStatus>, to: set<SignalStatus>)
    requires Divisible(s.terms) && status in from && Closed(s, trades, from) && Closed(s, trades, to)
    requires k < |trades| && forall st :: st in from ==> NextStatus(s, st, trades[k]) in to
    ensures FinalStatus(s, status, trades) in to
  {
    hide NextStatus;
    var before, after := trades[..k], trades[k + 1..];
    assert trades == before + ([trades[k]] + after);
    FinalStatusConcat(s, status, before, [trades[k]] + after);
    Confined(s, status, before, from);
    var st := FinalStatus(s, status, before);
    assert ([trades[k]] + after)[1..] == after;
    assert FinalStatus(s, st, [trades[k]] + after) == FinalStatus(s, NextStatus(s, st, trades[k]), after);
    Confined(s, NextStatus(s, st, trades[k]), after, to);
  }

  /** The exact status whose books the fallback copies; an ambiguous candle takes those of the stop. */
  function CandleOutcome(s: LifecycleState, c: Candle1m): SignalStatus
    requires Divisible(s.terms)
  {
    var t := s.terms;
    match s.status
    case Active =>
      if CloseTime(c) > s.expiresAt then Expired
      else if !TouchesEntry(t, c) then
        if TouchesStop(t.direction, t.stopLoss, c) then Invalidated else Active
      else if TouchesStop(t.direction, t.stopLoss, c) then Stopped
      else Entered
    case Entered =>
      if TouchesStop(t.direction, t.stopLoss, c) then Stopped
      else if TouchesTarget(t.direction, t.takeProfit2, c) then Tp2Completed
      else if TouchesTarget(t.direction, t.takeProfit1, c) then Tp1Reached
      else Entered
    case Tp1Reached =>
      if TouchesStop(t.direction, Breakeven(t), c) then StoppedAtBreakeven
      else if TouchesTarget(t.direction, t.takeProfit2, c) then Tp2Completed
      else Tp1Reached
    case _ => s.status
  }

  lemma CandleBooks(p: Position, c: Candle1m)
    requires Booked(p) && c.symbol == p.state.symbol
    ensures var r := StepCandle(p, c);
            && r.pnl == BookedPnl(p.state.terms, CandleOutcome(p.state, c))
            && (r.state.status == CandleOutcome(p.state, c) || r.state.status == Ambiguous)
            && (r.state.status != Ambiguous ==> Booked(r))
  {
    hide FullExitPnl, FullExitFees, Tp1Pnl, Tp1Fees, Tp1ThenExitPnl, Tp1ThenExitFees, EntryFee, Breakeven;
    ApplyFewActions(p, EvaluateClosedCandle(p.state, c), CloseTime(c));
  }

  // ---------- the theorem ----------

  /**
   * The three situations in which the candle can be booked above what its trades really earned: TP2 credited
   * although the breakeven stop was in reach after TP1, an entry booked although a losing TP1 was in reach after
   * it, and an expiry booked inside the candle although an entry was in reach before it.
   */
  predicate Overcredits(s: LifecycleState, c: Candle1m)
    requires WellFormed(s)
  {
    var t := s.terms;
    if s.status == Entered then
      && !TouchesStop(t.direction, t.stopLoss, c)
      && TouchesTarget(t.direction, t.takeProfit2, c)
      && TouchesStop(t.direction, Breakeven(t), c)
    else if s.status == Active && CloseTime(c) <= s.expiresAt then
      && TouchesEntry(t, c) && !TouchesStop(t.direction, t.stopLoss, c)
      && TouchesTarget(t.direction, t.takeProfit1, c)
      && BookedPnl(t, Tp1Reached) < BookedPnl(t, Entered)
    else if s.status == Active && OpenTime(c) < s.expiresAt then
      && TouchesEntry(t, c)
      && (t.feeRate > 0.0 || TouchesStop(t.direction, t.stopLoss, c))
    else false
  }

  ghost predicate ConservativeOnAllTapes(p: Position, c: Candle1m)
    requires Booked(p)
  {
    forall trades | TapeOf(c, trades) :: RunTrades(p, trades).pnl >= StepCandle(p, c).pnl
  }

  /** Where a tape can take a waiting signal, given which levels its candle touches. */
  lemma ActiveReach(s: LifecycleState, c: Candle1m, trades: seq<PublicTrade>)
    requires WellFormed(s) && s.status == Active && TapeOf(c, trades)
    ensures var end := FinalStatus(s, Active, trades);
            && end in {Active, Expired, Invalidated, Entered, Stopped, Tp1Reached, StoppedAtBreakeven, Tp2Completed}
            && (OpenTime(c) >= s.expiresAt || !TouchesEntry(s.terms, c) ==> end in {Active, Invalidated, Expired})
            && (!TouchesStop(s.terms.direction, s.terms.stopLoss, c) ==> end !in {Stopped, Invalidated})
            && ((CloseTime(c) <= s.expiresAt && !TouchesStop(s.terms.direction, s.terms.stopLoss, c)
                 && !TouchesTarget(s.terms.direction, s.terms.takeProfit1, c)) ==> end in {Active, Entered})
  {
    hide BookedPnl, Breakeven;
    var d, t := s.terms.direction, s.terms;
    Confined(s, Active, trades,
      {Active, Expired, Invalidated, Entered, Stopped, Tp1Reached, StoppedAtBreakeven, Tp2Completed});
    if OpenTime(c) >= s.expiresAt || !TouchesEntry(t, c) {
      Confined(s, Active, trades, {Active, Invalidated, Expired});
    }
    if !TouchesStop(d, t.stopLoss, c) {
      Confined(s, Active, trades, {Active, Expired, Entered, Tp1Reached, StoppedAtBreakeven, Tp2Completed});
      if CloseTime(c) <= s.expiresAt && !TouchesTarget(d, t.takeProfit1, c) {
        Confined(s, Active, trades, {Active, Entered});
      }
    }
  }

  lemma ActiveIsSafe(s: LifecycleState, c: Candle1m, trades: seq<PublicTrade>)
    requires WellFormed(s) && s.status == Active && TapeOf(c, trades) && !Overcredits(s, c)
    ensures BookedPnl(s.terms, FinalStatus(s, Active, trades)) >= BookedPnl(s.terms, CandleOutcome(s, c))
  {
    StatusValues(s.terms);
    ZeroUnlessFilled(s.terms);
    hide BookedPnl, Breakeven;
    ActiveReach(s, c, trades);
  }

  lemma ZeroUnlessFilled(t: Terms)
    requires WellFormedTerms(t)
    ensures forall st | st in {Active, Expired, Invalidated} :: BookedPnl(t, st) == 0.0
  {
    hide FullExitPnl, Tp1Pnl, Tp1ThenExitPnl, EntryFee, Breakeven;
  }

  /** The trade that printed the extreme on the stop's side, or on the targets' side, of the signal. */
  lemma ExtremeTrade(d: Direction, c: Candle1m, trades: seq<PublicTrade>, favourable: bool) returns (k: nat)
    requires TapeOf(c, trades)
    ensures k < |trades| && trades[k].price == if favourable == (d == Long) then c.highPrice else c.lowPrice
  {
    if favourable == (d == Long) {
      k :| 0 <= k < |trades| && trades[k].price == c.highPrice;
    } else {
      k :| 0 <= k < |trades| && trades[k].price == c.lowPrice;
    }
  }

  /** From `Entered` with the stop out of reach, the favourable extreme decides how far the tape gets. */
  lemma EnteredWithoutStop(s: LifecycleState, c: Candle1m, trades: seq<PublicTrade>)
    requires WellFormed(s) && s.status == Entered && TapeOf(c, trades)
    requires !TouchesStop(s.terms.direction, s.terms.stopLoss, c) && !Overcredits(s, c)
    ensures var end := FinalStatus(s, Entered, trades);
            if TouchesTarget(s.terms.direction, s.terms.takeProfit2, c) then end == Tp2Completed
            else if TouchesTarget(s.terms.direction, s.terms.takeProfit1, c)
              then end in {Tp1Reached, StoppedAtBreakeven}
            else end == Entered
  {
    hide BookedPnl, Breakeven;
    var d, t := s.terms.direction, s.terms;
    var k := ExtremeTrade(d, c, trades, true);
    if TouchesTarget(d, t.takeProfit2, c) {
      Crossed(s, Entered, trades, k, {Entered, Tp1Reached, Tp2Completed}, {Tp2Completed});
    } else if TouchesTarget(d, t.takeProfit1, c) {
      Crossed(s, Entered, trades, k, {Entered, Tp1Reached, StoppedAtBreakeven}, {Tp1Reached, StoppedAtBreakeven});
    } else {
      Confined(s, Entered, trades, {Entered});
    }
  }

  lemma EnteredIsSafe(s: LifecycleState, c: Candle1m, trades: seq<PublicTrade>)
    requires WellFormed(s) && s.status == Entered && TapeOf(c, trades) && !Overcredits(s, c)
    ensures BookedPnl(s.terms, FinalStatus(s, Entered, trades)) >= BookedPnl(s.terms, CandleOutcome(s, c))
  {
    StatusValues(s.terms);
    hide BookedPnl, Breakeven;
    Confined(s, Entered, trades, {Entered, Stopped, Tp1Reached, StoppedAtBreakeven, Tp2Completed});
    if !TouchesStop(s.terms.direction, s.terms.stopLoss, c) {
      EnteredWithoutStop(s, c, trades);
    }
  }

  lemma Tp1ReachedIsSafe(s: LifecycleState, c: Candle1m, trades: seq<PublicTrade>)
    requires WellFormed(s) && s.status == Tp1Reached && TapeOf(c, trades)
    ensures BookedPnl(s.terms, FinalStatus(s, Tp1Reached, trades)) >= BookedPnl(s.terms, CandleOutcome(s, c))
  {
    StatusValues(s.terms);
    hide BookedPnl;
    var d, t, be := s.terms.direction, s.terms, Breakeven(s.terms);
    hide Breakeven;
    if TouchesStop(d, be, c) {
      var k := ExtremeTrade(d, c, trades, false);
      Crossed(s, Tp1Reached, trades, k, {Tp1Reached, StoppedAtBreakeven, Tp2Completed},
        {StoppedAtBreakeven, Tp2Completed});
    } else if TouchesTarget(d, t.takeProfit2, c) {
      var k := ExtremeTrade(d, c, trades, true);
      Crossed(s, Tp1Reached, trades, k, {Tp1Reached, Tp2Completed}, {Tp2Completed});
    } else {
      Confined(s, Tp1Reached, trades, {Tp1Reached});
    }
  }

  // ---------- tapes that beat the fallback ----------

  function At(c: Candle1m, price: real): PublicTrade {
    PublicTrade("tape", c.symbol, price, OpenTime(c), 0)
  }

  function Adverse(d: Direction, c: Candle1m): real {
    if d == Long then c.lowPrice else c.highPrice
  }

  function Favourable(d: Direction, c: Candle1m): real {
    if d == Long then c.highPrice else c.lowPrice
  }

  /** The price nearest to a wanted one that the candle's range contains. */
  function Clip(c: Candle1m, wanted: real): real {
    if wanted < c.lowPrice then c.lowPrice else if wanted > c.highPrice then c.highPrice else wanted
  }

  lemma FinalOfFour(s: LifecycleState, st: SignalStatus, w: PublicTrade, x: PublicTrade, y: PublicTrade, z: PublicTrade)
    requires Divisible(s.terms)
    ensures FinalStatus(s, st, [w, x, y, z])
            == NextStatus(s, NextStatus(s, NextStatus(s, NextStatus(s, st, w), x), y), z)
  {
    hide NextStatus;
    assert [w, x, y, z][1..] == [x, y, z] && [x, y, z][1..] == [y, z] && [y, z][1..] == [z] && [z][1..] == [];
    var s1 := NextStatus(s, st, w);
    var s2 := NextStatus(s, s1, x);
    var s3 := NextStatus(s, s2, y);
    assert FinalStatus(s, s3, [z]) == FinalStatus(s, NextStatus(s, s3, z), []);
    assert FinalStatus(s, s2, [y, z]) == FinalStatus(s, s3, [z]);
    assert FinalStatus(s, s1, [x, y, z]) == FinalStatus(s, s2, [y, z]);
    assert FinalStatus(s, st, [w, x, y, z]) == FinalStatus(s, s1, [x, y, z]);
  }

  /** A price printed at the start of the candle, inside its range. */
  predicate Printed(c: Candle1m, x: PublicTrade) {
    x.symbol == c.symbol && x.executedAt == OpenTime(c) && c.lowPrice <= x.price <= c.highPrice
  }

  lemma FourPrints(c: Candle1m, trades: seq<PublicTrade>, low: nat, high: nat)
    requires |trades| == 4 && low < 4 && high < 4
    requires forall i :: 0 <= i < 4 ==> Printed(c, trades[i])
    requires (trades[low].price == c.lowPrice && trades[high].price == c.highPrice)
             || (trades[low].price == c.highPrice && trades[high].price == c.lowPrice)
    ensures TapeOf(c, trades)
  {
  }

  /** A waiting signal enters and reaches TP1 inside one candle that the candle machine only books as an entry. */
  lemma EntryThenTarget(s: LifecycleState, c: Candle1m, hi: PublicTrade, lo: PublicTrade, zone: PublicTrade,
                        tp1: PublicTrade)
    requires WellFormed(s) && s.status == Active && CloseTime(c) <= s.expiresAt && c.lowPrice <= c.highPrice
    requires TouchesEntry(s.terms, c) && !TouchesStop(s.terms.direction, s.terms.stopLoss, c)
    requires TouchesTarget(s.terms.direction, s.terms.takeProfit1, c)
    requires hi == At(c, Favourable(s.terms.direction, c)) && lo == At(c, Adverse(s.terms.direction, c))
    requires zone == At(c, Clip(c, s.terms.plannedEntry)) && tp1 == At(c, Clip(c, s.terms.takeProfit1))
    ensures FinalStatus(s, Active, [hi, lo, zone, tp1]) == Tp1Reached
  {
    hide BookedPnl, Breakeven;
    FinalOfFour(s, Active, hi, lo, zone, tp1);
    assert NextStatus(s, Active, hi) == Active;
    assert NextStatus(s, Active, lo) in {Active, Entered};
  }

  /** TP1 followed by a return to breakeven, inside one candle that the candle machine books as a target. */
  lemma TargetThenBreakeven(s: LifecycleState, c: Candle1m, tp1: PublicTrade, lo: PublicTrade, hi: PublicTrade)
    requires WellFormed(s) && s.status == Entered && c.lowPrice <= c.highPrice
    requires !TouchesStop(s.terms.direction, s.terms.stopLoss, c)
             && TouchesStop(s.terms.direction, Breakeven(s.terms), c)
    requires TouchesTarget(s.terms.direction, s.terms.takeProfit1, c)
    requires hi == At(c, Favourable(s.terms.direction, c)) && lo == At(c, Adverse(s.terms.direction, c))
    requires tp1 == At(c, Clip(c, s.terms.takeProfit1))
    ensures FinalStatus(s, Entered, [tp1, lo, hi, hi]) == StoppedAtBreakeven
  {
    hide BookedPnl, Breakeven;
    FinalOfFour(s, Entered, tp1, lo, hi, hi);
    assert NextStatus(s, Entered, tp1) == Tp1Reached;
  }

  /** With the expiry inside the candle, a waiting signal can still enter, and even stop out, before it. */
  lemma EntryBeforeExpiry(s: LifecycleState, c: Candle1m, hi: PublicTrade, lo: PublicTrade, zone: PublicTrade)
    requires WellFormed(s) && s.status == Active && OpenTime(c) < s.expiresAt && c.lowPrice <= c.highPrice
    requires TouchesEntry(s.terms, c)
    requires hi == At(c, Favourable(s.terms.direction, c)) && lo == At(c, Adverse(s.terms.direction, c))
    requires zone == At(c, Clip(c, s.terms.plannedEntry))
    ensures TouchesStop(s.terms.direction, s.terms.stopLoss, c) ==>
              FinalStatus(s, Active, [zone, lo, hi, hi]) == Stopped
    ensures !TouchesStop(s.terms.direction, s.terms.stopLoss, c) ==>
              FinalStatus(s, Active, [hi, lo, zone, zone]) == Entered
  {
    hide BookedPnl, Breakeven;
    FinalOfFour(s, Active, zone, lo, hi, hi);
    FinalOfFour(s, Active, hi, lo, zone, zone);
    assert NextStatus(s, Active, zone) == Entered;
    if !TouchesStop(s.terms.direction, s.terms.stopLoss, c) {
      assert NextStatus(s, Active, hi) in {Active, Entered} && NextStatus(s, Active, lo) in {Active, Entered};
    }
  }

  /** Every overcrediting candle stands for some tape that ends lower. */
  lemma WorseTape(s: LifecycleState, c: Candle1m) returns (trades: seq<PublicTrade>)
    requires WellFormed(s) && c.lowPrice <= c.highPrice && Overcredits(s, c)
    ensures TapeOf(c, trades)
    ensures BookedPnl(s.terms, FinalStatus(s, s.status, trades)) < BookedPnl(s.terms, CandleOutcome(s, c))
  {
    hide BookedPnl, Breakeven, NextStatus, TapeOf;
    StatusValues(s.terms);
    ZeroUnlessFilled(s.terms);
    var d, t := s.terms.direction, s.terms;
    var lo, hi := At(c, Adverse(d, c)), At(c, Favourable(d, c));
    var zone, tp1 := At(c, Clip(c, t.plannedEntry)), At(c, Clip(c, t.takeProfit1));
    if s.status == Entered {
      trades := [tp1, lo, hi, hi];
      FourPrints(c, trades, 1, 2);
      TargetThenBreakeven(s, c, tp1, lo, hi);
    } else if CloseTime(c) <= s.expiresAt {
      trades := [hi, lo, zone, tp1];
      FourPrints(c, trades, 1, 0);
      EntryThenTarget(s, c, hi, lo, zone, tp1);
    } else {
      EntryBeforeExpiry(s, c, hi, lo, zone);
      trades := if TouchesStop(d, t.stopLoss, c) then [zone, lo, hi, hi] else [hi, lo, zone, zone];
      FourPrints(c, trades, 1, if TouchesStop(d, t.stopLoss, c) then 2 else 0);
    }
  }

  /**
   * The candle fallback is conservative exactly outside the overcrediting situations: its booked profit is a lower
   * bound on that of every ordered tape inside the candle if and only if `Overcredits` does not hold.
   */
  lemma FallbackConservativeIff(p: Position, c: Candle1m)
    requires Booked(p) && c.symbol == p.state.symbol && c.lowPrice <= c.highPrice
    ensures ConservativeOnAllTapes(p, c) <==> !Overcredits(p.state, c)
  {
    hide BookedPnl, Breakeven, EvaluatePublicTrade, EvaluateClosedCandle;
    CandleBooks(p, c);
    if Overcredits(p.state, c) {
      var trades := WorseTape(p.state, c);
      RunFollowsStatus(p, trades);
      assert RunTrades(p, trades).pnl < StepCandle(p, c).pnl;
    } else {
      forall trades | TapeOf(c, trades) ensures RunTrades(p, trades).pnl >= StepCandle(p, c).pnl {
        RunFollowsStatus(p, trades);
        match p.state.status {
          case Active => ActiveIsSafe(p.state, c, trades);
          case Entered => EnteredIsSafe(p.state, c, trades);
          case Tp1Reached => Tp1ReachedIsSafe(p.state, c, trades);
          case _ => Confined(p.state, p.state.status, trades, {p.state.status});
        }
      }
    }
  }
}
