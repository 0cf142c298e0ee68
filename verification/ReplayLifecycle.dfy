/** How the replay resolves one accepted candidate over the later one-minute candles. */
module ReplayLifecycle {
  import opened Wrappers
  import opened Sequences
  import opened MarketModels
  import opened Lifecycle
  import opened Fallback
  import opened FallbackConservative
  import opened FallbackExact
  import opened TradePlans
  import opened Evaluator

  /** Everything a replay row carries besides its candle stays optional. */
  datatype MarketRow = MarketRow(
    candle: Candle1m, openInterest: Option<real>, fundingRate: Option<real>, spreadBps: Option<real>,
    turnover24h: Option<real>, maxLeverage: Option<real>, quantityStep: Option<real>, minimumNotional: Option<real>)

  function CandlesOf(rows: seq<MarketRow>): (r: seq<Candle1m>)
    ensures |r| == |rows| && forall i :: 0 <= i < |r| ==> r[i] == rows[i].candle
  {
    seq(|rows|, i requires 0 <= i < |rows| => rows[i].candle)
  }

  datatype OutcomeStatus =
    | OutcomeExpired | OutcomeInvalidated | OutcomeStopped | OutcomeStoppedAfterTp1
    | OutcomeTp2 | OutcomeAmbiguous | OutcomeOpen

  /** Times are whole minutes, like the candles'. */
  datatype Outcome = Outcome(
    sequence: nat, symbol: string, direction: Direction, status: OutcomeStatus,
    enteredAt: Option<int>, resolvedAt: Option<int>, pnl: real, rMultiple: real, fees: real, ambiguous: bool)

  function FeeRate(p: TradePlan): real {
    if p.notional > 0.0 then p.entryFee / p.notional else 0.0
  }

  /** No outcome formula divides by zero. */
  predicate Resolvable(p: TradePlan) {
    p.riskAmount != 0.0 && FeeRate(p) != 1.0 && FeeRate(p) != -1.0
  }

  function BreakevenOf(d: Direction, p: TradePlan): real
    requires Resolvable(p)
  {
    if d == Long then p.plannedEntry * (1.0 + FeeRate(p)) / (1.0 - FeeRate(p))
    else p.plannedEntry * (1.0 - FeeRate(p)) / (1.0 + FeeRate(p))
  }

  predicate ReachesStop(d: Direction, stop: real, c: Candle1m) {
    if d == Long then c.lowPrice <= stop else c.highPrice >= stop
  }

  predicate ReachesTarget(d: Direction, target: real, c: Candle1m) {
    if d == Long then c.highPrice >= target else c.lowPrice <= target
  }

  predicate ReachesEntry(p: TradePlan, c: Candle1m) {
    c.lowPrice <= p.entryUpper && c.highPrice >= p.entryLower
  }

  predicate GappedBeyondStop(d: Direction, p: TradePlan, openPrice: real) {
    if d == Long then openPrice < p.stopLoss else openPrice > p.stopLoss
  }

  // ---------- outcomes ----------

  function FlatOutcome(n: nat, c: Candidate, status: OutcomeStatus, resolvedAt: Option<int>, enteredAt: Option<int>,
                       ambiguous: bool): Outcome {
    Outcome(n, c.symbol, c.direction, status, enteredAt, resolvedAt, 0.0, 0.0, 0.0, ambiguous)
  }

  function TwoExitFees(p: TradePlan, second: real): real {
    p.entryFee + p.quantity / 2.0 * p.takeProfit1 * FeeRate(p) + p.quantity / 2.0 * second * FeeRate(p)
  }

  /** Half the position out at the first target, the other half at a second price. */
  function TwoExitPnl(d: Direction, p: TradePlan, second: real): real {
    var sign := if d == Long then 1.0 else -1.0;
    p.quantity / 2.0 * ((p.takeProfit1 - p.plannedEntry) * sign + (second - p.plannedEntry) * sign) - TwoExitFees(p,
      second)
  }

  function FullStopFees(p: TradePlan): real {
    p.entryFee + p.quantity * p.stopLoss * FeeRate(p)
  }

  function Booking(n: nat, c: Candidate, status: OutcomeStatus, enteredAt: int, resolvedAt: int, pnl: real, fees: real,
                   ambiguous: bool): Outcome
    requires c.plan.Some? && c.plan.value.riskAmount != 0.0
  {
    Outcome(n, c.symbol, c.direction, status, Some(enteredAt), Some(resolvedAt), pnl, pnl / c.plan.value.riskAmount,
      fees, ambiguous)
  }

  function StoppedOutcome(n: nat, c: Candidate, enteredAt: int, resolvedAt: int, ambiguous: bool,
                          afterTp1: bool): Outcome
    requires c.plan.Some? && Resolvable(c.plan.value)
  {
    var p := c.plan.value;
    if afterTp1 && !ambiguous then
      var stop := BreakevenOf(c.direction, p);
      Booking(n, c, OutcomeStoppedAfterTp1, enteredAt, resolvedAt, TwoExitPnl(c.direction, p, stop),
        TwoExitFees(p, stop), false)
    else
      Booking(n, c, if ambiguous then OutcomeAmbiguous else OutcomeStopped, enteredAt, resolvedAt, -p.lossAtStop,
        FullStopFees(p), ambiguous)
  }

  function TargetOutcome(n: nat, c: Candidate, enteredAt: int, resolvedAt: int): Outcome
    requires c.plan.Some? && Resolvable(c.plan.value)
  {
    var p := c.plan.value;
    Booking(n, c, OutcomeTp2, enteredAt, resolvedAt, TwoExitPnl(c.direction, p, p.takeProfit2),
      TwoExitFees(p, p.takeProfit2), false)
  }

  // ---------- one candle ----------

  datatype Phase = Waiting | Holding(enteredAt: int, tp1: bool)

  datatype Verdict = Continue(phase: Phase) | Done(outcome: Outcome)

  function StopIn(c: Candidate, tp1: bool): real
    requires c.plan.Some? && Resolvable(c.plan.value)
  {
    if tp1 then BreakevenOf(c.direction, c.plan.value) else c.plan.value.stopLoss
  }

  function JudgeWaiting(n: nat, c: Candidate, k: Candle1m): Verdict
    requires c.plan.Some? && Resolvable(c.plan.value)
  {
    var p, end := c.plan.value, k.openMinute + 1;
    if k.openMinute >= c.expiresAt then Done(FlatOutcome(n, c, OutcomeExpired, Some(c.expiresAt), None, false))
    else if GappedBeyondStop(c.direction, p, k.openPrice)
      then Done(FlatOutcome(n, c, OutcomeInvalidated, Some(k.openMinute), None, false))
    else if !ReachesEntry(p, k) then Continue(Waiting)
    else if ReachesStop(c.direction, p.stopLoss, k) then Done(StoppedOutcome(n, c, k.openMinute, end, true, false))
    else if ReachesTarget(c.direction, p.takeProfit1, k) then
      Done(FlatOutcome(n, c, OutcomeAmbiguous, Some(end), Some(k.openMinute), true))
    else Continue(Holding(k.openMinute, false))
  }

  function JudgeHolding(n: nat, c: Candidate, enteredAt: int, tp1: bool, k: Candle1m): Verdict
    requires c.plan.Some? && Resolvable(c.plan.value)
  {
    var p, end := c.plan.value, k.openMinute + 1;
    var stopTouched := ReachesStop(c.direction, StopIn(c, tp1), k);
    var tp1Touched := !tp1 && ReachesTarget(c.direction, p.takeProfit1, k);
    var tp2Touched := ReachesTarget(c.direction, p.takeProfit2, k);
    if stopTouched then Done(StoppedOutcome(n, c, enteredAt, end, tp1Touched || tp2Touched, tp1))
    else if tp2Touched then Done(TargetOutcome(n, c, enteredAt, end))
    else Continue(Holding(enteredAt, tp1 || tp1Touched))
  }

  function Judge(n: nat, c: Candidate, phase: Phase, k: Candle1m): Verdict
    requires c.plan.Some? && Resolvable(c.plan.value)
  {
    if phase == Waiting then JudgeWaiting(n, c, k) else JudgeHolding(n, c, phase.enteredAt, phase.tp1, k)
  }

  function OpenOutcome(n: nat, c: Candidate, phase: Phase): Outcome {
    FlatOutcome(n, c, OutcomeOpen, None, if phase == Waiting then None else Some(phase.enteredAt), false)
  }

  function ResolveFrom(n: nat, c: Candidate, phase: Phase, rows: seq<MarketRow>): Outcome
    requires c.plan.Some? && Resolvable(c.plan.value)
    decreases |rows|
  {
    if rows == [] then OpenOutcome(n, c, phase)
    else
      match Judge(n, c, phase, rows[0].candle)
      case Continue(next) => ResolveFrom(n, c, next, rows[1..])
      case Done(outcome) => outcome
  }

  /** The rows a candidate is resolved on. */
  function Concerns(c: Candidate): MarketRow -> bool {
    (r: MarketRow) => r.candle.symbol == c.symbol && r.candle.openMinute >= c.analyzedAt
  }

  function OutcomeOf(n: nat, c: Candidate, rows: seq<MarketRow>): Outcome
    requires c.plan.Some? && Resolvable(c.plan.value)
  {
    ResolveFrom(n, c, Waiting, Filter(Concerns(c), rows))
  }

  /** None stands for the error raised when the candidate was not accepted or has no plan. */
  method ResolveCandidate(n: nat, c: Candidate, rows: seq<MarketRow>) returns (r: Option<Outcome>)
    requires c.plan.Some? ==> Resolvable(c.plan.value)
    ensures r == if c.accepted && c.plan.Some? then Some(OutcomeOf(n, c, rows)) else None
  {
    hide StoppedOutcome, TargetOutcome, FlatOutcome, BreakevenOf, ReachesStop, ReachesTarget, ReachesEntry,
      GappedBeyondStop;
    if !c.accepted || c.plan.None? {
      return None;
    }
    var p, future := c.plan.value, Filter(Concerns(c), rows);
    var enteredAt: Option<int>, tp1Reached, currentStop := None, false, p.stopLoss;
    for i := 0 to |future|
      invariant currentStop == StopIn(c, tp1Reached)
      invariant enteredAt.None? ==> !tp1Reached
      invariant OutcomeOf(n, c, rows)
                == ResolveFrom(n, c, if enteredAt.None? then Waiting
                  else Holding(enteredAt.value, tp1Reached), future[i..])
    {
      var k := future[i].candle;
      assert future[i..][0] == future[i] && future[i..][1..] == future[i + 1..];
      var end := k.openMinute + 1;
      if enteredAt.None? {
        if k.openMinute >= c.expiresAt {
          return Some(FlatOutcome(n, c, OutcomeExpired, Some(c.expiresAt), None, false));
        }
        if GappedBeyondStop(c.direction, p, k.openPrice) {
          return Some(FlatOutcome(n, c, OutcomeInvalidated, Some(k.openMinute), None, false));
        }
        if !ReachesEntry(p, k) {
          continue;
        }
        enteredAt := Some(k.openMinute);
        if ReachesStop(c.direction, currentStop, k) {
          return Some(StoppedOutcome(n, c, k.openMinute, end, true, false));
        }
        if ReachesTarget(c.direction, p.takeProfit1, k) {
          return Some(FlatOutcome(n, c, OutcomeAmbiguous, Some(end), enteredAt, true));
        }
        continue;
      }
      var stopTouched := ReachesStop(c.direction, currentStop, k);
      var tp1Touched := !tp1Reached && ReachesTarget(c.direction, p.takeProfit1, k);
      var tp2Touched := ReachesTarget(c.direction, p.takeProfit2, k);
      if stopTouched && (tp1Touched || tp2Touched) {
        return Some(StoppedOutcome(n, c, enteredAt.value, end, true, tp1Reached));
      }
      if stopTouched {
        return Some(StoppedOutcome(n, c, enteredAt.value, end, false, tp1Reached));
      }
      if tp2Touched {
        return Some(TargetOutcome(n, c, enteredAt.value, end));
      }
      if tp1Touched {
        tp1Reached := true;
        currentStop := BreakevenOf(c.direction, p);
      }
    }
    r := Some(OpenOutcome(n, c, if enteredAt.None? then Waiting else Holding(enteredAt.value, tp1Reached)));
  }

  /** An ambiguous outcome never counts as a gain: it is resolved stop-first or at zero. */
  lemma {:induction false} AmbiguousNeverGains(n: nat, c: Candidate, phase: Phase, rows: seq<MarketRow>)
    requires c.plan.Some? && Resolvable(c.plan.value) && c.plan.value.lossAtStop >= 0.0
    ensures var o := ResolveFrom(n, c, phase, rows);
            && (o.ambiguous <==> o.status == OutcomeAmbiguous)
            && (o.ambiguous ==> o.pnl == 0.0 || o.pnl == -c.plan.value.lossAtStop) && (o.ambiguous ==> o.pnl <= 0.0)
    decreases |rows|
  {
    hide BreakevenOf, TwoExitPnl, TwoExitFees, FullStopFees, ReachesStop, ReachesTarget;
    if rows != [] {
      match Judge(n, c, phase, rows[0].candle)
      case Continue(next) => AmbiguousNeverGains(n, c, next, rows[1..]);
      case Done(o) =>
    }
  }

  // ---------- resolved stays resolved ----------

  lemma JudgedIsResolved(n: nat, c: Candidate, phase: Phase, k: Candle1m)
    requires c.plan.Some? && Resolvable(c.plan.value) && Judge(n, c, phase, k).Done?
    ensures var o := Judge(n, c, phase, k).outcome;
            && o.status != OutcomeOpen
            && (o.status == OutcomeExpired ==>
                  phase == Waiting && o.resolvedAt == Some(c.expiresAt) && k.openMinute >= c.expiresAt)
            && (o.status == OutcomeInvalidated ==> o.resolvedAt == Some(k.openMinute))
            && (o.status !in {OutcomeExpired, OutcomeInvalidated} ==> o.resolvedAt == Some(k.openMinute + 1))
  {
  }

  lemma {:induction false} LaterRowsChangeNothing(n: nat, c: Candidate, phase: Phase, a: seq<MarketRow>,
                                                  b: seq<MarketRow>)
    requires c.plan.Some? && Resolvable(c.plan.value)
    requires ResolveFrom(n, c, phase, a).status != OutcomeOpen
    ensures ResolveFrom(n, c, phase, a + b) == ResolveFrom(n, c, phase, a)
    decreases |a|
  {
    hide Judge, Resolvable;
    if a != [] {
      assert (a + b)[0] == a[0] && (a + b)[1..] == a[1..] + b;
      if Judge(n, c, phase, a[0].candle).Continue? {
        LaterRowsChangeNothing(n, c, Judge(n, c, phase, a[0].candle).phase, a[1..], b);
      }
    }
  }

  /** A row at or after the expiry has been seen. */
  predicate ExpirySeen(c: Candidate, rows: seq<MarketRow>) {
    exists i :: 0 <= i < |rows| && rows[i].candle.openMinute >= c.expiresAt
  }

  /**
   * When a resolved outcome is known from the rows closed by T: a fill is dated at the close of its deciding candle, an
   * invalidation at the open of it, and an expiry at the expiry, however late the row that shows it.
   */
  predicate KnownBy(c: Candidate, o: Outcome, known: seq<MarketRow>, T: int) {
    match o.status
    case OutcomeOpen => false
    case OutcomeExpired => ExpirySeen(c, known)
    case OutcomeInvalidated => o.resolvedAt.Some? && o.resolvedAt.value + 1 <= T
    case _ => o.resolvedAt.Some? && o.resolvedAt.value <= T
  }

  predicate AllClosedBy(rows: seq<MarketRow>, T: int) {
    forall i :: 0 <= i < |rows| ==> rows[i].candle.openMinute + 1 <= T
  }

  predicate AllClosedAfter(rows: seq<MarketRow>, T: int) {
    forall i :: 0 <= i < |rows| ==> rows[i].candle.openMinute + 1 > T
  }

  /** An outcome decided only by later rows is not known by T. */
  lemma {:induction false} LaterIsUnknown(n: nat, c: Candidate, phase: Phase, b: seq<MarketRow>, known: seq<MarketRow>,
                                          T: int)
    requires c.plan.Some? && Resolvable(c.plan.value) && AllClosedAfter(b, T)
    requires phase == Waiting ==> !ExpirySeen(c, known)
    ensures !KnownBy(c, ResolveFrom(n, c, phase, b), known, T)
    decreases |b|
  {
    hide Judge, Resolvable, ExpirySeen;
    if b != [] {
      var v := Judge(n, c, phase, b[0].candle);
      if v.Done? {
        JudgedIsResolved(n, c, phase, b[0].candle);
      } else {
        EnteredStays(n, c, phase, b[0].candle);
        LaterIsUnknown(n, c, v.phase, b[1..], known, T);
      }
    }
  }

  lemma EnteredStays(n: nat, c: Candidate, phase: Phase, k: Candle1m)
    requires c.plan.Some? && Resolvable(c.plan.value) && Judge(n, c, phase, k).Continue?
    ensures Judge(n, c, phase, k).phase == Waiting ==> phase == Waiting && k.openMinute < c.expiresAt
  {
  }

  /**
   * With `a` closed by T and `b` later: the rows of `a` alone settle the candidate if and only if the outcome of all
   * rows is known by T.
   */
  lemma {:induction false} SettledIff(n: nat, c: Candidate, phase: Phase, a: seq<MarketRow>, b: seq<MarketRow>,
                                      seen: seq<MarketRow>, T: int)
    requires c.plan.Some? && Resolvable(c.plan.value) && AllClosedBy(a, T) && AllClosedAfter(b, T)
    requires phase == Waiting ==> !ExpirySeen(c, seen)
    ensures ResolveFrom(n, c, phase, a).status != OutcomeOpen <==>
              KnownBy(c, ResolveFrom(n, c, phase, a + b), seen + a, T)
    decreases |a|
  {
    hide Judge, Resolvable;
    if a == [] {
      assert a + b == b && seen + a == seen;
      LaterIsUnknown(n, c, phase, b, seen, T);
    } else {
      assert (a + b)[0] == a[0] && (a + b)[1..] == a[1..] + b;
      assert seen + a == (seen + [a[0]]) + a[1..];
      var v := Judge(n, c, phase, a[0].candle);
      if v.Done? {
        JudgedIsResolved(n, c, phase, a[0].candle);
        assert (seen + a)[|seen|] == a[0];
      } else {
        EnteredStays(n, c, phase, a[0].candle);
        SettledIff(n, c, v.phase, a[1..], b, seen + [a[0]], T);
      }
    }
  }
}
