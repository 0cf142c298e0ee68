/** Profit and drawdown of a replay. */
module Reporting {
  import opened Wrappers
  import opened Sequences
  import opened Evaluator
  import opened ReplayLifecycle
  import opened ReplayRunner

  /** Scores below the minimum, from it up to the strong score, and from the strong score on. */
  datatype ScoreBand = BelowMinimum | Standard | Strong

  datatype Summary = Summary(
    candidateCount: nat, acceptedCount: nat, suppressedCount: nat,
    outcomeCounts: map<OutcomeStatus, nat>, scoreBands: map<ScoreBand, nat>,
    netProfit: real, profitFactor: Option<real>, maximumDrawdown: real, maximumDrawdownFraction: real,
      ambiguityCount: nat)

  /** Resolution order: unresolved outcomes last, candidate order among equals. */
  function ResolutionOrder(): (Outcome, Outcome) -> bool {
    (a: Outcome, b: Outcome) =>
      if a.resolvedAt == b.resolvedAt then a.sequence <= b.sequence
      else a.resolvedAt.Some? && (b.resolvedAt.None? || a.resolvedAt.value < b.resolvedAt.value)
  }

  function TotalPnl(s: seq<Outcome>): real {
    if s == [] then 0.0 else s[0].pnl + TotalPnl(s[1..])
  }

  function Gaining(): Outcome -> bool {
    (o: Outcome) => o.pnl > 0.0
  }

  function Losing(): Outcome -> bool {
    (o: Outcome) => o.pnl < 0.0
  }

  function IsAmbiguous(): Outcome -> bool {
    (o: Outcome) => o.ambiguous
  }

  /** The balance after the first k outcomes, the starting balance included. */
  function Balance(start: real, s: seq<Outcome>, k: nat): real
    requires k <= |s|
  {
    if k == 0 then start else Balance(start, s, k - 1) + s[k - 1].pnl
  }

  /** The largest drop from any earlier balance to a later one, by comparing all pairs. */
  predicate LargestDrop(drop: real, start: real, s: seq<Outcome>, n: nat)
    requires n <= |s|
  {
    && (forall i, j :: 0 <= i <= j <= n ==> Balance(start, s, i) - Balance(start, s, j) <= drop)
    && (exists i, j :: 0 <= i <= j <= n && Balance(start, s, i) - Balance(start, s, j) == drop)
  }

  /** The highest balance so far. */
  predicate RunningPeak(peak: real, start: real, s: seq<Outcome>, n: nat)
    requires n <= |s|
  {
    && (forall i :: 0 <= i <= n ==> Balance(start, s, i) <= peak)
    && (exists i :: 0 <= i <= n && Balance(start, s, i) == peak)
  }

  function Higher(a: real, b: real): real {
    if a < b then b else a
  }

  function PeakAt(start: real, s: seq<Outcome>, n: nat): (peak: real)
    requires n <= |s|
    ensures RunningPeak(peak, start, s, n)
  {
    if n == 0 then
      assert Balance(start, s, 0) == start;
      start
    else
      var before, now := PeakAt(start, s, n - 1), Balance(start, s, n);
      assert exists i :: 0 <= i <= n - 1 && Balance(start, s, i) == before;
      Higher(before, now)
  }

  function Relative(drop: real, peak: real): real
    requires peak != 0.0
  {
    drop / peak
  }

  /** The drop after k outcomes relative to the peak at that moment. */
  function DropFraction(start: real, s: seq<Outcome>, k: nat): real
    requires k <= |s|
  {
    var peak := PeakAt(start, s, k);
    if peak > 0.0 then Relative(peak - Balance(start, s, k), peak) else 0.0
  }

  predicate LargestFraction(fraction: real, start: real, s: seq<Outcome>, n: nat)
    requires n <= |s|
  {
    && (forall k :: 0 <= k <= n ==> DropFraction(start, s, k) <= fraction)
    && (exists k :: 0 <= k <= n && DropFraction(start, s, k) == fraction)
  }

  // ---------- counts ----------

  /** How often each key occurs. */
  function Counter<T(!new), K(==, !new)>(key: T -> K, s: seq<T>): (r: map<K, nat>)
    ensures forall k :: k in r <==> Filter(HasKey(key, k), s) != []
    ensures forall k :: k in r ==> r[k] == |Filter(HasKey(key, k), s)|
  {
    if s == [] then map[]
    else
      var rest, first := Counter(key, s[1..]), key(s[0]);
      rest[first := (if first in rest then rest[first] else 0) + 1]
  }

  function StatusOf(): Outcome -> OutcomeStatus {
    (o: Outcome) => o.status
  }

  function BandOf(c: StrategyConfig): ReplayCandidate -> ScoreBand {
    (r: ReplayCandidate) =>
      if r.candidate.score < c.minimumScore then BelowMinimum
      else if r.candidate.score < c.strongScore then Standard
      else Strong
  }

  function IsAccepted(): ReplayCandidate -> bool {
    (r: ReplayCandidate) => r.candidate.accepted
  }

  function IsSuppressed(): ReplayCandidate -> bool {
    (r: ReplayCandidate) => !r.candidate.accepted
  }

  function CountOf<K(==)>(counts: map<K, nat>, k: K): nat {
    if k in counts then counts[k] else 0
  }

  /** Every candidate is accepted or suppressed and lies in one band. */
  lemma {:induction false} CandidatesAddUp(found: seq<ReplayCandidate>, c: StrategyConfig)
    ensures |Filter(IsAccepted(), found)| + |Filter(IsSuppressed(), found)| == |found|
    ensures |Filter(HasKey(BandOf(c), BelowMinimum), found)| + |Filter(HasKey(BandOf(c), Standard), found)|
            + |Filter(HasKey(BandOf(c), Strong), found)| == |found|
  {
    if found != [] {
      CandidatesAddUp(found[1..], c);
    }
  }

  // ---------- sums ----------

  lemma {:induction false} InsertPnl(le: (Outcome, Outcome) -> bool, x: Outcome, s: seq<Outcome>)
    ensures TotalPnl(Insert(le, x, s)) == x.pnl + TotalPnl(s)
  {
    if s == [] {
      assert [x][1..] == [];
    } else if le(x, s[0]) {
      assert ([x] + s)[1..] == s;
    } else {
      InsertPnl(le, x, s[1..]);
      assert ([s[0]] + Insert(le, x, s[1..]))[1..] == Insert(le, x, s[1..]);
    }
  }

  /** Ordering the outcomes does not change their total. */
  lemma {:induction false} SortPnl(le: (Outcome, Outcome) -> bool, s: seq<Outcome>)
    ensures TotalPnl(Sort(le, s)) == TotalPnl(s)
  {
    if s != [] {
      SortPnl(le, s[1..]);
      InsertPnl(le, s[0], Sort(le, s[1..]));
    }
  }

  lemma {:induction false} PnlMore(s: seq<Outcome>, x: Outcome)
    ensures TotalPnl(s + [x]) == TotalPnl(s) + x.pnl
  {
    if s == [] {
      assert [] + [x] == [x] && [x][1..] == [];
    } else {
      PnlMore(s[1..], x);
      assert (s + [x])[1..] == s[1..] + [x];
    }
  }

  lemma {:induction false} BalanceIsTotal(start: real, s: seq<Outcome>, k: nat)
    requires k <= |s|
    ensures Balance(start, s, k) == start + TotalPnl(s[..k])
  {
    if k == 0 {
      assert s[..0] == [];
    } else {
      BalanceIsTotal(start, s, k - 1);
      assert s[..k] == s[..k - 1] + [s[k - 1]];
      PnlMore(s[..k - 1], s[k - 1]);
    }
  }

  /** The balance after the last resolved outcome is the reference balance plus the net profit, whatever the order. */
  lemma FinalBalance(start: real, outcomes: seq<Outcome>)
    ensures var ordered := Sort(ResolutionOrder(), outcomes);
            Balance(start, ordered, |ordered|) == start + TotalPnl(outcomes)
  {
    var ordered := Sort(ResolutionOrder(), outcomes);
    BalanceIsTotal(start, ordered, |ordered|);
    assert ordered[..|ordered|] == ordered;
    SortPnl(ResolutionOrder(), outcomes);
  }

  // ---------- the loop ----------

  lemma PeakGrows(peak: real, start: real, s: seq<Outcome>, n: nat)
    requires n < |s| && RunningPeak(peak, start, s, n)
    ensures RunningPeak(Higher(peak, Balance(start, s, n + 1)), start, s, n + 1)
  {
    hide Balance;
    var i :| 0 <= i <= n && Balance(start, s, i) == peak;
    var h := if peak < Balance(start, s, n + 1) then n + 1 else i;
    assert Balance(start, s, h) == Higher(peak, Balance(start, s, n + 1));
  }

  /** The next balance can only open a larger drop from the running peak. */
  lemma DropGrows(drop: real, top: real, start: real, s: seq<Outcome>, n: nat)
    requires n < |s| && LargestDrop(drop, start, s, n) && RunningPeak(top, start, s, n + 1)
    ensures LargestDrop(Higher(drop, top - Balance(start, s, n + 1)), start, s, n + 1)
  {
    hide Balance;
    var last := Balance(start, s, n + 1);
    var next := Higher(drop, top - last);
    forall i, j | 0 <= i <= j <= n + 1 ensures Balance(start, s, i) - Balance(start, s, j) <= next {
      if j <= n {
        assert Balance(start, s, i) - Balance(start, s, j) <= drop;
      } else {
        assert Balance(start, s, i) <= top;
      }
    }
    if drop < top - last {
      var h :| 0 <= h <= n + 1 && Balance(start, s, h) == top;
      assert Balance(start, s, h) - Balance(start, s, n + 1) == next;
    } else {
      var a, b :| 0 <= a <= b <= n && Balance(start, s, a) - Balance(start, s, b) == drop;
      assert Balance(start, s, a) - Balance(start, s, b) == next;
    }
  }

  lemma PeakIsPeak(peak: real, start: real, s: seq<Outcome>, n: nat)
    requires n <= |s| && RunningPeak(peak, start, s, n)
    ensures peak == PeakAt(start, s, n)
    ensures peak > 0.0 ==> Relative(peak - Balance(start, s, n), peak) == DropFraction(start, s, n)
  {
    hide Balance;
    var other := PeakAt(start, s, n);
    var i :| 0 <= i <= n && Balance(start, s, i) == peak;
    var j :| 0 <= j <= n && Balance(start, s, j) == other;
  }

  lemma FractionGrows(fraction: real, start: real, s: seq<Outcome>, n: nat)
    requires n < |s| && LargestFraction(fraction, start, s, n)
    ensures LargestFraction(Higher(fraction, DropFraction(start, s, n + 1)), start, s, n + 1)
  {
    hide DropFraction;
    var k :| 0 <= k <= n && DropFraction(start, s, k) == fraction;
    assert DropFraction(start, s, n + 1) == DropFraction(start, s, n + 1);
  }

  /** One pass over the outcomes in resolution order. */
  method Drawdown(start: real, ordered: seq<Outcome>) returns (drop: real, fraction: real, balance: real)
    requires start > 0.0
    ensures LargestDrop(drop, start, ordered, |ordered|) && LargestFraction(fraction, start, ordered, |ordered|)
    ensures balance == Balance(start, ordered, |ordered|)
  {
    hide LargestDrop, LargestFraction, RunningPeak, DropFraction, Relative, PeakAt;
    balance := start;
    var peak := balance;
    drop, fraction := 0.0, 0.0;
    Initially(start, ordered);
    for k := 0 to |ordered|
      invariant balance == Balance(start, ordered, k) && peak >= start
      invariant RunningPeak(peak, start, ordered, k) && LargestDrop(drop, start, ordered, k)
      invariant LargestFraction(fraction, start, ordered, k)
    {
      PeakGrows(peak, start, ordered, k);
      balance := balance + ordered[k].pnl;
      peak := Higher(peak, balance);
      DropGrows(drop, peak, start, ordered, k);
      drop := Higher(drop, peak - balance);
      FractionGrows(fraction, start, ordered, k);
      PeakIsPeak(peak, start, ordered, k + 1);
      if peak > 0.0 {
        fraction := Higher(fraction, Relative(peak - balance, peak));
      }
    }
  }

  lemma Initially(start: real, s: seq<Outcome>)
    requires start > 0.0
    ensures RunningPeak(start, start, s, 0) && LargestDrop(0.0, start, s, 0) && LargestFraction(0.0, start, s, 0)
  {
    assert Balance(start, s, 0) == start;
    assert Balance(start, s, 0) - Balance(start, s, 0) == 0.0;
    assert DropFraction(start, s, 0) == 0.0;
  }

  method BuildSummary(c: StrategyConfig, found: seq<ReplayCandidate>, outcomes: seq<Outcome>) returns (r: Summary,
                      finalBalance: real)
    requires ValidStrategy(c)
    ensures r.candidateCount == |found| == r.acceptedCount + r.suppressedCount
    ensures r.acceptedCount == |Filter(IsAccepted(), found)|
    ensures forall status :: CountOf(r.outcomeCounts, status) == |Filter(HasKey(StatusOf(), status), outcomes)|
    ensures forall band :: CountOf(r.scoreBands, band) == |Filter(HasKey(BandOf(c), band), found)|
    ensures CountOf(r.scoreBands, BelowMinimum) + CountOf(r.scoreBands, Standard) + CountOf(r.scoreBands, Strong)
            == |found|
    ensures r.netProfit == TotalPnl(outcomes) && finalBalance == c.risk.referenceBalance + r.netProfit
    ensures var ordered := Sort(ResolutionOrder(), outcomes);
            && LargestDrop(r.maximumDrawdown, c.risk.referenceBalance, ordered, |ordered|)
            && LargestFraction(r.maximumDrawdownFraction, c.risk.referenceBalance, ordered, |ordered|)
    ensures var lost := -TotalPnl(Filter(Losing(), outcomes));
            r.profitFactor == if lost > 0.0 then Some(TotalPnl(Filter(Gaining(), outcomes)) / lost) else None
    ensures r.ambiguityCount == |Filter(IsAmbiguous(), outcomes)|
  {
    hide Sort, Filter, LargestDrop, LargestFraction, TotalPnl, Balance, BandOf, StatusOf;
    var ordered := Sort(ResolutionOrder(), outcomes);
    var netProfit, positives, losses := TotalPnl(outcomes), TotalPnl(Filter(Gaining(), outcomes)),
      TotalPnl(Filter(Losing(), outcomes));
    LossesNegative(outcomes);
    var negatives := if losses < 0.0 then -losses else losses;
    var factor := if negatives > 0.0 then Some(positives / negatives) else None;
    var drop, fraction;
    drop, fraction, finalBalance := Drawdown(c.risk.referenceBalance, ordered);
    FinalBalance(c.risk.referenceBalance, outcomes);
    CandidatesAddUp(found, c);
    r := Summary(|found|, |Filter(IsAccepted(), found)|, |Filter(IsSuppressed(), found)|, Counter(StatusOf(), outcomes),
      Counter(BandOf(c), found),
                 netProfit, factor, drop, fraction, |Filter(IsAmbiguous(), outcomes)|);
  }

  lemma {:induction false} LossesNegative(s: seq<Outcome>)
    ensures TotalPnl(Filter(Losing(), s)) <= 0.0
  {
    if s != [] {
      LossesNegative(s[1..]);
      var rest := Filter(Losing(), s[1..]);
      assert ([s[0]] + rest)[1..] == rest;
    }
  }
}
