/** The publication policy: a decision from the candidate and the signals observed so far. */
module SignalPolicy {
  import opened Wrappers
  import opened Sequences
  import opened MarketModels
  import opened Lifecycle
  import opened StateMachine

  datatype PolicyConfig = PolicyConfig(
    cooldownMinutes: int, maximumActive: int, maximumPerHour: int,
    burstWindowMinutes: int, burstMaximum: int, pauseOnAbnormalBtc: bool)

  predicate ValidConfig(c: PolicyConfig) {
    c.cooldownMinutes >= 0 && c.maximumActive >= 1 && c.maximumPerHour >= 1
    && c.burstWindowMinutes >= 1 && c.burstMaximum >= 1
  }

  datatype Observation = Observation(symbol: string, status: SignalStatus, createdAt: int)

  datatype PublicationCandidate = PublicationCandidate(
    candidateId: int, symbol: string, accepted: bool, plan: Option<Terms>, expiresAt: int, abnormalBtc: bool)

  datatype Rejection =
    | CandidateNotAccepted | CandidateExpired | BtcCircuitBreaker | ActiveSignalExists | SymbolCooldown
    | PortfolioActiveLimit | PortfolioHourlyLimit | PortfolioBurstLimit

  const HOUR := 60 * MINUTE

  predicate Published(status: SignalStatus) {
    ActiveStatus(status) || Terminal(status)
  }

  function PublishedAfter(time: int): Observation -> bool {
    (o: Observation) => Published(o.status) && o.createdAt > time
  }

  function IsActive(): Observation -> bool {
    (o: Observation) => ActiveStatus(o.status)
  }

  predicate HasActive(seen: seq<Observation>, symbol: string) {
    exists o :: o in seen && ActiveStatus(o.status) && o.symbol == symbol
  }

  predicate PublishedRecently(seen: seq<Observation>, symbol: string, after: int) {
    exists o :: o in seen && Published(o.status) && o.symbol == symbol && o.createdAt > after
  }

  /**
   * None allows the publication; otherwise the first failing check: candidate, expiry, BTC breaker, active signal and
   * cooldown of the symbol, then the active, hourly and burst limits of the portfolio.
   */
  function EvaluatePublication(c: PublicationCandidate, seen: seq<Observation>, now: int,
                               config: PolicyConfig): Option<Rejection> {
    if !c.accepted || c.plan.None? then Some(CandidateNotAccepted)
    else if c.expiresAt <= now then Some(CandidateExpired)
    else if config.pauseOnAbnormalBtc && c.abnormalBtc then Some(BtcCircuitBreaker)
    else if HasActive(seen, c.symbol) then Some(ActiveSignalExists)
    else if PublishedRecently(seen, c.symbol, now - config.cooldownMinutes * MINUTE) then Some(SymbolCooldown)
    else if |Filter(IsActive(), seen)| >= config.maximumActive then Some(PortfolioActiveLimit)
    else if |Filter(PublishedAfter(now - HOUR), seen)| >= config.maximumPerHour then Some(PortfolioHourlyLimit)
    else if |Filter(PublishedAfter(now - config.burstWindowMinutes * MINUTE), seen)| >= config.burstMaximum
    then Some(PortfolioBurstLimit)
    else None
  }

  /** The oldest creation time the database still loads for signals that are no longer active. */
  function Earliest(now: int, config: PolicyConfig): int {
    var longest := if 60 < config.cooldownMinutes then config.cooldownMinutes else 60;
    now - (if longest < config.burstWindowMinutes then config.burstWindowMinutes else longest) * MINUTE
  }

  function Loaded(now: int, config: PolicyConfig): Observation -> bool {
    (o: Observation) => ActiveStatus(o.status) || o.createdAt > Earliest(now, config)
  }

  lemma PrunedSightings(seen: seq<Observation>, symbol: string, now: int, config: PolicyConfig)
    ensures HasActive(Filter(Loaded(now, config), seen), symbol) == HasActive(seen, symbol)
    ensures PublishedRecently(Filter(Loaded(now, config), seen), symbol, now - config.cooldownMinutes * MINUTE)
            == PublishedRecently(seen, symbol, now - config.cooldownMinutes * MINUTE)
  {
    var kept := Filter(Loaded(now, config), seen);
    if HasActive(seen, symbol) {
      var o :| o in seen && ActiveStatus(o.status) && o.symbol == symbol;
      assert o in kept;
    }
    var after := now - config.cooldownMinutes * MINUTE;
    if PublishedRecently(seen, symbol, after) {
      var o :| o in seen && Published(o.status) && o.symbol == symbol && o.createdAt > after;
      assert o in kept;
    }
  }

  /** The pruned observations always give the decision of the full history. */
  lemma PrunedDecision(c: PublicationCandidate, seen: seq<Observation>, now: int, config: PolicyConfig)
    ensures EvaluatePublication(c, Filter(Loaded(now, config), seen), now, config)
            == EvaluatePublication(c, seen, now, config)
  {
    hide HasActive, PublishedRecently, Filter;
    PrunedSightings(seen, c.symbol, now, config);
    FilterNarrows(IsActive(), Loaded(now, config), seen);
    FilterNarrows(PublishedAfter(now - HOUR), Loaded(now, config), seen);
    FilterNarrows(PublishedAfter(now - config.burstWindowMinutes * MINUTE), Loaded(now, config), seen);
  }

  // ---------- the limits over a whole history ----------

  function PublishedWithin(end: int, width: int): Observation -> bool {
    (o: Observation) => Published(o.status) && end - width < o.createdAt <= end
  }

  /** Publications in the window of this width that ends at `end`. */
  function WindowCount(seen: seq<Observation>, end: int, width: int): nat {
    |Filter(PublishedWithin(end, width), seen)|
  }

  ghost predicate OneActivePerSymbol(seen: seq<Observation>) {
    forall i, j :: 0 <= i < j < |seen| && ActiveStatus(seen[i].status) && ActiveStatus(seen[j].status) ==>
      seen[i].symbol != seen[j].symbol
  }

  ghost predicate CooldownKept(seen: seq<Observation>, cooldown: int) {
    forall i, j | 0 <= i < j < |seen| && Published(seen[i].status) && Published(seen[j].status) ::
      seen[i].symbol == seen[j].symbol ==> seen[i].createdAt + cooldown <= seen[j].createdAt
  }

  ghost predicate EveryWindow(seen: seq<Observation>, width: int, limit: int) {
    forall end :: WindowCount(seen, end, width) <= limit
  }

  ghost predicate WithinLimits(seen: seq<Observation>, config: PolicyConfig) {
    && OneActivePerSymbol(seen)
    && CooldownKept(seen, config.cooldownMinutes * MINUTE)
    && |Filter(IsActive(), seen)| <= config.maximumActive
    && EveryWindow(seen, HOUR, config.maximumPerHour)
    && EveryWindow(seen, config.burstWindowMinutes * MINUTE, config.burstMaximum)
  }

  ghost predicate NoneAfter(seen: seq<Observation>, now: int) {
    forall o :: o in seen ==> o.createdAt <= now
  }

  /** One more publication keeps a window within its limit when the policy counted fewer than the limit. */
  lemma WindowTakesOneMore(seen: seq<Observation>, o: Observation, end: int, width: int, limit: int)
    requires NoneAfter(seen, o.createdAt) && WindowCount(seen, end, width) <= limit
    requires Published(o.status) ==> |Filter(PublishedAfter(o.createdAt - width), seen)| < limit
    ensures WindowCount(seen + [o], end, width) <= limit
  {
    FilterConcat(PublishedWithin(end, width), seen, [o]);
    if o.createdAt <= end {
      FilterShrinks(PublishedWithin(end, width), PublishedAfter(o.createdAt - width), seen);
    }
  }

  lemma WindowsTakeOneMore(seen: seq<Observation>, o: Observation, width: int, limit: int)
    requires NoneAfter(seen, o.createdAt) && EveryWindow(seen, width, limit)
    requires Published(o.status) ==> |Filter(PublishedAfter(o.createdAt - width), seen)| < limit
    ensures EveryWindow(seen + [o], width, limit)
  {
    forall end ensures WindowCount(seen + [o], end, width) <= limit {
      WindowTakesOneMore(seen, o, end, width, limit);
    }
  }

  lemma SymbolTakesOneMore(seen: seq<Observation>, o: Observation, cooldown: int)
    requires OneActivePerSymbol(seen) && CooldownKept(seen, cooldown)
    requires ActiveStatus(o.status) ==> !HasActive(seen, o.symbol)
    requires Published(o.status) ==> !PublishedRecently(seen, o.symbol, o.createdAt - cooldown)
    ensures OneActivePerSymbol(seen + [o]) && CooldownKept(seen + [o], cooldown)
  {
    assert forall i :: 0 <= i < |seen| ==> seen[i] in seen;
  }

  /** What the policy decides keeps every limit, for the whole history. */
  lemma DecisionKeepsLimits(c: PublicationCandidate, seen: seq<Observation>, now: int, config: PolicyConfig)
    requires WithinLimits(seen, config) && NoneAfter(seen, now)
    ensures var status := if EvaluatePublication(c, seen, now, config).None? then Preparing else Suppressed;
            var after := seen + [Observation(c.symbol, status, now)];
            WithinLimits(after, config) && NoneAfter(after, now)
  {
    hide HasActive, PublishedRecently, EveryWindow, OneActivePerSymbol, CooldownKept, Filter;
    var status := if EvaluatePublication(c, seen, now, config).None? then Preparing else Suppressed;
    var o := Observation(c.symbol, status, now);
    OneMore(IsActive(), o);
    FilterConcat(IsActive(), seen, [o]);
    WindowsTakeOneMore(seen, o, HOUR, config.maximumPerHour);
    WindowsTakeOneMore(seen, o, config.burstWindowMinutes * MINUTE, config.burstMaximum);
    SymbolTakesOneMore(seen, o, config.cooldownMinutes * MINUTE);
  }

  lemma OneMore(keep: Observation -> bool, o: Observation)
    ensures |Filter(keep, [o])| == if keep(o) then 1 else 0
  {
  }

  lemma {:induction false} FilterPointwise(p: Observation -> bool, a: seq<Observation>, b: seq<Observation>)
    requires |a| == |b| && forall i :: 0 <= i < |a| && p(b[i]) ==> p(a[i])
    ensures |Filter(p, b)| <= |Filter(p, a)|
  {
    if a != [] {
      FilterPointwise(p, a[1..], b[1..]);
    }
  }

  lemma MoveKeepsWindows(seen: seq<Observation>, after: seq<Observation>, width: int, limit: int)
    requires EveryWindow(seen, width, limit) && |after| == |seen|
    requires forall i :: 0 <= i < |seen| ==> after[i].createdAt == seen[i].createdAt
                                             && (Published(after[i].status) ==> Published(seen[i].status))
    ensures EveryWindow(after, width, limit)
  {
    forall end ensures WindowCount(after, end, width) <= limit {
      assert WindowCount(seen, end, width) <= limit;
      FilterPointwise(PublishedWithin(end, width), seen, after);
    }
  }

  /** A status change of a published signal never breaks a limit. */
  lemma MoveKeepsLimits(seen: seq<Observation>, id: nat, target: SignalStatus, config: PolicyConfig)
    requires WithinLimits(seen, config) && id < |seen| && target in SignalTransitions(seen[id].status)
    ensures WithinLimits(seen[id := seen[id].(status := target)], config)
  {
    hide EveryWindow, Filter;
    var after := seen[id := seen[id].(status := target)];
    TablesAgree(seen[id].status, target);
    hide SignalTransitions;
    FilterPointwise(IsActive(), seen, after);
    MoveKeepsWindows(seen, after, HOUR, config.maximumPerHour);
    MoveKeepsWindows(seen, after, config.burstWindowMinutes * MINUTE, config.burstMaximum);
  }
}
