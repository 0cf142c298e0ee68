/** The rows the lifecycle service keeps in memory: how they are loaded, and what they have to do with the tables. */
module TrackedSignals {
  import opened Wrappers
  import opened Sequences
  import opened MarketModels
  import opened Lifecycle
  import opened Fallback
  import opened StateMachine
  import opened SignalPolicy
  import opened SignalStore
  import opened SignalTracking

  /** A cached row: the lifecycle state, the open quantity, the last processed trade and the creation time. */
  datatype TrackedSignal =
    TrackedSignal(state: LifecycleState, remaining: real, mark: Option<TradeMark>, createdAt: int)
  {
    function CoverageAnchor(): int {
      if mark.Some? then mark.value.executedAt else createdAt
    }
  }

  function MarkOf(trade: PublicTrade): TradeMark {
    TradeMark(trade.executedAt, trade.sequence, trade.tradeId)
  }

  // ---------- loadable tables ----------

  /** A row the service can track: its formulas divide, and a waiting signal has its original stop and no charges. */
  predicate Ready(s: Store, id: nat) {
    && Trackable(s, id)
    && (s.signals[id].status == Preparing ==> s.trades[id].currentStop == s.signals[id].terms.stopLoss)
  }

  ghost predicate Loadable(s: Store) {
    forall id :: 0 <= id < |s.signals| && ActiveStatus(s.signals[id].status) ==> Ready(s, id)
  }

  /** Rows of other signals are untouched. */
  ghost predicate OthersKept(s: Store, s': Store, id: nat) {
    && |s'.signals| == |s.signals|
    && (forall other :: 0 <= other < |s.signals| && other != id ==> s'.signals[other] == s.signals[other])
    && (forall other :: other != id ==> (other in s'.trades <==> other in s.trades))
    && (forall other :: other != id && other in s.trades ==> s'.trades[other] == s.trades[other])
  }

  lemma OthersKeptTwice(s: Store, s': Store, s'': Store, id: nat)
    requires OthersKept(s, s', id) && OthersKept(s', s'', id)
    ensures OthersKept(s, s'', id)
  {
  }

  lemma StaysLoadable(s: Store, s': Store, id: nat)
    requires Loadable(s) && OthersKept(s, s', id) && id < |s.signals|
    requires ActiveStatus(s'.signals[id].status) ==> Ready(s', id)
    ensures Loadable(s')
  {
    hide Tracked, ActiveStatus;
    forall other | 0 <= other < |s'.signals| && ActiveStatus(s'.signals[other].status) ensures Ready(s', other) {
      if other != id {
        assert Ready(s, other);
      }
    }
  }

  // ---------- the cache ----------

  /** The cache never runs ahead: state and quantity are those stored, the mark is at most the stored one. */
  predicate Mirrors(s: Store, v: TrackedSignal) {
    var id := v.state.signalId;
    && Ready(s, id) && ActiveStatus(s.signals[id].status)
    && v.state == StateOf(s, id) && v.remaining == s.trades[id].remainingQuantity
    && v.createdAt == s.signals[id].createdAt
    && (v.mark.Some? ==> s.trades[id].lastTrade.Some? && MarkLe(v.mark.value, s.trades[id].lastTrade.value))
  }

  ghost predicate CacheMirrors(s: Store, cache: map<string, TrackedSignal>) {
    forall symbol :: symbol in cache ==> cache[symbol].state.symbol == symbol && Mirrors(s, cache[symbol])
  }

  lemma OthersStayMirrored(s: Store, s': Store, id: nat, cache: map<string, TrackedSignal>)
    requires CacheMirrors(s, cache) && OthersKept(s, s', id)
    ensures forall symbol :: symbol in cache && cache[symbol].state.signalId != id ==> Mirrors(s', cache[symbol])
  {
    hide Tracked, ActiveStatus, MarkLe;
  }

  lemma OneRowPerSymbol(s: Store, cache: map<string, TrackedSignal>, symbol: string)
    requires CacheMirrors(s, cache) && symbol in cache
    ensures forall other :: other in cache && other != symbol ==>
              cache[other].state.signalId != cache[symbol].state.signalId
  {
    hide Tracked, ActiveStatus, MarkLe;
  }

  lemma MirrorIsKnown(s: Store, v: TrackedSignal)
    requires Mirrors(s, v)
    ensures Trackable(s, v.state.signalId) && v.state == StateOf(s, v.state.signalId)
    ensures s.signals[v.state.signalId].status == v.state.status
    ensures !Terminal(v.state.status) && ActiveStatus(v.state.status)
  {
    hide Tracked, MarkLe;
  }

  lemma CachedIsKnown(s: Store, cache: map<string, TrackedSignal>, symbol: string)
    requires CacheMirrors(s, cache) && symbol in cache
    ensures Mirrors(s, cache[symbol]) && cache[symbol].state.symbol == symbol
    ensures var v := cache[symbol];
            && Trackable(s, v.state.signalId) && v.state == StateOf(s, v.state.signalId)
            && s.signals[v.state.signalId].status == v.state.status && !Terminal(v.state.status)
  {
    hide Mirrors;
    MirrorIsKnown(s, cache[symbol]);
  }

  lemma MarkLeReflexive(a: TradeMark)
    ensures MarkLe(a, a)
  {
    StringLeTotal(a.tradeId, a.tradeId);
  }

  // ---------- list_tracking_signals ----------

  function IsTracked(s: Store): nat -> bool {
    (id: nat) => Known(s, id) && ActiveStatus(s.signals[id].status)
  }

  function CreatedAt(s: Store, id: nat): int {
    if id < |s.signals| then s.signals[id].createdAt else 0
  }

  function LoadsBefore(s: Store): (nat, nat) -> bool {
    (a: nat, b: nat) => CreatedAt(s, a) < CreatedAt(s, b) || (CreatedAt(s, a) == CreatedAt(s, b) && a <= b)
  }

  function SignalIds(count: nat): (r: seq<nat>)
    ensures forall id: nat :: id in r <==> id < count
  {
    if count == 0 then [] else SignalIds(count - 1) + [count - 1]
  }

  /** The ids of the open signals that have a virtual trade, oldest first. */
  function TrackedIds(s: Store): (r: seq<nat>)
    ensures forall id :: id in r <==> IsTracked(s)(id)
  {
    SortMembers(LoadsBefore(s), Filter(IsTracked(s), SignalIds(|s.signals|)));
    Sort(LoadsBefore(s), Filter(IsTracked(s), SignalIds(|s.signals|)))
  }

  function LoadedRow(s: Store, id: nat): TrackedSignal
    requires Known(s, id)
  {
    TrackedSignal(StateOf(s, id), s.trades[id].remainingQuantity, s.trades[id].lastTrade, s.signals[id].createdAt)
  }

  function ListTracking(s: Store): (r: seq<TrackedSignal>)
    ensures |r| == |TrackedIds(s)|
    ensures forall i :: 0 <= i < |r| ==> Known(s, TrackedIds(s)[i]) && r[i] == LoadedRow(s, TrackedIds(s)[i])
  {
    var ids := TrackedIds(s);
    assert forall i :: 0 <= i < |ids| ==> ids[i] in ids;
    seq(|ids|, i requires 0 <= i < |ids| => LoadedRow(s, ids[i]))
  }

  /** `{item.symbol: item for item in tracking}`: of two rows with one symbol the later one stays. */
  function BySymbol(rows: seq<TrackedSignal>): (r: map<string, TrackedSignal>)
    ensures forall symbol :: symbol in r ==> r[symbol] in rows && r[symbol].state.symbol == symbol
    ensures forall row :: row in rows ==> row.state.symbol in r
  {
    if rows == [] then map[]
    else
      var last := |rows| - 1;
      assert rows == rows[..last] + [rows[last]];
      BySymbol(rows[..last])[rows[last].state.symbol := rows[last]]
  }

  function FirstOf(rows: seq<TrackedSignal>, symbol: string): (r: Option<TrackedSignal>)
    ensures r.Some? ==> r.value in rows && r.value.state.symbol == symbol
    ensures r.None? ==> forall row :: row in rows ==> row.state.symbol != symbol
  {
    if rows == [] then None
    else if rows[0].state.symbol == symbol then Some(rows[0])
    else FirstOf(rows[1..], symbol)
  }

  lemma LoadedMirrors(s: Store, row: TrackedSignal)
    requires Loadable(s) && row in ListTracking(s)
    ensures Mirrors(s, row)
  {
    hide Tracked, ActiveStatus, StringLe;
    var i :| 0 <= i < |ListTracking(s)| && ListTracking(s)[i] == row;
    var id := TrackedIds(s)[i];
    assert id in TrackedIds(s) && IsTracked(s)(id) && Ready(s, id);
    if row.mark.Some? {
      MarkLeReflexive(row.mark.value);
    }
  }

  /** The loaded cache mirrors the tables. */
  lemma LoadedCacheMirrors(s: Store)
    requires Loadable(s)
    ensures CacheMirrors(s, BySymbol(ListTracking(s)))
  {
    hide Mirrors, LoadedRow;
    var rows := ListTracking(s);
    forall symbol | symbol in BySymbol(rows) ensures Mirrors(s, BySymbol(rows)[symbol]) {
      LoadedMirrors(s, BySymbol(rows)[symbol]);
    }
  }

  /** It holds a row for every symbol with an open signal, and for no other. */
  lemma LoadedSymbols(s: Store, symbol: string)
    requires Loadable(s)
    ensures symbol in BySymbol(ListTracking(s)) <==> exists id: nat :: OpenFor(s, id, symbol)
  {
    hide Mirrors, ActiveStatus, Trackable;
    var rows := ListTracking(s);
    if symbol in BySymbol(rows) {
      var row := BySymbol(rows)[symbol];
      var i :| 0 <= i < |rows| && rows[i] == row;
      assert TrackedIds(s)[i] in TrackedIds(s);
      assert OpenFor(s, TrackedIds(s)[i], symbol);
    }
    if id: nat :| OpenFor(s, id, symbol) {
      OpenIsLoaded(s, id);
    }
  }

  predicate OpenFor(s: Store, id: nat, symbol: string) {
    id < |s.signals| && ActiveStatus(s.signals[id].status) && s.signals[id].symbol == symbol
  }

  lemma OpenIsLoaded(s: Store, id: nat)
    requires Loadable(s) && id < |s.signals| && ActiveStatus(s.signals[id].status)
    ensures Known(s, id) && LoadedRow(s, id) in ListTracking(s)
  {
    hide Tracked, ActiveStatus;
    assert Ready(s, id) && IsTracked(s)(id) && id in TrackedIds(s);
    var i :| 0 <= i < |TrackedIds(s)| && TrackedIds(s)[i] == id;
    assert ListTracking(s)[i] == LoadedRow(s, id);
  }

  /** With one open signal to a symbol, which the publication policy guarantees, the loaded row is that signal's. */
  lemma OpenSignalIsLoaded(s: Store, id: nat)
    requires Loadable(s) && id < |s.signals| && ActiveStatus(s.signals[id].status)
    requires forall other: nat :: OpenFor(s, other, s.signals[id].symbol) ==> other == id
    ensures Known(s, id) && s.signals[id].symbol in BySymbol(ListTracking(s))
    ensures BySymbol(ListTracking(s))[s.signals[id].symbol] == LoadedRow(s, id)
    ensures FirstOf(ListTracking(s), s.signals[id].symbol) == Some(LoadedRow(s, id))
  {
    hide ActiveStatus, Trackable;
    OpenIsLoaded(s, id);
    var rows, symbol := ListTracking(s), s.signals[id].symbol;
    forall row | row in rows && row.state.symbol == symbol ensures row == LoadedRow(s, id) {
      var i :| 0 <= i < |rows| && rows[i] == row;
      assert TrackedIds(s)[i] in TrackedIds(s);
      assert OpenFor(s, TrackedIds(s)[i], symbol);
    }
    assert LoadedRow(s, id).state.symbol == symbol;
  }

  // ---------- publication ----------

  predicate AllDivisible(batch: seq<PublicationCandidate>) {
    forall c :: c in batch && c.plan.Some? ==> Divisible(c.plan.value)
  }

  /** A published signal is ready to be tracked. */
  lemma PublishedIsReady(s: Store, c: PublicationCandidate, now: int)
    requires Accepted(c) && Divisible(c.plan.value)
    ensures Ready(AddSignal(s, c, true, now), |s.signals|)
    ensures WellFormedTerms(c.plan.value) ==> WellFormed(StateOf(AddSignal(s, c, true, now), |s.signals|))
  {
    hide WellFormedTerms;
  }

  /** The rows a store had before are still there. */
  ghost predicate Extends(s: Store, s': Store) {
    && s.signals <= s'.signals
    && (forall id :: id < |s.signals| ==> (id in s'.trades <==> id in s.trades))
    && (forall id :: id in s.trades && id < |s.signals| ==> s'.trades[id] == s.trades[id])
  }

  lemma {:induction false} PublishingExtends(s: Store, seen: seq<Observation>, batch: seq<PublicationCandidate>,
                                             config: PolicyConfig, now: int)
    requires Loadable(s) && AllDivisible(batch) && forall c :: c in batch ==> Accepted(c)
    ensures var s' := PublishEach(s, seen, batch, config, now); Loadable(s') && Extends(s, s')
    decreases |batch|
  {
    hide EvaluatePublication, Trackable;
    if batch != [] {
      var c := batch[0];
      assert c in batch;
      var allowed := EvaluatePublication(c, seen, now, config).None?;
      var next := AddSignal(s, c, allowed, now);
      AddedStaysLoadable(s, c, allowed, now);
      PublishingExtends(next, seen + [Observation(c.symbol, if allowed then Preparing else Suppressed, now)],
        batch[1..], config, now);
    }
  }

  lemma AddedStaysLoadable(s: Store, c: PublicationCandidate, allowed: bool, now: int)
    requires Loadable(s) && Accepted(c) && Divisible(c.plan.value)
    ensures Loadable(AddSignal(s, c, allowed, now)) && Extends(s, AddSignal(s, c, allowed, now))
  {
    hide Divisible;
    var s' := AddSignal(s, c, allowed, now);
    forall id | 0 <= id < |s'.signals| && ActiveStatus(s'.signals[id].status) ensures Ready(s', id) {
      if id < |s.signals| {
        assert Ready(s, id);
      } else {
        PublishedIsReady(s, c, now);
      }
    }
  }

  /** Publishing beside a running service: the tables stay loadable, and its cache still mirrors them. */
  lemma PublicationKeepsMirrors(s: Store, batch: seq<PublicationCandidate>, config: PolicyConfig, now: int,
                                cache: map<string, TrackedSignal>)
    requires Loadable(s) && AllDivisible(batch) && CacheMirrors(s, cache)
    ensures Loadable(Publish(s, batch, config, now)) && CacheMirrors(Publish(s, batch, config, now), cache)
  {
    hide Tracked, ActiveStatus, MarkLe;
    PublishingExtends(s, Filter(Loaded(now, config), Observe(s.signals)), Filter(IsAccepted(), batch), config, now);
  }
}
