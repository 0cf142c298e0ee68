/** Workers that claim, send and close deliveries, and may crash between any two of these. */
module NotificationProtocol {
  import opened Wrappers
  import opened SignalStore
  import opened NotificationStore

  /** What the messenger answers. Only a retryable error promises that nothing was delivered. */
  datatype SendResult = Accepted(messageId: int) | Retryable(after: int) | Permanent(reached: bool)
    | Unknown(reached: bool)

  predicate Reached(r: SendResult) {
    match r
    case Accepted(_) => true
    case Retryable(_) => false
    case Permanent(reached) => reached
    case Unknown(reached) => reached
  }

  /** What a worker has in hand: a claimed delivery, or one it has already tried to send. */
  datatype Hand = Holding(id: nat) | Tried(id: nat, result: SendResult)

  datatype Attempt = Attempt(id: nat, reached: bool)

  datatype World = World(outbox: Outbox, hands: map<nat, Hand>, log: seq<Attempt>)

  /** The delays of the retry policy; the exponent is capped below at zero. */
  function Power(n: nat): nat {
    if n == 0 then 1 else 2 * Power(n - 1)
  }

  function RetryDelay(after: int, base: nat, attempts: nat): int {
    var backoff := base * Power(if attempts == 0 then 0 else attempts - 1);
    if after < backoff then backoff else after
  }

  function CloseRow(x: Outbox, id: nat, r: SendResult, base: nat, now: int): Outbox {
    match r
    case Accepted(m) => Finish(x, id, Sent, Some(m), None, now)
    case Retryable(after) => Retry(x, id,
      RetryDelay(after, base, if id < |x.deliveries| then x.deliveries[id].attempts else 0), now)
    case Permanent(_) => Finish(x, id, Failed, None, Some(SendError), now)
    case Unknown(_) => Finish(x, id, DeliveryUnknown, None, Some(SendError), now)
  }

  datatype Step =
    | Publish(entry: OutboxEntry)
    | Configure(user: nat, settings: UserSettings)
    | Expand(userIds: seq<nat>, batch: nat, clocks: map<nat, int>, at: int)
    | ClaimBy(worker: nat, at: int)
    | SendBy(worker: nat, result: SendResult)
    | CloseBy(worker: nat, at: int)
    | Crash(worker: nat)
    | RecoverStale(cutoff: int, at: int)

  datatype Policy = Policy(maxAttempts: nat, retryBase: nat)

  function Take(w: World, s: Step, p: Policy): World {
    match s
    case Publish(entry) => w.(outbox := Enqueue(w.outbox, entry.(expanded := false)))
    case Configure(user, settings) => w.(outbox := w.outbox.(users := w.outbox.users[user := settings]))
    case Expand(userIds, batch, clocks, at) => w.(outbox := Materialize(w.outbox, userIds, batch, clocks, at).0)
    case ClaimBy(worker, at) =>
      if worker in w.hands then w
      else
        var (x, found) := Claim(w.outbox, p.maxAttempts, at);
        World(x, if found.Some? then w.hands[worker := Holding(found.value)] else w.hands, w.log)
    case SendBy(worker, result) =>
      if worker in w.hands && w.hands[worker].Holding? then
        var id := w.hands[worker].id;
        World(w.outbox, w.hands[worker := Tried(id, result)], w.log + [Attempt(id, Reached(result))])
      else w
    case CloseBy(worker, at) =>
      if worker in w.hands && w.hands[worker].Tried? then
        World(CloseRow(w.outbox, w.hands[worker].id, w.hands[worker].result, p.retryBase, at), w.hands - {worker},
          w.log)
      else w
    case Crash(worker) => w.(hands := w.hands - {worker})
    case RecoverStale(cutoff, at) => w.(outbox := Recover(w.outbox, cutoff, at))
  }

  const EMPTY := World(Outbox([], map[], []), map[], [])

  function Run(steps: seq<Step>, p: Policy): World {
    if steps == [] then EMPTY else Take(Run(steps[..|steps| - 1], p), steps[|steps| - 1], p)
  }

  // ---------- counting ----------

  function Sends(log: seq<Attempt>, id: nat): nat {
    if log == [] then 0 else Sends(log[..|log| - 1], id) + if log[|log| - 1].id == id then 1 else 0
  }

  /** How many messages of a delivery row reached its user. */
  function Messages(log: seq<Attempt>, id: nat): nat {
    if log == [] then 0 else Messages(log[..|log| - 1], id) + if log[|log| - 1] == Attempt(id, true) then 1 else 0
  }

  lemma LogMore(log: seq<Attempt>, a: Attempt, id: nat)
    ensures Sends(log + [a], id) == Sends(log, id) + if a.id == id then 1 else 0
    ensures Messages(log + [a], id) == Messages(log, id) + if a == Attempt(id, true) then 1 else 0
  {
    assert (log + [a])[..|log|] == log;
  }

  // ---------- the invariant ----------

  ghost predicate UniqueRows(x: Outbox) {
    && (forall i, j :: 0 <= i < j < |x.entries| ==> x.entries[i].key != x.entries[j].key)
    && (forall i, j :: 0 <= i < j < |x.deliveries| ==>
          x.deliveries[i].outboxId != x.deliveries[j].outboxId || x.deliveries[i].userId != x.deliveries[j].userId)
    && (forall i :: 0 <= i < |x.deliveries| ==> x.deliveries[i].outboxId < |x.entries|)
  }

  /** No row is held twice, and a held row is being sent or has been given up as stale. */
  ghost predicate HandsApart(w: World) {
    && (forall a :: a in w.hands ==>
          w.hands[a].id < |w.outbox.deliveries|
          && w.outbox.deliveries[w.hands[a].id].status in {Sending, DeliveryUnknown})
    && (forall a, b :: a in w.hands && b in w.hands && a != b ==> w.hands[a].id != w.hands[b].id)
  }

  /** One row's bookkeeping against the log of what was really sent. */
  ghost predicate RowAccounted(d: Delivery, sends: nat, messages: nat, maxAttempts: nat) {
    && sends <= d.attempts <= maxAttempts && messages <= 1
    && (d.status in {Pending, Skipped} ==> messages == 0)
    && (d.status == Sent ==> messages == 1)
  }

  ghost predicate HandAccounted(h: Hand, d: Delivery, sends: nat, messages: nat) {
    match h
    case Holding(_) => sends < d.attempts && messages == 0
    case Tried(_, r) => (r.Retryable? ==> messages == 0) && (r.Accepted? ==> messages == 1)
  }

  ghost predicate Accounted(w: World, maxAttempts: nat) {
    && (forall i :: 0 <= i < |w.outbox.deliveries| ==>
          RowAccounted(w.outbox.deliveries[i], Sends(w.log, i), Messages(w.log, i), maxAttempts))
    && (forall a :: a in w.hands && w.hands[a].id < |w.outbox.deliveries| ==>
          HandAccounted(w.hands[a], w.outbox.deliveries[w.hands[a].id], Sends(w.log, w.hands[a].id),
            Messages(w.log, w.hands[a].id)))
    && (forall i: nat :: i >= |w.outbox.deliveries| ==> Sends(w.log, i) == 0 && Messages(w.log, i) == 0)
  }

  ghost predicate Safe(w: World, maxAttempts: nat) {
    UniqueRows(w.outbox) && HandsApart(w) && Accounted(w, maxAttempts)
  }

  /** Old rows untouched, new rows fresh and unique: what expanding entries may do to the table. */
  ghost predicate Extends(before: seq<Delivery>, after: seq<Delivery>) {
    && before <= after
    && (forall i :: |before| <= i < |after| ==> after[i].attempts == 0 && after[i].status in {Pending, Skipped})
  }

  lemma {:induction false} AddressedExtends(x: Outbox, id: nat, userIds: seq<nat>, clocks: map<nat, int>, now: int,
                                            n: nat)
    requires id < |x.entries| && n <= |userIds| && UniqueRows(x)
    ensures var after := Addressed(x, id, userIds, clocks, now, n);
            Extends(x.deliveries, after) && UniqueRows(x.(deliveries := after))
  {
    if n > 0 {
      AddressedExtends(x, id, userIds, clocks, now, n - 1);
    }
  }

  ghost predicate SameKeys(before: seq<OutboxEntry>, after: seq<OutboxEntry>) {
    |after| == |before| && forall i :: 0 <= i < |before| ==> after[i].key == before[i].key
  }

  lemma ExpandEntryExtends(x: Outbox, id: nat, userIds: seq<nat>, clocks: map<nat, int>, now: int)
    requires id < |x.entries| && UniqueRows(x)
    ensures var y := ExpandEntry(x, id, userIds, clocks, now);
            Extends(x.deliveries, y.deliveries) && UniqueRows(y) && SameKeys(x.entries, y.entries)
  {
    hide Addressed, Extends;
    AddressedExtends(x, id, userIds, clocks, now, |userIds|);
  }

  lemma {:induction false} MaterializedExtends(x: Outbox, userIds: seq<nat>, batch: nat, clocks: map<nat, int>,
                                               now: int, n: nat)
    requires n <= |x.entries| && UniqueRows(x)
    ensures var y := Materialized(x, userIds, batch, clocks, now, n).0;
            Extends(x.deliveries, y.deliveries) && UniqueRows(y) && SameKeys(x.entries, y.entries)
  {
    hide ExpandEntry, UniqueRows;
    if n > 0 {
      MaterializedExtends(x, userIds, batch, clocks, now, n - 1);
      ExpandEntryExtends(Materialized(x, userIds, batch, clocks, now, n - 1).0, n - 1, userIds, clocks, now);
    }
  }

  lemma ExpandKeepsSafe(w: World, y: Outbox, maxAttempts: nat)
    requires Safe(w, maxAttempts) && Extends(w.outbox.deliveries, y.deliveries) && UniqueRows(y)
    ensures Safe(w.(outbox := y), maxAttempts)
  {
    hide Sends, Messages, UniqueRows;
  }

  /** A row step that a closing or sweeping transaction may take without touching the counters. */
  ghost predicate Harmless(before: Delivery, after: Delivery) {
    && after.outboxId == before.outboxId && after.userId == before.userId && after.attempts == before.attempts
    && (after.status == before.status
        || (before.status == Pending && after.status in {Skipped, Failed})
        || (before.status == Sending && after.status == DeliveryUnknown))
  }

  ghost predicate AllHarmless(before: seq<Delivery>, after: seq<Delivery>) {
    |after| == |before| && forall i :: 0 <= i < |before| ==> Harmless(before[i], after[i])
  }

  lemma HarmlessKeepsSafe(w: World, after: seq<Delivery>, maxAttempts: nat)
    requires Safe(w, maxAttempts) && AllHarmless(w.outbox.deliveries, after)
    ensures Safe(w.(outbox := w.outbox.(deliveries := after)), maxAttempts)
  {
    hide Sends, Messages;
  }

  lemma ClaimKeepsSafe(w: World, worker: nat, now: int, p: Policy)
    requires Safe(w, p.maxAttempts)
    ensures Safe(Take(w, ClaimBy(worker, now), p), p.maxAttempts)
  {
    hide Sends, Messages, Safe;
    if worker !in w.hands {
      var swept := Swept(w.outbox.deliveries, w.outbox.users, p.maxAttempts, now);
      HarmlessKeepsSafe(w, swept, p.maxAttempts);
      var v := w.(outbox := w.outbox.(deliveries := swept));
      var found := FirstClaimable(v.outbox, p.maxAttempts, now, 0);
      if found.Some? {
        TakingKeepsSafe(v, worker, found.value, now, p.maxAttempts);
      } else {
        assert Take(w, ClaimBy(worker, now), p) == v;
      }
    }
  }

  lemma TakingKeepsSafe(w: World, worker: nat, id: nat, now: int, maxAttempts: nat)
    requires Safe(w, maxAttempts) && worker !in w.hands && id < |w.outbox.deliveries|
             && Claimable(w.outbox, w.outbox.deliveries[id], maxAttempts, now)
    ensures Safe(World(TakeRow(w.outbox, id, now), w.hands[worker := Holding(id)], w.log), maxAttempts)
  {
    hide Sends, Messages;
    assert RowAccounted(w.outbox.deliveries[id], Sends(w.log, id), Messages(w.log, id), maxAttempts);
  }

  lemma SendKeepsHands(w: World, worker: nat, result: SendResult)
    requires HandsApart(w) && worker in w.hands
    ensures HandsApart(World(w.outbox, w.hands[worker := Tried(w.hands[worker].id, result)], w.log))
  {
  }

  lemma SendKeepsAccounts(w: World, v: World, worker: nat, result: SendResult, maxAttempts: nat)
    requires HandsApart(w) && Accounted(w, maxAttempts) && worker in w.hands && w.hands[worker].Holding?
    requires v.outbox == w.outbox && v.hands == w.hands[worker := Tried(w.hands[worker].id, result)]
    requires forall i: nat ::
               && Sends(v.log, i) == Sends(w.log, i) + (if w.hands[worker].id == i then 1 else 0)
               && Messages(v.log, i) == Messages(w.log, i) + if w.hands[worker].id == i && Reached(result) then 1 else 0
    ensures Accounted(v, maxAttempts)
  {
    hide Sends, Messages;
    var id := w.hands[worker].id;
    assert HandAccounted(w.hands[worker], w.outbox.deliveries[id], Sends(w.log, id), Messages(w.log, id));
    assert RowAccounted(w.outbox.deliveries[id], Sends(w.log, id), Messages(w.log, id), maxAttempts);
  }

  lemma SendKeepsSafe(w: World, worker: nat, result: SendResult, p: Policy)
    requires Safe(w, p.maxAttempts)
    ensures Safe(Take(w, SendBy(worker, result), p), p.maxAttempts)
  {
    hide Sends, Messages, UniqueRows, HandsApart, Accounted;
    if worker in w.hands && w.hands[worker].Holding? {
      var id := w.hands[worker].id;
      var a, v := Attempt(id, Reached(result)), Take(w, SendBy(worker, result), p);
      forall i: nat
        ensures Sends(v.log, i) == Sends(w.log, i) + if id == i then 1 else 0
        ensures Messages(v.log, i) == Messages(w.log, i) + if id == i && a.reached then 1 else 0
      {
        LogMore(w.log, a, i);
      }
      SendKeepsHands(w, worker, result);
      HandsIgnoreLog(World(w.outbox, v.hands, w.log), v.log);
      SendKeepsAccounts(w, v, worker, result, p.maxAttempts);
    }
  }

  lemma HandsIgnoreLog(w: World, log: seq<Attempt>)
    requires HandsApart(w)
    ensures HandsApart(w.(log := log))
  {
  }

  /** Closing a row that is still being sent, and letting go of it. */
  lemma CloseKeepsRows(w: World, worker: nat, d: Delivery, maxAttempts: nat)
    requires Safe(w, maxAttempts) && worker in w.hands
    requires var id := w.hands[worker].id; var row := w.outbox.deliveries[id];
             && d.outboxId == row.outboxId && d.userId == row.userId && d.attempts == row.attempts
             && RowAccounted(d, Sends(w.log, id), Messages(w.log, id), maxAttempts)
    ensures Safe(World(Closed(w.outbox, w.hands[worker].id, d), w.hands - {worker}, w.log), maxAttempts)
  {
    hide Sends, Messages, RowAccounted;
  }

  lemma CloseKeepsSafe(w: World, worker: nat, now: int, p: Policy)
    requires Safe(w, p.maxAttempts)
    ensures Safe(Take(w, CloseBy(worker, now), p), p.maxAttempts)
  {
    hide Sends, Messages, RetryDelay, UniqueRows, Closed;
    if worker in w.hands && w.hands[worker].Tried? {
      var h := w.hands[worker];
      var id, row := h.id, w.outbox.deliveries[h.id];
      assert RowAccounted(row, Sends(w.log, id), Messages(w.log, id), p.maxAttempts);
      assert HandAccounted(h, row, Sends(w.log, id), Messages(w.log, id));
      match h.result
      case Accepted(m) =>
        CloseKeepsRows(w, worker,
          row.(status := Sent, messageId := Some(m), remark := None, sentAt := Some(now), updatedAt := now),
          p.maxAttempts);
      case Retryable(after) =>
        var next := now + RetryDelay(after, p.retryBase, row.attempts);
        CloseKeepsRows(w, worker,
          row.(status := Pending, remark := Some(SendError), nextAttemptAt := next, updatedAt := now), p.maxAttempts);
      case Permanent(_) =>
        CloseKeepsRows(w, worker,
          row.(status := Failed, messageId := None, remark := Some(SendError), sentAt := None, updatedAt := now),
          p.maxAttempts);
      case Unknown(_) =>
        CloseKeepsRows(w, worker,
          row.(status := DeliveryUnknown, messageId := None, remark := Some(SendError), sentAt := None,
          updatedAt := now), p.maxAttempts);
    }
  }

  lemma TakeKeepsSafe(w: World, s: Step, p: Policy)
    requires Safe(w, p.maxAttempts)
    ensures Safe(Take(w, s, p), p.maxAttempts)
  {
    hide Sends, Messages, Accounted, HandsApart;
    match s
    case Publish(entry) =>
      PublishKeepsSafe(w, entry.(expanded := false), p.maxAttempts);
    case Configure(user, settings) =>
      ConfigureKeepsSafe(w, w.outbox.users[user := settings], p.maxAttempts);
    case Expand(userIds, batch, clocks, at) =>
      MaterializedExtends(w.outbox, userIds, batch, clocks, at, |w.outbox.entries|);
      ExpandKeepsSafe(w, Materialize(w.outbox, userIds, batch, clocks, at).0, p.maxAttempts);
    case ClaimBy(worker, at) =>
      ClaimKeepsSafe(w, worker, at, p);
    case SendBy(worker, result) =>
      SendKeepsSafe(w, worker, result, p);
    case CloseBy(worker, at) =>
      CloseKeepsSafe(w, worker, at, p);
    case Crash(worker) =>
      CrashKeepsSafe(w, worker, p.maxAttempts);
    case RecoverStale(cutoff, at) =>
      HarmlessKeepsSafe(w, Recover(w.outbox, cutoff, at).deliveries, p.maxAttempts);
      assert Recover(w.outbox, cutoff, at) == w.outbox.(deliveries := Recover(w.outbox, cutoff, at).deliveries);
  }

  lemma PublishKeepsSafe(w: World, e: OutboxEntry, maxAttempts: nat)
    requires Safe(w, maxAttempts)
    ensures Safe(w.(outbox := Enqueue(w.outbox, e)), maxAttempts)
  {
    hide Sends, Messages;
  }

  lemma ConfigureKeepsSafe(w: World, users: map<nat, UserSettings>, maxAttempts: nat)
    requires Safe(w, maxAttempts)
    ensures Safe(w.(outbox := w.outbox.(users := users)), maxAttempts)
  {
    hide Sends, Messages;
  }

  lemma CrashKeepsSafe(w: World, worker: nat, maxAttempts: nat)
    requires Safe(w, maxAttempts)
    ensures Safe(w.(hands := w.hands - {worker}), maxAttempts)
  {
    hide Sends, Messages;
  }

  /** Whatever the workers do, crash or not, every row's log stays within its limits. */
  lemma {:induction false} RunIsSafe(steps: seq<Step>, p: Policy)
    ensures Safe(Run(steps, p), p.maxAttempts)
    decreases |steps|
  {
    hide Take, Safe;
    if steps == [] {
      NothingSent(p.maxAttempts);
    } else {
      RunIsSafe(steps[..|steps| - 1], p);
      TakeKeepsSafe(Run(steps[..|steps| - 1], p), steps[|steps| - 1], p);
    }
  }

  lemma NothingSent(maxAttempts: nat)
    ensures Safe(EMPTY, maxAttempts)
  {
  }

  // ---------- what users see ----------

  /** The messages one user received for one outbox key, over all rows. */
  function MessagesFor(w: World, log: seq<Attempt>, key: NoticeKey, user: nat): nat {
    if log == [] then 0
    else
      var last := log[|log| - 1];
      MessagesFor(w, log[..|log| - 1], key, user)
      + if last.reached && last.id < |w.outbox.deliveries| && Addresses(w, last.id, key, user) then 1 else 0
  }

  predicate Addresses(w: World, id: nat, key: NoticeKey, user: nat)
    requires id < |w.outbox.deliveries|
  {
    var d := w.outbox.deliveries[id];
    d.userId == user && d.outboxId < |w.outbox.entries| && w.outbox.entries[d.outboxId].key == key
  }

  lemma {:induction false} CountByRow(w: World, log: seq<Attempt>, key: NoticeKey, user: nat, id: nat)
    requires id < |w.outbox.deliveries|
    requires forall k :: 0 <= k < |w.outbox.deliveries| && Addresses(w, k, key, user) ==> k == id
    ensures MessagesFor(w, log, key, user) <= Messages(log, id)
    decreases |log|
  {
    if log != [] {
      CountByRow(w, log[..|log| - 1], key, user, id);
    }
  }

  lemma {:induction false} NobodyAddressed(w: World, log: seq<Attempt>, key: NoticeKey, user: nat)
    requires forall k :: 0 <= k < |w.outbox.deliveries| ==> !Addresses(w, k, key, user)
    ensures MessagesFor(w, log, key, user) == 0
    decreases |log|
  {
    if log != [] {
      NobodyAddressed(w, log[..|log| - 1], key, user);
    }
  }

  /**
   * Each delivery row is sent at most maxAttempts times and delivered at most once; each user gets a key at most once.
   */
  lemma AtMostOnce(steps: seq<Step>, p: Policy, id: nat, key: NoticeKey, user: nat)
    ensures var w := Run(steps, p);
            && Messages(w.log, id) <= 1 && Sends(w.log, id) <= p.maxAttempts
            && MessagesFor(w, w.log, key, user) <= 1
            && (id < |w.outbox.deliveries| && w.outbox.deliveries[id].status == Sent ==> Messages(w.log, id) == 1)
            && (id < |w.outbox.deliveries| && w.outbox.deliveries[id].status == Skipped ==> Messages(w.log, id) == 0)
  {
    hide Run, Sends, Messages;
    RunIsSafe(steps, p);
    var w := Run(steps, p);
    if exists k :: 0 <= k < |w.outbox.deliveries| && Addresses(w, k, key, user) {
      var k :| 0 <= k < |w.outbox.deliveries| && Addresses(w, k, key, user);
      CountByRow(w, w.log, key, user, k);
    } else {
      NobodyAddressed(w, w.log, key, user);
    }
  }

  /**
   * Composed with the signal store: two status changes never share an outbox key, and each user receives at most one
   * message for each of them.
   */
  lemma OneMessagePerTransition(s: Store, steps: seq<Step>, p: Policy, i: nat, j: nat, user: nat)
    requires UniqueKeys(s.events) && s.outbox == Notices(s.events)
    requires i < j < |s.outbox|
    ensures s.outbox[i].key != s.outbox[j].key
    ensures var w := Run(steps, p);
            && MessagesFor(w, w.log, SignalNotice(s.outbox[i].key), user) <= 1
            && MessagesFor(w, w.log, SignalNotice(s.outbox[j].key), user) <= 1
  {
    hide Run, MessagesFor;
    NoticesKeepKeys(s.events);
    AtMostOnce(steps, p, 0, SignalNotice(s.outbox[i].key), user);
    AtMostOnce(steps, p, 0, SignalNotice(s.outbox[j].key), user);
  }

  lemma {:induction false} NoticesKeepKeys(events: seq<SignalEvent>)
    requires UniqueKeys(events)
    ensures forall n :: n in Notices(events) ==> exists e :: e in events && e.key == n.key
    ensures forall i, j :: 0 <= i < j < |Notices(events)| ==> Notices(events)[i].key != Notices(events)[j].key
  {
    if events != [] {
      NoticesKeepKeys(events[..|events| - 1]);
    }
  }
}
