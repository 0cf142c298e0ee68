/** The notification outbox: entries, one delivery row per entry and user, and the transactions on them. */
module NotificationStore {
  import opened Wrappers
  import opened SignalStore

  /** Outbox rows come from status changes or from operational events; the key is unique. */
  datatype NoticeKey = SignalNotice(key: EventKey) | OperationalNotice(name: string)

  datatype OutboxEntry = OutboxEntry(
    key: NoticeKey, newSignal: bool, score: int, availableAt: int, expanded: bool, processedAt: Option<int>)

  /** Schedules are minutes of the user's local day. */
  datatype UserSettings = UserSettings(minimumScore: int, start: int, end: int, paused: bool)

  datatype DeliveryStatus = Pending | Sending | Sent | Failed | Skipped | DeliveryUnknown

  datatype Remark =
    | NotificationsPaused | BelowScoreThreshold | OutsideSchedule | StaleSending | AttemptsExhausted | SendError

  /** A row's identifier is its position; rows are never deleted. */
  datatype Delivery = Delivery(
    outboxId: nat, userId: nat, status: DeliveryStatus, attempts: nat, nextAttemptAt: int, updatedAt: int,
    messageId: Option<int>, sentAt: Option<int>, remark: Option<Remark>)

  datatype Outbox = Outbox(entries: seq<OutboxEntry>, users: map<nat, UserSettings>, deliveries: seq<Delivery>)

  // ---------- who gets what ----------

  /** A user whose time zone is unknown has no local time. */
  predicate WindowIsOpen(localTime: Option<int>, start: int, end: int) {
    && localTime.Some?
    && if start == end then true
       else if start < end then start <= localTime.value < end
       else localTime.value >= start || localTime.value < end
  }

  function DeliveryPolicy(e: OutboxEntry, u: UserSettings, localTime: Option<int>): (DeliveryStatus, Option<Remark>) {
    if u.paused then (Skipped, Some(NotificationsPaused))
    else if !e.newSignal then (Pending, None)
    else if e.score < u.minimumScore then (Skipped, Some(BelowScoreThreshold))
    else if !WindowIsOpen(localTime, u.start, u.end) then (Skipped, Some(OutsideSchedule))
    else (Pending, None)
  }

  /**
   * A notice waits for delivery exactly when the user listens and, for a new signal only, score and schedule allow it.
   */
  lemma PolicyMeans(e: OutboxEntry, u: UserSettings, localTime: Option<int>)
    ensures DeliveryPolicy(e, u, localTime).0 in {Pending, Skipped}
    ensures DeliveryPolicy(e, u, localTime).0 == Pending <==>
              !u.paused && (e.newSignal ==> e.score >= u.minimumScore && WindowIsOpen(localTime, u.start, u.end))
  {
  }

  predicate HasDelivery(deliveries: seq<Delivery>, outboxId: nat, userId: nat) {
    exists i :: 0 <= i < |deliveries| && deliveries[i].outboxId == outboxId && deliveries[i].userId == userId
  }

  /** Insert unless the entry already has a row for the user. */
  function InsertDelivery(deliveries: seq<Delivery>, d: Delivery): seq<Delivery> {
    if HasDelivery(deliveries, d.outboxId, d.userId) then deliveries else deliveries + [d]
  }

  function LocalTime(clocks: map<nat, int>, user: nat): Option<int> {
    if user in clocks then Some(clocks[user]) else None
  }

  function FreshDelivery(x: Outbox, id: nat, user: nat, clocks: map<nat, int>, now: int): Delivery
    requires id < |x.entries| && user in x.users
  {
    var (status, remark) := DeliveryPolicy(x.entries[id], x.users[user], LocalTime(clocks, user));
    Delivery(id, user, status, 0, now, now, None, None, remark)
  }

  /** The rows after the first n addressees of an entry; a user without settings gets none. */
  function Addressed(x: Outbox, id: nat, userIds: seq<nat>, clocks: map<nat, int>, now: int, n: nat): seq<Delivery>
    requires id < |x.entries| && n <= |userIds|
  {
    if n == 0 then x.deliveries
    else
      var before := Addressed(x, id, userIds, clocks, now, n - 1);
      if userIds[n - 1] in x.users then InsertDelivery(before, FreshDelivery(x, id, userIds[n - 1], clocks, now))
        else before
  }

  function ExpandEntry(x: Outbox, id: nat, userIds: seq<nat>, clocks: map<nat, int>, now: int): Outbox
    requires id < |x.entries|
  {
    x.(deliveries := Addressed(x, id, userIds, clocks, now, |userIds|),
       entries := x.entries[id := x.entries[id].(expanded := true, processedAt := Some(now))])
  }

  predicate Due(e: OutboxEntry, now: int) {
    !e.expanded && e.availableAt <= now
  }

  /** Expands due entries among the first n, oldest first, up to a batch; says how many. */
  function Materialized(x: Outbox, userIds: seq<nat>, batch: nat, clocks: map<nat, int>, now: int,
                        n: nat): (r: (Outbox, nat))
    requires n <= |x.entries|
    ensures |r.0.entries| == |x.entries| && r.1 <= batch && r.0.users == x.users
    ensures forall i :: n <= i < |x.entries| ==> r.0.entries[i] == x.entries[i]
  {
    if n == 0 then (x, 0)
    else
      var (y, count) := Materialized(x, userIds, batch, clocks, now, n - 1);
      if count < batch && Due(y.entries[n - 1], now) then (ExpandEntry(y, n - 1, userIds, clocks, now), count + 1)
      else (y, count)
  }

  function Materialize(x: Outbox, userIds: seq<nat>, batch: nat, clocks: map<nat, int>, now: int): (Outbox, nat) {
    if userIds == [] then (x, 0) else Materialized(x, userIds, batch, clocks, now, |x.entries|)
  }

  // ---------- claiming ----------

  function SkipPaused(d: Delivery, users: map<nat, UserSettings>, now: int): Delivery {
    if d.status == Pending && d.userId in users && users[d.userId].paused
    then d.(status := Skipped, remark := Some(NotificationsPaused), updatedAt := now)
    else d
  }

  function FailExhausted(d: Delivery, maxAttempts: nat, now: int): Delivery {
    if d.status == Pending && d.attempts >= maxAttempts
    then d.(status := Failed, remark := Some(AttemptsExhausted), updatedAt := now)
    else d
  }

  function Swept(deliveries: seq<Delivery>, users: map<nat, UserSettings>, maxAttempts: nat,
                 now: int): (r: seq<Delivery>)
    ensures |r| == |deliveries|
    ensures forall i :: 0 <= i < |r| ==> r[i] == FailExhausted(SkipPaused(deliveries[i], users, now), maxAttempts, now)
  {
    seq(|deliveries|,
      i requires 0 <= i < |deliveries| => FailExhausted(SkipPaused(deliveries[i], users, now), maxAttempts, now))
  }

  predicate Claimable(x: Outbox, d: Delivery, maxAttempts: nat, now: int) {
    && d.status == Pending && d.nextAttemptAt <= now && d.attempts < maxAttempts
    && d.outboxId < |x.entries| && d.userId in x.users
  }

  /** The claimable row with the smallest identifier. */
  function FirstClaimable(x: Outbox, maxAttempts: nat, now: int, from: nat): (r: Option<nat>)
    requires from <= |x.deliveries|
    ensures r.Some? ==> from <= r.value < |x.deliveries| && Claimable(x, x.deliveries[r.value], maxAttempts, now)
    ensures r.Some? ==> forall i :: from <= i < r.value ==> !Claimable(x, x.deliveries[i], maxAttempts, now)
    ensures r.None? ==> forall i :: from <= i < |x.deliveries| ==> !Claimable(x, x.deliveries[i], maxAttempts, now)
    decreases |x.deliveries| - from
  {
    if from == |x.deliveries| then None
    else if Claimable(x, x.deliveries[from], maxAttempts, now) then Some(from)
    else FirstClaimable(x, maxAttempts, now, from + 1)
  }

  function TakeRow(x: Outbox, id: nat, now: int): Outbox
    requires id < |x.deliveries|
  {
    var d := x.deliveries[id];
    x.(deliveries := x.deliveries[id := d.(status := Sending, attempts := d.attempts + 1, updatedAt := now)])
  }

  function Claim(x: Outbox, maxAttempts: nat, now: int): (Outbox, Option<nat>) {
    var swept := x.(deliveries := Swept(x.deliveries, x.users, maxAttempts, now));
    var found := FirstClaimable(swept, maxAttempts, now, 0);
    if found.None? then (swept, None) else (TakeRow(swept, found.value, now), found)
  }

  /** A row that may be sent now: waiting, due, with attempts left, for a known user who is not paused. */
  predicate MayBeSent(x: Outbox, d: Delivery, maxAttempts: nat, now: int) {
    Claimable(x, d, maxAttempts, now) && !x.users[d.userId].paused
  }

  /**
   * A claim takes the first row that may be sent, and none only when there is none; every other row is at most swept.
   */
  lemma ClaimTakesFirst(x: Outbox, maxAttempts: nat, now: int)
    ensures var (y, found) := Claim(x, maxAttempts, now);
            && (found.None? <==>
                  forall i :: 0 <= i < |x.deliveries| ==> !MayBeSent(x, x.deliveries[i], maxAttempts, now))
            && (found.Some? ==>
                  && found.value < |x.deliveries| && MayBeSent(x, x.deliveries[found.value], maxAttempts, now)
                  && (forall i :: 0 <= i < found.value ==> !MayBeSent(x, x.deliveries[i], maxAttempts, now))
                  && y.deliveries[found.value].status == Sending
                  && y.deliveries[found.value].attempts == x.deliveries[found.value].attempts + 1)
            && |y.deliveries| == |x.deliveries|
            && (forall i :: 0 <= i < |x.deliveries| && found != Some(i) ==>
                  y.deliveries[i] == x.deliveries[i]
                    || (x.deliveries[i].status == Pending && y.deliveries[i].status in {Skipped, Failed}))
  {
    var swept := x.(deliveries := Swept(x.deliveries, x.users, maxAttempts, now));
    forall i | 0 <= i < |x.deliveries|
      ensures Claimable(swept, swept.deliveries[i], maxAttempts, now) <==>
                MayBeSent(x, x.deliveries[i], maxAttempts, now)
      ensures MayBeSent(x, x.deliveries[i], maxAttempts, now) ==> swept.deliveries[i] == x.deliveries[i]
    {
      assert swept.deliveries[i] == FailExhausted(SkipPaused(x.deliveries[i], x.users, now), maxAttempts, now);
    }
  }

  // ---------- after the send ----------

  /** Every closing transaction acts only on a row that is still being sent. */
  function Closed(x: Outbox, id: nat, d: Delivery): Outbox {
    if id < |x.deliveries| && x.deliveries[id].status == Sending then x.(deliveries := x.deliveries[id := d]) else x
  }

  function Retry(x: Outbox, id: nat, retryAfter: int, now: int): Outbox {
    if id < |x.deliveries|
    then Closed(x, id,
      x.deliveries[id].(status := Pending, remark := Some(SendError), nextAttemptAt := now + retryAfter,
      updatedAt := now))
    else x
  }

  function Finish(x: Outbox, id: nat, status: DeliveryStatus, messageId: Option<int>, remark: Option<Remark>,
                  now: int): Outbox {
    if id < |x.deliveries|
    then Closed(x, id, x.deliveries[id].(status := status, messageId := messageId, remark := remark,
                                         sentAt := if status == Sent then Some(now) else None, updatedAt := now))
    else x
  }

  function RecoverRow(d: Delivery, cutoff: int, now: int): Delivery {
    if d.status == Sending && d.updatedAt < cutoff
    then d.(status := DeliveryUnknown, remark := Some(StaleSending), updatedAt := now)
    else d
  }

  function Recover(x: Outbox, cutoff: int, now: int): (r: Outbox)
    ensures |r.deliveries| == |x.deliveries| && r.entries == x.entries && r.users == x.users
    ensures forall i :: 0 <= i < |r.deliveries| ==> r.deliveries[i] == RecoverRow(x.deliveries[i], cutoff, now)
  {
    x.(deliveries := seq(|x.deliveries|,
      i requires 0 <= i < |x.deliveries| => RecoverRow(x.deliveries[i], cutoff, now)))
  }

  function StaleCount(deliveries: seq<Delivery>, cutoff: int, n: nat): nat
    requires n <= |deliveries|
  {
    if n == 0 then 0
    else StaleCount(deliveries, cutoff, n - 1) + if deliveries[n - 1].status == Sending
      && deliveries[n - 1].updatedAt < cutoff then 1 else 0
  }

  /** Insert unless the key is known. */
  function Enqueue(x: Outbox, e: OutboxEntry): Outbox {
    if exists i :: 0 <= i < |x.entries| && x.entries[i].key == e.key then x else x.(entries := x.entries + [e])
  }

  // ---------- the repository ----------

  class NotificationRepository {
    var entries: seq<OutboxEntry>
    var users: map<nat, UserSettings>
    var deliveries: seq<Delivery>

    ghost function View(): Outbox
      reads this
    {
      Outbox(entries, users, deliveries)
    }

    constructor ()
      ensures View() == Outbox([], map[], [])
    {
      entries, users, deliveries := [], map[], [];
    }

    method EnqueueOperationalEvent(name: string, availableAt: int) returns (created: bool)
      modifies this
      ensures View() == Enqueue(old(View()), OutboxEntry(OperationalNotice(name), false, 0, availableAt, false, None))
      ensures created == (forall i :: 0 <= i < |old(entries)| ==> old(entries)[i].key != OperationalNotice(name))
    {
      for i := 0 to |entries|
        invariant forall k :: 0 <= k < i ==> entries[k].key != OperationalNotice(name)
        invariant View() == old(View())
      {
        if entries[i].key == OperationalNotice(name) {
          return false;
        }
      }
      entries := entries + [OutboxEntry(OperationalNotice(name), false, 0, availableAt, false, None)];
      created := true;
    }

    /** One entry for every addressee. */
    method AddressEntry(id: nat, userIds: seq<nat>, clocks: map<nat, int>, now: int)
      requires id < |entries|
      modifies this
      ensures View() == ExpandEntry(old(View()), id, userIds, clocks, now)
    {
      hide DeliveryPolicy, HasDelivery;
      for k := 0 to |userIds|
        invariant View() == old(View()).(deliveries := Addressed(old(View()), id, userIds, clocks, now, k))
      {
        if userIds[k] in users {
          var (status, remark) := DeliveryPolicy(entries[id], users[userIds[k]], LocalTime(clocks, userIds[k]));
          if !HasDelivery(deliveries, id, userIds[k]) {
            deliveries := deliveries + [Delivery(id, userIds[k], status, 0, now, now, None, None, remark)];
          }
        }
      }
      entries := entries[id := entries[id].(expanded := true, processedAt := Some(now))];
    }

    method MaterializePending(userIds: seq<nat>, batch: nat, clocks: map<nat, int>, now: int) returns (expanded: nat)
      modifies this
      ensures (View(), expanded) == Materialize(old(View()), userIds, batch, clocks, now)
    {
      hide ExpandEntry;
      expanded := 0;
      if userIds == [] {
        return;
      }
      var count := |entries|;
      for id := 0 to count
        invariant (View(), expanded) == Materialized(old(View()), userIds, batch, clocks, now, id)
        invariant |entries| == |View().entries| == count
      {
        if expanded < batch && !entries[id].expanded && entries[id].availableAt <= now {
          AddressEntry(id, userIds, clocks, now);
          expanded := expanded + 1;
        }
      }
    }

    method SkipPausedRows(now: int)
      modifies this
      ensures entries == old(entries) && users == old(users) && |deliveries| == |old(deliveries)|
      ensures forall i :: 0 <= i < |deliveries| ==> deliveries[i] == SkipPaused(old(deliveries)[i], users, now)
    {
      for i := 0 to |deliveries|
        invariant entries == old(entries) && users == old(users) && |deliveries| == |old(deliveries)|
        invariant forall k :: 0 <= k < i ==> deliveries[k] == SkipPaused(old(deliveries)[k], users, now)
        invariant forall k :: i <= k < |deliveries| ==> deliveries[k] == old(deliveries)[k]
      {
        var d := deliveries[i];
        if d.status == Pending && d.userId in users && users[d.userId].paused {
          deliveries := deliveries[i := d.(status := Skipped, remark := Some(NotificationsPaused), updatedAt := now)];
        }
      }
    }

    method FailExhaustedRows(maxAttempts: nat, now: int)
      modifies this
      ensures entries == old(entries) && users == old(users) && |deliveries| == |old(deliveries)|
      ensures forall i :: 0 <= i < |deliveries| ==> deliveries[i] == FailExhausted(old(deliveries)[i], maxAttempts, now)
    {
      for i := 0 to |deliveries|
        invariant entries == old(entries) && users == old(users) && |deliveries| == |old(deliveries)|
        invariant forall k :: 0 <= k < i ==> deliveries[k] == FailExhausted(old(deliveries)[k], maxAttempts, now)
        invariant forall k :: i <= k < |deliveries| ==> deliveries[k] == old(deliveries)[k]
      {
        var d := deliveries[i];
        if d.status == Pending && d.attempts >= maxAttempts {
          deliveries := deliveries[i := d.(status := Failed, remark := Some(AttemptsExhausted), updatedAt := now)];
        }
      }
    }

    method ClaimDelivery(maxAttempts: nat, now: int) returns (claimed: Option<nat>)
      modifies this
      ensures (View(), claimed) == Claim(old(View()), maxAttempts, now)
    {
      hide SkipPaused, FailExhausted;
      SkipPausedRows(now);
      FailExhaustedRows(maxAttempts, now);
      assert deliveries == Swept(old(deliveries), users, maxAttempts, now);
      claimed := FirstClaimable(Outbox(entries, users, deliveries), maxAttempts, now, 0);
      if claimed.Some? {
        var d := deliveries[claimed.value];
        deliveries := deliveries[claimed.value := d.(status := Sending, attempts := d.attempts + 1, updatedAt := now)];
      }
    }

    method MarkRetry(id: nat, retryAfter: int, now: int)
      modifies this
      ensures View() == Retry(old(View()), id, retryAfter, now)
    {
      if id >= |deliveries| || deliveries[id].status != Sending {
        return;
      }
      deliveries := deliveries[id := deliveries[id].(status := Pending, remark := Some(SendError),
        nextAttemptAt := now + retryAfter, updatedAt := now)];
    }

    method FinishDelivery(id: nat, status: DeliveryStatus, messageId: Option<int>, remark: Option<Remark>, now: int)
      modifies this
      ensures View() == Finish(old(View()), id, status, messageId, remark, now)
    {
      if id >= |deliveries| || deliveries[id].status != Sending {
        return;
      }
      var sentAt := if status == Sent then Some(now) else None;
      deliveries := deliveries[id := deliveries[id].(status := status, messageId := messageId, remark := remark,
                                                     sentAt := sentAt, updatedAt := now)];
    }

    method RecoverStaleSending(cutoff: int, now: int) returns (recovered: nat)
      modifies this
      ensures View() == Recover(old(View()), cutoff, now)
              && recovered == StaleCount(old(deliveries), cutoff, |old(deliveries)|)
    {
      recovered := 0;
      for i := 0 to |deliveries|
        invariant entries == old(entries) && users == old(users) && |deliveries| == |old(deliveries)|
        invariant recovered == StaleCount(old(deliveries), cutoff, i)
        invariant forall k :: 0 <= k < i ==> deliveries[k] == RecoverRow(old(deliveries)[k], cutoff, now)
        invariant forall k :: i <= k < |deliveries| ==> deliveries[k] == old(deliveries)[k]
      {
        var d := deliveries[i];
        if d.status == Sending && d.updatedAt < cutoff {
          deliveries := deliveries[i := d.(status := DeliveryUnknown, remark := Some(StaleSending), updatedAt := now)];
          recovered := recovered + 1;
        }
      }
    }
  }
}
