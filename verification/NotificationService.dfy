/** One pass of the outbox service: expand, claim, send, close. */
module NotificationService {
  import opened Wrappers
  import opened NotificationStore
  import opened NotificationProtocol

  /** The moments of the three transactions of a pass. */
  datatype PassTimes = PassTimes(expandAt: int, claimAt: int, closeAt: int)

  datatype PassResult = PassResult(outbox: Outbox, worked: bool, sent: Option<nat>)

  function OnePass(x: Outbox, userIds: seq<nat>, batch: nat, clocks: map<nat, int>, t: PassTimes, p: Policy,
                   result: SendResult): PassResult {
    var (expanded, count) := Materialize(x, userIds, batch, clocks, t.expandAt);
    var (claimed, found) := Claim(expanded, p.maxAttempts, t.claimAt);
    if found.None? then PassResult(claimed, count > 0, None)
    else PassResult(CloseRow(claimed, found.value, result, p.retryBase, t.closeAt), true, found)
  }

  /** The messenger's answer is a parameter: whatever it is, the row is closed accordingly. */
  method RunOnce(repository: NotificationRepository, userIds: seq<nat>, batch: nat, clocks: map<nat, int>, t: PassTimes,
                 p: Policy,
                 result: SendResult)
    returns (worked: bool, sent: Option<nat>)
    modifies repository
    ensures PassResult(repository.View(), worked, sent)
            == OnePass(old(repository.View()), userIds, batch, clocks, t, p, result)
  {
    hide Materialize, Claim, Finish, Retry, RetryDelay;
    var expanded := repository.MaterializePending(userIds, batch, clocks, t.expandAt);
    var claimed := repository.ClaimDelivery(p.maxAttempts, t.claimAt);
    if claimed.None? {
      return expanded > 0, None;
    }
    var attempts := if claimed.value < |repository.deliveries| then repository.deliveries[claimed.value].attempts
      else 0;
    match result {
      case Accepted(messageId) =>
        repository.FinishDelivery(claimed.value, Sent, Some(messageId), None, t.closeAt);
      case Retryable(after) =>
        repository.MarkRetry(claimed.value, RetryDelay(after, p.retryBase, attempts), t.closeAt);
      case Permanent(_) =>
        repository.FinishDelivery(claimed.value, Failed, None, Some(SendError), t.closeAt);
      case Unknown(_) =>
        repository.FinishDelivery(claimed.value, DeliveryUnknown, None, Some(SendError), t.closeAt);
    }
    worked, sent := true, claimed;
  }

  /** A pass is the protocol's four steps by one idle worker, so everything proved about protocol runs covers it. */
  lemma PassIsFourSteps(w: World, worker: nat, userIds: seq<nat>, batch: nat, clocks: map<nat, int>, t: PassTimes,
                        p: Policy, result: SendResult)
    requires worker !in w.hands
    ensures var expanded := Take(w, Expand(userIds, batch, clocks, t.expandAt), p);
            var claimed := Take(expanded, ClaimBy(worker, t.claimAt), p);
            var tried := Take(claimed, SendBy(worker, result), p);
            var closed := Take(tried, CloseBy(worker, t.closeAt), p);
            var pass := OnePass(w.outbox, userIds, batch, clocks, t, p, result);
            && closed.outbox == pass.outbox && closed.hands == w.hands
            && closed.log == w.log + if pass.sent.Some? then [Attempt(pass.sent.value, Reached(result))] else []
  {
    hide Materialize, Claim, CloseRow;
  }
}
