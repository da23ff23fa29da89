/**
 What one claim comes to, read off the events themselves: which tasks the waits found finished, how the handler
 ended, and what the row of the task says once the last finalization is applied.
 */
module WorkerOutcomes {
  import opened Wrappers
  import opened TaskDomain
  import opened TaskStore
  import opened TaskOutcomes
  import opened WorkerRunner

  /** The wait that decides: the first, unless it found nothing but a shutdown. */
  function Deciding(s: Schedule): Done {
    if s.first.heartbeat.Some? || s.first.timeout || s.first.handler then s.first else s.second
  }

  /** The intent of a failure that may be retried. */
  predicate AsksAgain(claim: ClaimedTask, intent: Intent, delay: Time, code: string, summary: string, reason: string) {
    if claim.fence.attemptNumber < claim.maxAttempts then intent == AskRetry(delay, code, summary, reason)
    else intent == AskFailure(code, summary, "max_attempts_exhausted")
  }

  /** The intent of a handler that ended by itself. */
  predicate FollowsHandler(claim: ClaimedTask, end: HandlerEnd, backoff: Time, intent: Intent) {
    match end
    case Returned(value, true) => intent == AskSuccess(value)
    case Returned(_, false) =>
      intent == AskFailure("handler_contract_error", "Handler returned an invalid result", "handler_contract_error")
    case RaisedContract =>
      intent == AskFailure("handler_contract_error", "Handler returned an invalid result", "handler_contract_error")
    case RaisedPermanent(code) =>
      intent == AskFailure(code, "Task execution failed permanently", "permanent_error")
    case RaisedRetryable(code, Some(seconds)) =>
      AsksAgain(claim, intent, seconds, code, "Task execution failed and will be retried", "retryable_error")
    case RaisedRetryable(code, None) =>
      AsksAgain(claim, intent, backoff, code, "Task execution failed and will be retried", "retryable_error")
    case RaisedOther =>
      AsksAgain(claim, intent, backoff, "unexpected_error", "Task execution failed unexpectedly", "unexpected_error")
    case RaisedTaskCancelled => intent == AskCancellation
    case RaisedOwnershipLost => intent == Leave(true)
    case RaisedCancelledError => intent == Leave(true)
  }

  /** A heartbeat's cause decides, whatever else finished; then a timeout; then the handler; else the shutdown. */
  lemma ScheduleDecides(claim: ClaimedTask, s: Schedule, end: HandlerEnd, backoff: Time)
    requires Plausible(s)
    ensures
      var d := Deciding(s);
      var intent := IntentOf(claim, s, end, backoff);
      && (d.heartbeat == Some(CustomerCancellation) ==> intent == AskCancellation)
      && (d.heartbeat == Some(OwnershipLoss) ==> intent == Leave(false))
      && (d.heartbeat.None? && d.timeout ==>
            AsksAgain(claim, intent, backoff, "execution_timeout", "Task execution exceeded its time limit",
                      "execution_timeout"))
      && (d.heartbeat.None? && !d.timeout && d.handler ==> FollowsHandler(claim, end, backoff, intent))
      && (d.heartbeat.None? && !d.timeout && !d.handler ==> intent == Leave(false))
  {
    var d := Deciding(s);
    CauseDecides(s);
    if d.heartbeat.None? && d.timeout {
      TimeoutDecides(claim, s, end, backoff);
    } else if d.heartbeat.None? && d.handler {
      HandlerDecides(claim, end, backoff);
    }
  }

  lemma CauseDecides(s: Schedule)
    requires Plausible(s)
    ensures
      var d := Deciding(s);
      CauseOf(s) == if d.heartbeat.Some? then d.heartbeat
                    else if d.timeout then Some(TimedOut)
                    else if d.handler then None
                    else Some(WorkerShutdown)
  {
  }

  lemma TimeoutDecides(claim: ClaimedTask, s: Schedule, end: HandlerEnd, backoff: Time)
    requires CauseOf(s) == Some(TimedOut)
    ensures AsksAgain(claim, IntentOf(claim, s, end, backoff), backoff, "execution_timeout",
                      "Task execution exceeded its time limit", "execution_timeout")
  {
  }

  lemma HandlerDecides(claim: ClaimedTask, end: HandlerEnd, backoff: Time)
    ensures FollowsHandler(claim, end, backoff, CompletionIntent(claim, end, backoff))
  {
  }

  /** A success is asked for exactly when nothing stopped the handler and it returned that value, a valid one. */
  lemma SuccessIff(claim: ClaimedTask, s: Schedule, end: HandlerEnd, backoff: Time, value: string)
    requires Plausible(s)
    ensures
      var d := Deciding(s);
      IntentOf(claim, s, end, backoff) == AskSuccess(value)
      <==> d.heartbeat.None? && !d.timeout && d.handler && end == Returned(value, true)
  {
    ScheduleDecides(claim, s, end, backoff);
    assert FollowsHandler(claim, end, backoff, AskSuccess(value)) ==> end == Returned(value, true);
  }

  /** When the worker stops claiming: the events that make its hold on the claim, or itself, uncertain. */
  lemma RetiresIff(claim: ClaimedTask, r: Round, calls: seq<FenceCall>)
    requires Plausible(r.schedule)
    ensures
      var d := Deciding(r.schedule);
      var stopped := d.heartbeat.Some? || d.timeout || !d.handler;
      Retires(claim, r, calls)
      <==> || d.heartbeat == Some(OwnershipLoss)
           || (stopped && !r.handlerStopped)
           || (!stopped && (r.end.RaisedOwnershipLost? || r.end.RaisedCancelledError?))
           || (calls != [] && calls[|calls| - 1].reply.Some? && calls[|calls| - 1].reply != Some(Applied))
  {
    ScheduleDecides(claim, r.schedule, r.end, r.backoff);
    LeavesForGood(claim, r.schedule, r.end, r.backoff);
  }

  lemma LeavesForGood(claim: ClaimedTask, s: Schedule, end: HandlerEnd, backoff: Time)
    requires Plausible(s)
    ensures
      var d := Deciding(s);
      IntentOf(claim, s, end, backoff) == Leave(true)
      <==> d.heartbeat.None? && !d.timeout && d.handler && (end.RaisedOwnershipLost? || end.RaisedCancelledError?)
  {
    ScheduleDecides(claim, s, end, backoff);
  }

  // ---------------------------------------------------------------- the row of the task afterwards

  predicate EndsRetriedOrFailed(db: Db, claim: ClaimedTask, at: Time, code: string, reason: string) {
    if claim.fence.attemptNumber < claim.maxAttempts then
      EndsAs(db, claim.fence, Approved, None, Some(at), Some(code), reason)
    else EndsAs(db, claim.fence, Failed, None, None, Some(code), "max_attempts_exhausted")
  }

  /** What an intent leaves behind once its transaction is applied. */
  ghost predicate Leaves(db: Db, f: ExecutionFence, intent: Intent, slot: Slot) {
    match intent
    case Leave(_) => false
    case AskSuccess(value) => EndsAs(db, f, Succeeded, Some(value), None, None, "completed")
    case AskRetry(delay, code, _, reason) =>
      EndsAs(db, f, Approved, None, Some(slot.stamp + delay), Some(code), reason)
    case AskFailure(code, _, reason) => EndsAs(db, f, Failed, None, None, Some(code), reason)
    case AskCancellation => EndsAs(db, f, Cancelled, None, None, None, "customer_cancellation")
  }

  lemma AskedRow(db: Db, f: ExecutionFence, intent: Intent, slot: Slot)
    requires !intent.Leave? && FinalizationReply(db, TxnOf(f, intent, slot)).Applied?
    ensures Leaves(Apply(db, TxnOf(f, intent, slot)), f, intent, slot)
  {
    match intent
    case AskSuccess(value) => SuccessRow(db, f, value, slot.now);
    case AskRetry(delay, code, summary, reason) =>
      RetryRow(db, f, delay, slot.stamp, slot.now, code, summary, reason);
    case AskFailure(code, summary, reason) => FailureRow(db, f, slot.now, code, summary, reason);
    case AskCancellation => CancelledRow(db, f, slot.now);
  }

  /** A last call that is heard to be applied left the rows of its transaction. */
  lemma LastCallRow(origin: Db, before: seq<Txn>, after: seq<Txn>, f: ExecutionFence, intent: Intent, r: Round,
                    calls: seq<FenceCall>)
    requires Settled(origin, before, after, f, intent, r, calls) && LastApplied(calls)
    ensures |calls| == 1 ==> Leaves(Run(origin, after), f, intent, r.settle)
    ensures |calls| == 2 ==> EndsAs(Run(origin, after), f, Cancelled, None, None, None, "customer_cancellation")
  {
    if |calls| == 1 {
      var earlier := before + r.settle.others;
      assert after == earlier + [calls[0].txn];
      RunAppend(origin, earlier, [calls[0].txn]);
      AskedRow(Run(origin, earlier), f, intent, r.settle);
    } else {
      var earlier := before + Sent(calls[0].txn, r.settle) + r.acknowledge.others;
      assert after == earlier + [calls[1].txn];
      RunAppend(origin, earlier, [calls[1].txn]);
      CancelledRow(Run(origin, earlier), f, r.acknowledge.now);
    }
  }

  /** The rows after an undisturbed handler. */
  predicate HandlerEndsAs(db: Db, claim: ClaimedTask, end: HandlerEnd, stamp: Time, backoff: Time) {
    match end
    case Returned(value, true) => EndsAs(db, claim.fence, Succeeded, Some(value), None, None, "completed")
    case RaisedTaskCancelled => EndsAs(db, claim.fence, Cancelled, None, None, None, "customer_cancellation")
    case RaisedRetryable(code, Some(seconds)) =>
      EndsRetriedOrFailed(db, claim, stamp + seconds, code, "retryable_error")
    case RaisedRetryable(code, None) => EndsRetriedOrFailed(db, claim, stamp + backoff, code, "retryable_error")
    case RaisedOther => EndsRetriedOrFailed(db, claim, stamp + backoff, "unexpected_error", "unexpected_error")
    case RaisedPermanent(code) => EndsAs(db, claim.fence, Failed, None, None, Some(code), "permanent_error")
    case RaisedOwnershipLost => false
    case RaisedCancelledError => false
    case _ => EndsAs(db, claim.fence, Failed, None, None, Some("handler_contract_error"), "handler_contract_error")
  }

  lemma AgainEndsAs(db: Db, claim: ClaimedTask, intent: Intent, delay: Time, code: string, summary: string,
                    reason: string, slot: Slot)
    requires AsksAgain(claim, intent, delay, code, summary, reason) && Leaves(db, claim.fence, intent, slot)
    ensures EndsRetriedOrFailed(db, claim, slot.stamp + delay, code, reason)
  {
  }

  lemma HandlerLeaves(db: Db, claim: ClaimedTask, end: HandlerEnd, backoff: Time, intent: Intent, slot: Slot)
    requires FollowsHandler(claim, end, backoff, intent) && Leaves(db, claim.fence, intent, slot)
    ensures HandlerEndsAs(db, claim, end, slot.stamp, backoff)
  {
    match end
    case RaisedRetryable(code, retryAfter) =>
      AgainEndsAs(db, claim, intent, if retryAfter.Some? then retryAfter.value else backoff, code,
                  "Task execution failed and will be retried", "retryable_error", slot);
    case RaisedOther =>
      AgainEndsAs(db, claim, intent, backoff, "unexpected_error", "Task execution failed unexpectedly",
                  "unexpected_error", slot);
    case _ =>
  }

  /** From what happened during a claim to what its task's row says, whenever its one call is heard to be applied. */
  lemma ClaimEndsAs(origin: Db, before: seq<Txn>, after: seq<Txn>, claim: ClaimedTask, r: Round, calls: seq<FenceCall>)
    requires Plausible(r.schedule) && |calls| == 1 && LastApplied(calls)
    requires
      Settled(origin, before, after, claim.fence, IntentOf(claim, r.schedule, r.end, r.backoff), r, calls)
    ensures
      var d := Deciding(r.schedule);
      var db := Run(origin, after);
      && (d.heartbeat.Some? ==>
            d.heartbeat == Some(CustomerCancellation)
            && EndsAs(db, claim.fence, Cancelled, None, None, None, "customer_cancellation"))
      && (d.heartbeat.None? && d.timeout ==>
            EndsRetriedOrFailed(db, claim, r.settle.stamp + r.backoff, "execution_timeout", "execution_timeout"))
      && (d.heartbeat.None? && !d.timeout ==>
            d.handler && HandlerEndsAs(db, claim, r.end, r.settle.stamp, r.backoff))
  {
    var intent := IntentOf(claim, r.schedule, r.end, r.backoff);
    var d := Deciding(r.schedule);
    ScheduleDecides(claim, r.schedule, r.end, r.backoff);
    LastCallRow(origin, before, after, claim.fence, intent, r, calls);
    if d.heartbeat.None? && d.timeout {
      AgainEndsAs(Run(origin, after), claim, intent, r.backoff, "execution_timeout",
                  "Task execution exceeded its time limit", "execution_timeout", r.settle);
    } else if d.heartbeat.None? && d.handler {
      HandlerLeaves(Run(origin, after), claim, r.end, r.backoff, intent, r.settle);
    }
  }
}
