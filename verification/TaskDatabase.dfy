/**
 The tables as mutable state. Each method is one committed transaction and changes the rows it locks field by
 field; its contract gives the new tables and the reply as the transaction function of the old tables, so every
 theorem about runs of TaskStore.Apply is about calls of these methods.
 */
module TaskDatabase {
  import opened Wrappers
  import opened TaskDomain
  import opened OrderedSelection
  import opened TaskStore
  import opened TaskInvariants

  class Database {
    var tasks: map<TaskId, Task>
    var attempts: map<AttemptKey, Attempt>

    ghost function Tables(): Db
      reads this
    {
      Db(tasks, attempts)
    }

    constructor ()
      ensures Tables() == EmptyDb
    {
      tasks := map[];
      attempts := map[];
    }

    method Create(id: TaskId, taskType: string, maxAttempts: int, at: Time)
      modifies this
      ensures Tables() == CreateTask(old(Tables()), id, taskType, maxAttempts, at)
    {
      if id !in tasks && maxAttempts >= 1 {
        tasks := tasks[id := Task(taskType, PendingApproval, 0, maxAttempts, None, None, None, None, None,
                                  None, None, None, None, at, at)];
      }
    }

    method Approve(id: TaskId, now: Time) returns (reply: ServiceReply)
      modifies this
      ensures (Tables(), reply) == ApproveTask(old(Tables()), id, now)
    {
      if id !in tasks { return NotFound; }
      var task := tasks[id];
      var newStatus := ApplyTaskCommand(task.status, TaskCommand.Approve);
      if newStatus.None? { return InvalidTransition; }
      if newStatus.value != task.status {
        task := task.(status := newStatus.value);
        task := task.(updatedAt := Max(now, task.updatedAt + 1));
        task := task.(availableAt := Some(now));
        tasks := tasks[id := task];
      }
      return Accepted;
    }

    method Cancel(id: TaskId, now: Time) returns (reply: ServiceReply)
      modifies this
      ensures (Tables(), reply) == CancelTask(old(Tables()), id, now)
    {
      if id !in tasks { return NotFound; }
      var task := tasks[id];
      var decision := DecideCancellation(task.status, task.cancellationRequestedAt.Some?);
      if decision.None? { return InvalidTransition; }
      var d := decision.value;
      if d.newStatus != task.status || d.requestCancellation {
        task := task.(status := d.newStatus);
        if d.requestCancellation { task := task.(cancellationRequestedAt := Some(now)); }
        if d.newStatus.Cancelled? { task := task.(availableAt := None); }
        task := task.(updatedAt := Max(now, task.updatedAt + 1));
        tasks := tasks[id := task];
      }
      return Accepted;
    }

    method ClaimOneTask(types: set<string>, worker: string, token: string, lease: Time, due: Time, now: Time)
      returns (reply: ClaimReply)
      modifies this
      ensures (Tables(), reply) == ClaimOne(old(Tables()), types, worker, token, lease, due, now)
    {
      NextClaimIsFirst(Tables(), types, due);
      if id :| id in tasks && FirstClaimable(Db(tasks, attempts), types, due, id) {
        var task := tasks[id];
        var number := task.attemptCount + 1;
        if ApplyTaskCommand(task.status, Start) != Some(Running) || AttemptKey(id, number) in attempts {
          return ClaimRaised;
        }
        task := task.(status := Running, workerId := Some(worker), leaseToken := Some(token));
        task := task.(leaseExpiresAt := Some(now + lease), lastHeartbeatAt := Some(now), availableAt := None);
        task := task.(attemptCount := number, updatedAt := NextUpdatedAt(task.updatedAt, now), result := None);
        tasks := tasks[id := task];
        var attempt := Attempt(worker, token, InProgress, now, now, None, None, None, None);
        attempts := attempts[AttemptKey(id, number) := attempt];
        return Claimed(ClaimedTask(ExecutionFence(id, number, worker, token), task.maxAttempts, task.taskType));
      }
      assert forall id :: !FirstClaimable(Tables(), types, due, id);
      assert NextClaim(Tables(), types, due).None?;
      return NothingDue;
    }

    method ExtendLease(claim: ExecutionFence, lease: Time, now: Time) returns (reply: HeartbeatReply)
      modifies this
      ensures (Tables(), reply) == Heartbeat(old(Tables()), claim, lease, now)
    {
      var db := Db(tasks, attempts);
      if !ActiveFence(db, claim, now) || !RunningAttempt(db, claim.Key(), claim.leaseToken) {
        return HeartbeatRaised;
      }
      var task := tasks[claim.taskId];
      task := task.(lastHeartbeatAt := Some(now));
      if task.cancellationRequestedAt.None? { task := task.(leaseExpiresAt := Some(now + lease)); }
      tasks := tasks[claim.taskId := task];
      attempts := attempts[claim.Key() := attempts[claim.Key()].(lastHeartbeatAt := now)];
      return if task.cancellationRequestedAt.Some? then CancellationPending else Active;
    }

    method CloseUnderFence(claim: ExecutionFence, requiredCancellation: bool, c: Closing, now: Time)
      returns (reply: FenceReply)
      modifies this
      ensures (Tables(), reply) == Finalize(old(Tables()), claim, requiredCancellation, c, now)
    {
      if !ActiveFence(Db(tasks, attempts), claim, now) { return Stale; }
      var task := tasks[claim.taskId];
      if task.cancellationRequestedAt.Some? != requiredCancellation {
        return if task.cancellationRequestedAt.Some? then CancellationRequested else Stale;
      }
      if !RunningAttempt(Db(tasks, attempts), claim.Key(), claim.leaseToken) { return FinalizeRaised; }
      task := task.(status := c.status, availableAt := c.availableAt, result := c.result);
      task := task.(errorCode := c.errorCode, errorSummary := c.errorSummary);
      task := task.(workerId := None, leaseToken := None, leaseExpiresAt := None, lastHeartbeatAt := None);
      task := task.(updatedAt := Max(now, task.updatedAt + 1));
      var attempt := attempts[claim.Key()];
      attempt := attempt.(status := c.attemptStatus, terminalReason := Some(c.terminalReason), finishedAt := Some(now));
      if c.attemptError.Some? {
        attempt := attempt.(errorCode := Some(c.attemptError.value.0), errorSummary := Some(c.attemptError.value.1));
      }
      tasks := tasks[claim.taskId := task];
      attempts := attempts[claim.Key() := attempt];
      return Applied;
    }

    method Succeed(claim: ExecutionFence, outcome: string, now: Time) returns (reply: FenceReply)
      modifies this
      ensures (Tables(), reply) == FinalizeSuccess(old(Tables()), claim, outcome, now)
    {
      reply := CloseUnderFence(claim, false, SuccessClosing(outcome), now);
    }

    method Retry(claim: ExecutionFence, delay: Time, stamp: Time, now: Time,
                 code: string, summary: string, reason: string)
      returns (reply: FenceReply)
      modifies this
      ensures (Tables(), reply) == ScheduleRetry(old(Tables()), claim, delay, stamp, now, code, summary, reason)
    {
      reply := CloseUnderFence(claim, false, RetryClosing(stamp + delay, code, summary, reason), now);
    }

    method Fail(claim: ExecutionFence, now: Time, code: string, summary: string, reason: string)
      returns (reply: FenceReply)
      modifies this
      ensures (Tables(), reply) == FinalizeFailure(old(Tables()), claim, now, code, summary, reason)
    {
      reply := CloseUnderFence(claim, false, FailureClosing(code, summary, reason), now);
    }

    method AcknowledgeCancellation(claim: ExecutionFence, now: Time) returns (reply: FenceReply)
      modifies this
      ensures (Tables(), reply) == FinalizeCancellation(old(Tables()), claim, now)
    {
      reply := CloseUnderFence(claim, true, CancellationClosing, now);
    }

    method RecoverExpired(delay: Time, now: Time) returns (reply: RecoveryReply)
      modifies this
      ensures (Tables(), reply) == RecoverOneExpired(old(Tables()), delay, now)
    {
      NextExpiredIsFirst(Tables(), now);
      if id :| id in tasks && FirstExpired(Db(tasks, attempts), now, id) {
        var task := tasks[id];
        if task.workerId.None? || task.leaseToken.None? || task.attemptCount <= 0 { return RecoveryRaised; }
        var key := AttemptKey(id, task.attemptCount);
        if !RunningAttempt(Db(tasks, attempts), key, task.leaseToken.value) { return RecoveryRaised; }
        var c := RecoveryClosing(task, delay, now);
        attempts := attempts[key := CloseAttempt(attempts[key], c, now)];
        tasks := tasks[id := CloseTask(task, c, now)];
        return Recovered(id, c.status);
      }
      assert forall id :: !FirstExpired(Tables(), now, id);
      return NothingExpired;
    }

    /** Any transaction, by whichever process commits it. */
    method Perform(txn: Txn)
      modifies this
      ensures Tables() == Apply(old(Tables()), txn)
    {
      match txn
      case Create(id, taskType, maxAttempts, at) => Create(id, taskType, maxAttempts, at);
      case Approval(id, now) => var _ := Approve(id, now);
      case Cancellation(id, now) => var _ := Cancel(id, now);
      case Claim(types, worker, token, lease, due, now) => var _ := ClaimOneTask(types, worker, token, lease, due, now);
      case Beat(f, lease, now) => var _ := ExtendLease(f, lease, now);
      case Success(f, outcome, now) => var _ := Succeed(f, outcome, now);
      case Retrying(f, delay, stamp, now, code, summary, reason) =>
        var _ := Retry(f, delay, stamp, now, code, summary, reason);
      case Failure(f, now, code, summary, reason) => var _ := Fail(f, now, code, summary, reason);
      case AcknowledgeCancel(f, now) => var _ := AcknowledgeCancellation(f, now);
      case Recover(delay, now) => var _ := RecoverExpired(delay, now);
    }
  }
}
