/**
 What each transaction answers and writes, said of the columns of the rows it reads: which task a claim or a
 recovery takes, when a fence is accepted, where each status change leads and when the task is available again.
 */
module TaskOutcomes {
  import opened Wrappers
  import opened TaskDomain
  import opened OrderedSelection
  import opened TaskStore
  import opened TaskInvariants

  // ---------------------------------------------------------------- public commands

  /** The command table, edge by edge; every other command is rejected. */
  lemma CommandTable(current: TaskStatus, command: TaskCommand, next: TaskStatus)
    ensures ApplyTaskCommand(current, command) == Some(next)
       <==> (current, command, next) in {
              (PendingApproval, Approve, Approved), (Approved, Approve, Approved),
              (PendingApproval, Cancel, Cancelled), (Approved, Cancel, Cancelled), (Cancelled, Cancel, Cancelled),
              (Running, Cancel, Running),
              (Approved, Start, Running), (Running, Succeed, Succeeded), (Running, Fail, Failed),
              (Running, Retry, Approved), (Running, FinishCancellation, Cancelled)}
  {
  }

  /** A new task waits for approval with its whole budget; an existing id or an empty budget changes nothing. */
  lemma CreationMeans(db: Db, id: TaskId, taskType: string, maxAttempts: int, at: Time)
    ensures
      var after := CreateTask(db, id, taskType, maxAttempts, at);
      && after.attempts == db.attempts
      && if id in db.tasks || maxAttempts < 1 then after == db
         else
           && id in after.tasks && after.tasks == db.tasks[id := after.tasks[id]]
           && var t := after.tasks[id];
           && t.status == PendingApproval && t.taskType == taskType && t.maxAttempts == maxAttempts
           && t.attemptCount == 0 && t.createdAt == at && t.updatedAt == at
           && t.availableAt.None? && t.workerId.None? && t.leaseToken.None? && t.leaseExpiresAt.None?
           && t.lastHeartbeatAt.None? && t.cancellationRequestedAt.None? && t.result.None? && t.errorCode.None?
           && t.errorSummary.None?
  {
  }

  /** Approval starts a pending task's wait at the clock reading, replays on an approved one, and is refused else. */
  lemma ApprovalMeans(db: Db, id: TaskId, now: Time)
    ensures
      var (after, reply) := ApproveTask(db, id, now);
      if id !in db.tasks then reply.NotFound? && after == db
      else
        var t := db.tasks[id];
        match t.status
        case PendingApproval =>
          && reply.Accepted? && after.attempts == db.attempts && after.tasks.Keys == db.tasks.Keys
          && after.tasks[id] == t.(status := Approved, availableAt := Some(now),
                                   updatedAt := if t.updatedAt < now then now else t.updatedAt + 1)
          && forall o | o in db.tasks && o != id :: after.tasks[o] == db.tasks[o]
        case Approved => reply.Accepted? && after == db
        case _ => reply.InvalidTransition? && after == db
  {
  }

  /** A waiting task is cancelled at once, a running one only asked to stop, and once; finished ones refuse. */
  lemma CancellationMeans(db: Db, id: TaskId, now: Time)
    ensures
      var (after, reply) := CancelTask(db, id, now);
      if id !in db.tasks then reply.NotFound? && after == db
      else
        var t := db.tasks[id];
        var stamp := if t.updatedAt < now then now else t.updatedAt + 1;
        var recorded := if t.cancellationRequestedAt.Some? then t.cancellationRequestedAt else Some(now);
        && (forall o | o in db.tasks && o != id :: o in after.tasks && after.tasks[o] == db.tasks[o])
        && after.attempts == db.attempts
        && match t.status
           case Succeeded => reply.InvalidTransition? && after == db
           case Failed => reply.InvalidTransition? && after == db
           case Cancelled => reply.Accepted? && after == db
           case Running =>
             && reply.Accepted? && id in after.tasks
             && after.tasks[id] == (if t.cancellationRequestedAt.Some? then t
                                    else t.(cancellationRequestedAt := Some(now), updatedAt := stamp))
           case _ =>
             && reply.Accepted? && id in after.tasks
             && after.tasks[id] == t.(status := Cancelled, cancellationRequestedAt := recorded, availableAt := None,
                                      updatedAt := stamp)
  {
  }

  // ---------------------------------------------------------------- claims

  /** What a claim asks of a row. */
  predicate Due(t: Task, types: set<string>, due: Time) {
    && t.status == Approved && t.availableAt.Some? && t.availableAt.value <= due
    && t.attemptCount < t.maxAttempts && t.taskType in types
  }

  /** (available_at, created_at, id) of the first row is smaller. */
  predicate Sooner(t: Task, id: TaskId, u: Task, o: TaskId)
    requires t.availableAt.Some? && u.availableAt.Some?
  {
    || t.availableAt.value < u.availableAt.value
    || (t.availableAt.value == u.availableAt.value
        && (t.createdAt < u.createdAt || (t.createdAt == u.createdAt && id.bits < o.bits)))
  }

  ghost predicate FirstDue(db: Db, types: set<string>, due: Time, id: TaskId) {
    && id in db.tasks && Due(db.tasks[id], types, due)
    && forall o | o in db.tasks && o != id && Due(db.tasks[o], types, due) :: Sooner(db.tasks[id], id, db.tasks[o], o)
  }

  lemma FirstDueIsNext(db: Db, types: set<string>, due: Time, id: TaskId)
    ensures FirstDue(db, types, due, id) <==> NextClaim(db, types, due) == Some(id)
  {
    NextClaimIsFirst(db, types, due);
    if NextClaim(db, types, due) == Some(id) {
      assert FirstClaimable(db, types, due, id);
      forall o | o in db.tasks && o != id && Due(db.tasks[o], types, due)
        ensures Sooner(db.tasks[id], id, db.tasks[o], o)
      {
        assert o in ClaimableSet(db, types, due);
      }
    }
    if FirstDue(db, types, due, id) {
      forall o | o in ClaimableSet(db, types, due) && o != id ensures Precedes(ClaimKey(db, id), ClaimKey(db, o)) {
        assert Due(db.tasks[o], types, due);
      }
      assert FirstClaimable(db, types, due, id);
    }
  }

  lemma NothingIsNext(db: Db, types: set<string>, due: Time)
    ensures NextClaim(db, types, due).None? <==> forall o | o in db.tasks :: !Due(db.tasks[o], types, due)
  {
    NextClaimIsFirst(db, types, due);
    forall o | o in db.tasks ensures o in ClaimableSet(db, types, due) <==> Due(db.tasks[o], types, due) {
    }
  }

  /** A claim takes the row that is due, in budget, of a supported type and before all others of that kind. */
  lemma ClaimPicks(db: Db, types: set<string>, worker: string, token: string, lease: Time, due: Time, now: Time)
    ensures
      var reply := ClaimOne(db, types, worker, token, lease, due, now).1;
      && (reply.Claimed? ==>
            && FirstDue(db, types, due, reply.claim.fence.taskId)
            && reply.claim == ClaimedTask(
                                ExecutionFence(reply.claim.fence.taskId,
                                               db.tasks[reply.claim.fence.taskId].attemptCount + 1, worker, token),
                                db.tasks[reply.claim.fence.taskId].maxAttempts,
                                db.tasks[reply.claim.fence.taskId].taskType))
      && (reply.NothingDue? <==> forall o | o in db.tasks :: !Due(db.tasks[o], types, due))
      && (Valid(db) ==> !reply.ClaimRaised?)
  {
    NothingIsNext(db, types, due);
    var next := NextClaim(db, types, due);
    if next.Some? {
      FirstDueIsNext(db, types, due, next.value);
      if Valid(db) { ClaimRowOk(db, next.value, worker, token, lease, now); }
    }
  }

  /** The rows a claim leaves: its task runs under a new lease and attempt, every other row is untouched. */
  lemma ClaimWrites(db: Db, types: set<string>, worker: string, token: string, lease: Time, due: Time, now: Time)
    requires ClaimOne(db, types, worker, token, lease, due, now).1.Claimed?
    ensures
      var (after, reply) := ClaimOne(db, types, worker, token, lease, due, now);
      var id := reply.claim.fence.taskId;
      && id in db.tasks
      && var t := db.tasks[id];
      && after.tasks == db.tasks[id := t.(
                                    status := Running, workerId := Some(worker), leaseToken := Some(token),
                                    leaseExpiresAt := Some(now + lease), lastHeartbeatAt := Some(now),
                                    availableAt := None, attemptCount := t.attemptCount + 1, result := None,
                                    updatedAt := if t.updatedAt < now then now else t.updatedAt + 1)]
      && after.attempts == db.attempts[AttemptKey(id, t.attemptCount + 1) :=
                                         Attempt(worker, token, InProgress, now, now, None, None, None, None)]
  {
    FirstDueIsNext(db, types, due, NextClaim(db, types, due).value);
  }

  // ---------------------------------------------------------------- fences

  /** What every write under a fence asks of the task's row. */
  predicate Owned(db: Db, f: ExecutionFence, now: Time) {
    && f.taskId in db.tasks
    && var t := db.tasks[f.taskId];
    && t.status == Running && t.attemptCount == f.attemptNumber
    && t.workerId == Some(f.workerId) && t.leaseToken == Some(f.leaseToken)
    && t.leaseExpiresAt.Some? && now < t.leaseExpiresAt.value
  }

  /** In a valid state a heartbeat raises exactly when the fence is lost, and else reports the cancellation. */
  lemma HeartbeatMeans(db: Db, f: ExecutionFence, lease: Time, now: Time)
    requires Valid(db)
    ensures
      var (after, reply) := Heartbeat(db, f, lease, now);
      if !Owned(db, f, now) then reply.HeartbeatRaised? && after == db
      else
        && f.Key() in db.attempts
        && var t := db.tasks[f.taskId];
        && reply == (if t.cancellationRequestedAt.Some? then CancellationPending else Active)
        && after.tasks == db.tasks[f.taskId := t.(
                                      lastHeartbeatAt := Some(now),
                                      leaseExpiresAt := if t.cancellationRequestedAt.Some? then t.leaseExpiresAt
                                                        else Some(now + lease))]
        && after.attempts == db.attempts[f.Key() := db.attempts[f.Key()].(lastHeartbeatAt := now)]
  {
    OwnedAttempt(db, f, now);
  }

  lemma OwnedAttempt(db: Db, f: ExecutionFence, now: Time)
    requires Valid(db)
    ensures Owned(db, f, now) <==> ActiveFence(db, f, now)
    ensures Owned(db, f, now) ==> RunningAttempt(db, f.Key(), f.leaseToken)
  {
    if Owned(db, f, now) {
      assert Numbered(db, f.taskId) && AttemptKey(f.taskId, f.attemptNumber) in db.attempts;
      assert AttemptAgrees(db.tasks[f.taskId], f.attemptNumber, db.attempts[f.Key()]);
    }
  }

  /** The answers of the four finalizations in a valid state; only an applied one writes. */
  lemma FinalizationAnswers(db: Db, f: ExecutionFence, required: bool, c: Closing, now: Time)
    requires Valid(db)
    ensures
      var (after, reply) := Finalize(db, f, required, c, now);
      && (reply.Stale? <==> !Owned(db, f, now) || (required && db.tasks[f.taskId].cancellationRequestedAt.None?))
      && (reply.CancellationRequested? <==>
            Owned(db, f, now) && !required && db.tasks[f.taskId].cancellationRequestedAt.Some?)
      && (reply.Applied? <==>
            Owned(db, f, now) && (required <==> db.tasks[f.taskId].cancellationRequestedAt.Some?))
      && (!reply.Applied? ==> after == db)
  {
    OwnedAttempt(db, f, now);
  }

  /** The rows of a task and its attempt after a finalization that was applied. */
  predicate EndsAs(db: Db, f: ExecutionFence, status: TaskStatus, result: Option<string>, availableAt: Option<Time>,
                   error: Option<string>, reason: string)
  {
    && f.taskId in db.tasks && f.Key() in db.attempts
    && var t, a := db.tasks[f.taskId], db.attempts[f.Key()];
    && t.status == status && t.result == result && t.availableAt == availableAt && t.errorCode == error
    && t.workerId.None? && t.leaseToken.None? && t.leaseExpiresAt.None? && t.lastHeartbeatAt.None?
    && a.terminalReason == Some(reason) && (error.Some? ==> a.errorCode == error)
    && a.finishedAt.Some?
    && a.status == match status
                   case Succeeded => AttemptSucceeded
                   case Approved => RetryScheduled
                   case Failed => AttemptFailed
                   case _ => AttemptCancelled
  }

  lemma SuccessRow(db: Db, f: ExecutionFence, value: string, now: Time)
    requires FinalizeSuccess(db, f, value, now).1.Applied?
    ensures EndsAs(FinalizeSuccess(db, f, value, now).0, f, Succeeded, Some(value), None, None, "completed")
  {
  }

  /** An applied retry makes the task available exactly at its stamp plus the delay. */
  lemma RetryRow(db: Db, f: ExecutionFence, delay: Time, stamp: Time, now: Time, code: string, summary: string,
                 reason: string)
    requires ScheduleRetry(db, f, delay, stamp, now, code, summary, reason).1.Applied?
    ensures EndsAs(ScheduleRetry(db, f, delay, stamp, now, code, summary, reason).0, f, Approved, None,
                   Some(stamp + delay), Some(code), reason)
    ensures
      var after := ScheduleRetry(db, f, delay, stamp, now, code, summary, reason).0;
      && f.taskId in after.tasks && f.Key() in after.attempts
      && after.tasks[f.taskId].errorSummary == Some(summary) && after.attempts[f.Key()].errorSummary == Some(summary)
  {
  }

  lemma FailureRow(db: Db, f: ExecutionFence, now: Time, code: string, summary: string, reason: string)
    requires FinalizeFailure(db, f, now, code, summary, reason).1.Applied?
    ensures EndsAs(FinalizeFailure(db, f, now, code, summary, reason).0, f, Failed, None, None, Some(code), reason)
    ensures
      var after := FinalizeFailure(db, f, now, code, summary, reason).0;
      && f.taskId in after.tasks && f.Key() in after.attempts
      && after.tasks[f.taskId].errorSummary == Some(summary) && after.attempts[f.Key()].errorSummary == Some(summary)
  {
  }

  lemma CancelledRow(db: Db, f: ExecutionFence, now: Time)
    requires FinalizeCancellation(db, f, now).1.Applied?
    ensures EndsAs(FinalizeCancellation(db, f, now).0, f, Cancelled, None, None, None, "customer_cancellation")
  {
  }

  /** A finalization leaves everything but its own two rows, and the history columns of those, as they were. */
  lemma FinalizationTouches(db: Db, f: ExecutionFence, required: bool, c: Closing, now: Time)
    requires Finalize(db, f, required, c, now).1.Applied?
    ensures
      var after := Finalize(db, f, required, c, now).0;
      && f.taskId in db.tasks && f.Key() in db.attempts
      && var t, a := db.tasks[f.taskId], db.attempts[f.Key()];
      && after.tasks.Keys == db.tasks.Keys && after.attempts.Keys == db.attempts.Keys
      && (forall o | o in db.tasks && o != f.taskId :: after.tasks[o] == db.tasks[o])
      && (forall k | k in db.attempts && k != f.Key() :: after.attempts[k] == db.attempts[k])
      && var u, b := after.tasks[f.taskId], after.attempts[f.Key()];
      && u.attemptCount == t.attemptCount && u.maxAttempts == t.maxAttempts && u.taskType == t.taskType
      && u.createdAt == t.createdAt && u.cancellationRequestedAt == t.cancellationRequestedAt
      && u.updatedAt == (if t.updatedAt < now then now else t.updatedAt + 1)
      && b.finishedAt == Some(now) && b.startedAt == a.startedAt && b.lastHeartbeatAt == a.lastHeartbeatAt
      && b.workerId == a.workerId && b.leaseToken == a.leaseToken
  {
  }

  // ---------------------------------------------------------------- recovery

  predicate Overdue(t: Task, now: Time) {
    t.status == Running && t.leaseExpiresAt.Some? && t.leaseExpiresAt.value <= now
  }

  ghost predicate FirstOverdue(db: Db, now: Time, id: TaskId) {
    && id in db.tasks && Overdue(db.tasks[id], now)
    && forall o | o in db.tasks && o != id && Overdue(db.tasks[o], now) ::
      || db.tasks[id].leaseExpiresAt.value < db.tasks[o].leaseExpiresAt.value
      || (db.tasks[id].leaseExpiresAt == db.tasks[o].leaseExpiresAt && id.bits < o.bits)
  }

  lemma FirstOverdueIsNext(db: Db, now: Time, id: TaskId)
    ensures FirstOverdue(db, now, id) <==> NextExpired(db, now) == Some(id)
  {
    NextExpiredIsFirst(db, now);
    if NextExpired(db, now) == Some(id) {
      assert FirstExpired(db, now, id);
      assert forall o | o in db.tasks && o != id && Overdue(db.tasks[o], now) :: o in ExpiredSet(db, now);
    }
    if FirstOverdue(db, now, id) {
      forall o | o in ExpiredSet(db, now) && o != id ensures Precedes(ExpiryKey(db, id), ExpiryKey(db, o)) {
        assert Overdue(db.tasks[o], now);
      }
      assert FirstExpired(db, now, id);
    }
  }

  lemma NothingIsOverdue(db: Db, now: Time)
    ensures NextExpired(db, now).None? <==> forall o | o in db.tasks :: !Overdue(db.tasks[o], now)
  {
    NextExpiredIsFirst(db, now);
    forall o | o in db.tasks ensures o in ExpiredSet(db, now) <==> Overdue(db.tasks[o], now) {
    }
  }

  /** Where recovery sends a task: a cancellation becomes final, the last attempt fails, else it waits out the delay. */
  predicate RecoveredAs(t: Task, u: Task, a: Attempt, delay: Time, now: Time) {
    && u.workerId.None? && u.leaseToken.None? && u.leaseExpiresAt.None? && u.lastHeartbeatAt.None? && u.result.None?
    && u.attemptCount == t.attemptCount && u.updatedAt == (if t.updatedAt < now then now else t.updatedAt + 1)
    && a.status == LeaseExpired && a.finishedAt == Some(now) && a.errorCode == Some("lease_expired")
    && (if t.cancellationRequestedAt.Some? then
          u.status == Cancelled && u.availableAt.None? && u.errorCode.None?
          && a.terminalReason == Some("customer_cancellation")
        else
          && u.errorCode == Some("lease_expired") && a.terminalReason == Some("lease_expired")
          && (if t.attemptCount < t.maxAttempts then u.status == Approved && u.availableAt == Some(now + delay)
              else u.status == Failed && u.availableAt.None?))
  }

  /** Recovery takes the overdue row with the earliest lease end, in every valid state, and touches no other. */
  lemma RecoveryMeans(db: Db, delay: Time, now: Time)
    requires Valid(db)
    ensures
      var (after, reply) := RecoverOneExpired(db, delay, now);
      && (reply.NothingExpired? <==> forall o | o in db.tasks :: !Overdue(db.tasks[o], now))
      && (reply.NothingExpired? ==> after == db)
      && !reply.RecoveryRaised?
      && (reply.Recovered? ==>
            && var id := reply.taskId;
            && FirstOverdue(db, now, id)
            && var key := AttemptKey(id, db.tasks[id].attemptCount);
            && key in db.attempts && id in after.tasks && key in after.attempts
            && reply.newStatus == after.tasks[id].status
            && after.tasks == db.tasks[id := after.tasks[id]]
            && after.attempts == db.attempts[key := after.attempts[key]]
            && RecoveredAs(db.tasks[id], after.tasks[id], after.attempts[key], delay, now))
  {
    NothingIsOverdue(db, now);
    var next := NextExpired(db, now);
    if next.Some? {
      FirstOverdueIsNext(db, now, next.value);
      RecoveredRow(db, next.value, delay, now);
    }
  }

  lemma RecoveredRow(db: Db, id: TaskId, delay: Time, now: Time)
    requires id in db.tasks && TaskChecks(db.tasks[id]) && db.tasks[id].status.Running? && Numbered(db, id)
    ensures
      var (after, reply) := RecoverRow(db, id, delay, now);
      var key := AttemptKey(id, db.tasks[id].attemptCount);
      && key in db.attempts && id in after.tasks && key in after.attempts
      && reply == Recovered(id, after.tasks[id].status)
      && after.tasks == db.tasks[id := after.tasks[id]] && after.attempts == db.attempts[key := after.attempts[key]]
      && RecoveredAs(db.tasks[id], after.tasks[id], after.attempts[key], delay, now)
  {
    var key := AttemptKey(id, db.tasks[id].attemptCount);
    assert key in db.attempts;
    assert AttemptAgrees(db.tasks[id], db.tasks[id].attemptCount, db.attempts[key]);
  }
}
