/**
 What every transaction keeps: the schema's CHECK constraints, the agreement between a task and its numbered
 attempts, and a two-state relation (DbEvolves) that orders any two states of one run. No lemma here assumes
 anything about clock readings.
 */
module TaskInvariants {
  import opened Wrappers
  import opened TaskDomain
  import opened OrderedSelection
  import opened TaskStore

  /** The CHECK constraints of the tasks table. */
  ghost predicate TaskChecks(t: Task) {
    && 0 <= t.attemptCount <= t.maxAttempts && 1 <= t.maxAttempts
    && (t.status.Approved? ==> t.availableAt.Some?)
    && (t.status.Running? ==>
          && t.workerId.Some? && t.leaseToken.Some? && t.leaseExpiresAt.Some?
          && t.lastHeartbeatAt.Some? && t.attemptCount > 0)
    && (!t.status.Running? ==>
          t.workerId.None? && t.leaseToken.None? && t.leaseExpiresAt.None? && t.lastHeartbeatAt.None?)
    && (t.status.Succeeded? <==> t.result.Some?)
    && (t.cancellationRequestedAt.Some? ==> t.status.Running? || t.status.Cancelled?)
  }

  /** The CHECK constraint of the attempts table. */
  ghost predicate AttemptChecks(a: Attempt) {
    a.status.InProgress? <==> a.finishedAt.None?
  }

  /** Attempt n of a task is open exactly while the task runs with that attempt, under the same worker and token. */
  ghost predicate AttemptAgrees(t: Task, n: int, a: Attempt) {
    && AttemptChecks(a)
    && (a.status.InProgress? <==> t.status.Running? && n == t.attemptCount)
    && (a.status.InProgress? ==> t.workerId == Some(a.workerId) && t.leaseToken == Some(a.leaseToken))
  }

  /** The attempts of a task are numbered exactly 1..attempt_count. */
  ghost predicate Numbered(db: Db, id: TaskId)
    requires id in db.tasks
  {
    && (forall n: int :: AttemptKey(id, n) in db.attempts <==> 1 <= n <= db.tasks[id].attemptCount)
    && (forall n: int | AttemptKey(id, n) in db.attempts ::
          AttemptAgrees(db.tasks[id], n, db.attempts[AttemptKey(id, n)]))
  }

  ghost predicate Valid(db: Db) {
    && (forall id | id in db.tasks :: TaskChecks(db.tasks[id]) && Numbered(db, id))
    && (forall k | k in db.attempts :: k.task in db.tasks)
  }

  /** How one task row may change over any stretch of a run. */
  ghost predicate TaskEvolves(t: Task, u: Task) {
    && u.taskType == t.taskType && u.maxAttempts == t.maxAttempts && u.createdAt == t.createdAt
    && t.attemptCount <= u.attemptCount
    && t.updatedAt <= u.updatedAt
    && (t.status != u.status ==> t.updatedAt < u.updatedAt)
    && (Terminal(t.status) ==> u.status == t.status && u.attemptCount == t.attemptCount && u.result == t.result)
    && (u.status.Running? && u.attemptCount == t.attemptCount ==>
          t.status.Running? && u.workerId == t.workerId && u.leaseToken == t.leaseToken)
    && (t.cancellationRequestedAt.Some? ==> CancellationHolds(t, u))
  }

  /** Once recorded, a cancellation stays: no other end, no new attempt, and a frozen lease until it is final. */
  ghost predicate CancellationHolds(t: Task, u: Task) {
    && u.cancellationRequestedAt == t.cancellationRequestedAt
    && u.attemptCount == t.attemptCount
    && (u.status.Cancelled? || (u.status.Running? && u.leaseExpiresAt == t.leaseExpiresAt))
  }

  ghost predicate AttemptEvolves(a: Attempt, b: Attempt) {
    && b.workerId == a.workerId && b.leaseToken == a.leaseToken && b.startedAt == a.startedAt
    && (!a.status.InProgress? ==> b == a)
  }

  ghost predicate DbEvolves(db: Db, after: Db) {
    && (forall id | id in db.tasks :: id in after.tasks && TaskEvolves(db.tasks[id], after.tasks[id]))
    && (forall k | k in db.attempts :: k in after.attempts && AttemptEvolves(db.attempts[k], after.attempts[k]))
  }

  /** One transaction changes a status only along an edge of the command table, and only a start adds an attempt. */
  ghost predicate StatusStep(t: Task, u: Task) {
    && (u.status == t.status || CommandEdge(t.status, u.status))
    && u.attemptCount == t.attemptCount + (if t.status.Approved? && u.status.Running? then 1 else 0)
  }

  ghost predicate EdgesOnly(db: Db, after: Db) {
    forall id | id in db.tasks && id in after.tasks :: StatusStep(db.tasks[id], after.tasks[id])
  }

  ghost predicate StepOk(db: Db, after: Db) {
    Valid(after) && DbEvolves(db, after) && EdgesOnly(db, after)
  }

  // ---------------------------------------------------------------- the two shapes of a row update

  lemma TaskUpdateOk(db: Db, id: TaskId, u: Task)
    requires Valid(db) && id in db.tasks && TaskChecks(u)
    requires
      var t := db.tasks[id];
      && TaskEvolves(t, u) && u.attemptCount == t.attemptCount
      && (u.status.Running? <==> t.status.Running?)
      && StatusStep(t, u)
    ensures StepOk(db, db.(tasks := db.tasks[id := u]))
  {
    var after := db.(tasks := db.tasks[id := u]);
    forall o | o in after.tasks ensures TaskChecks(after.tasks[o]) && Numbered(after, o) {
      assert Numbered(db, o);
    }
  }

  ghost predicate Replaces(db: Db, t: Task, u: Task, key: AttemptKey, a: Attempt) {
    && key.number == u.attemptCount
    && AttemptAgrees(u, u.attemptCount, a)
    && (if key in db.attempts then u.attemptCount == t.attemptCount && AttemptEvolves(db.attempts[key], a)
        else u.attemptCount == t.attemptCount + 1 && !t.status.Running?)
  }

  lemma PutNumbered(db: Db, id: TaskId, u: Task, a: Attempt)
    requires Valid(db) && id in db.tasks && TaskChecks(u)
    requires Replaces(db, db.tasks[id], u, AttemptKey(id, u.attemptCount), a)
    ensures Numbered(Put(db, id, u, u.attemptCount, a), id)
  {
    var after := Put(db, id, u, u.attemptCount, a);
    assert Numbered(db, id);
    forall n: int ensures AttemptKey(id, n) in after.attempts <==> 1 <= n <= u.attemptCount {
      assert AttemptKey(id, n) in db.attempts <==> 1 <= n <= db.tasks[id].attemptCount;
    }
    forall n: int | AttemptKey(id, n) in after.attempts
      ensures AttemptAgrees(u, n, after.attempts[AttemptKey(id, n)])
    {
      if n != u.attemptCount {
        assert AttemptAgrees(db.tasks[id], n, db.attempts[AttemptKey(id, n)]);
      }
    }
  }

  lemma PutOthers(db: Db, id: TaskId, u: Task, n: int, a: Attempt, o: TaskId)
    requires id in db.tasks && o in db.tasks && o != id && Numbered(db, o)
    ensures Numbered(Put(db, id, u, n, a), o)
  {
    var after := Put(db, id, u, n, a);
    forall m: int ensures AttemptKey(o, m) in after.attempts <==> AttemptKey(o, m) in db.attempts {
    }
  }

  lemma PutValid(db: Db, id: TaskId, u: Task, a: Attempt)
    requires Valid(db) && id in db.tasks && TaskChecks(u)
    requires Replaces(db, db.tasks[id], u, AttemptKey(id, u.attemptCount), a)
    ensures Valid(Put(db, id, u, u.attemptCount, a))
  {
    var after := Put(db, id, u, u.attemptCount, a);
    forall o | o in after.tasks ensures TaskChecks(after.tasks[o]) && Numbered(after, o) {
      if o == id {
        PutNumbered(db, id, u, a);
      } else {
        assert TaskChecks(db.tasks[o]) && Numbered(db, o);
        PutOthers(db, id, u, u.attemptCount, a, o);
      }
    }
  }

  lemma PutOk(db: Db, id: TaskId, u: Task, a: Attempt)
    requires Valid(db) && id in db.tasks && TaskChecks(u)
    requires Replaces(db, db.tasks[id], u, AttemptKey(id, u.attemptCount), a)
    requires TaskEvolves(db.tasks[id], u)
    requires StatusStep(db.tasks[id], u)
    ensures StepOk(db, Put(db, id, u, u.attemptCount, a))
  {
    PutValid(db, id, u, a);
    PutEvolves(db, id, u, u.attemptCount, a);
  }

  lemma PutEvolves(db: Db, id: TaskId, u: Task, n: int, a: Attempt)
    requires id in db.tasks && TaskEvolves(db.tasks[id], u)
    requires forall o | o in db.tasks :: TaskChecks(db.tasks[o])
    requires AttemptKey(id, n) in db.attempts ==> AttemptEvolves(db.attempts[AttemptKey(id, n)], a)
    ensures DbEvolves(db, Put(db, id, u, n, a))
  {
    var after := Put(db, id, u, n, a);
    forall o | o in db.tasks ensures o in after.tasks && TaskEvolves(db.tasks[o], after.tasks[o]) {
      if o != id { assert after.tasks[o] == db.tasks[o]; TaskStays(db.tasks[o]); }
    }
  }

  lemma TaskStays(t: Task)
    requires TaskChecks(t)
    ensures TaskEvolves(t, t)
  {
  }

  lemma NothingOk(db: Db)
    requires Valid(db)
    ensures StepOk(db, db)
  {
  }

  // ---------------------------------------------------------------- transactions

  lemma CreateOk(db: Db, id: TaskId, taskType: string, maxAttempts: int, at: Time)
    requires Valid(db)
    ensures StepOk(db, CreateTask(db, id, taskType, maxAttempts, at))
  {
    var after := CreateTask(db, id, taskType, maxAttempts, at);
    forall o | o in after.tasks ensures TaskChecks(after.tasks[o]) && Numbered(after, o) {
      if o in db.tasks {
        CreateOthers(db, after, o);
      } else {
        assert forall n: int :: AttemptKey(o, n) !in db.attempts;
      }
    }
    CreateEvolves(db, after);
  }

  lemma CreateOthers(db: Db, after: Db, o: TaskId)
    requires o in db.tasks && o in after.tasks && after.attempts == db.attempts
    requires after.tasks[o] == db.tasks[o] && TaskChecks(db.tasks[o]) && Numbered(db, o)
    ensures TaskChecks(after.tasks[o]) && Numbered(after, o)
  {
  }

  lemma CreateEvolves(db: Db, after: Db)
    requires forall o | o in db.tasks :: TaskChecks(db.tasks[o])
    requires after.attempts == db.attempts
    requires forall o | o in db.tasks :: o in after.tasks && after.tasks[o] == db.tasks[o]
    ensures DbEvolves(db, after) && EdgesOnly(db, after)
  {
    forall o | o in db.tasks ensures TaskEvolves(db.tasks[o], after.tasks[o]) { TaskStays(db.tasks[o]); }
  }

  lemma ApproveOk(db: Db, id: TaskId, now: Time)
    requires Valid(db)
    ensures StepOk(db, ApproveTask(db, id, now).0)
  {
    if id in db.tasks && db.tasks[id].status.PendingApproval? {
      assert ApplyTaskCommand(PendingApproval, Approve) == Some(Approved);
      TaskUpdateOk(db, id, ApproveTask(db, id, now).0.tasks[id]);
    }
  }

  lemma CancelOk(db: Db, id: TaskId, now: Time)
    requires Valid(db)
    ensures StepOk(db, CancelTask(db, id, now).0)
  {
    if id in db.tasks && CancelTask(db, id, now).0 != db {
      var t := db.tasks[id];
      var u := CancelTask(db, id, now).0.tasks[id];
      assert ApplyTaskCommand(t.status, Cancel) == Some(u.status);
      TaskUpdateOk(db, id, u);
    }
  }

  lemma ClaimOk(db: Db, types: set<string>, worker: string, token: string, lease: Time, due: Time, now: Time)
    requires Valid(db)
    ensures StepOk(db, ClaimOne(db, types, worker, token, lease, due, now).0)
  {
    NextClaimIsFirst(db, types, due);
    match NextClaim(db, types, due)
    case None =>
    case Some(id) =>
      assert FirstClaimable(db, types, due, id);
      ClaimRowOk(db, id, worker, token, lease, now);
  }

  lemma ClaimRowOk(db: Db, id: TaskId, worker: string, token: string, lease: Time, now: Time)
    requires Valid(db) && id in db.tasks
    requires db.tasks[id].status.Approved? && db.tasks[id].attemptCount < db.tasks[id].maxAttempts
    ensures StepOk(db, ClaimRow(db, id, worker, token, lease, now).0)
    ensures ClaimRow(db, id, worker, token, lease, now).1.Claimed?
  {
    var t := db.tasks[id];
    assert Numbered(db, id);
    assert AttemptKey(id, t.attemptCount + 1) !in db.attempts;
    assert ApplyTaskCommand(Approved, Start) == Some(Running);
    var after := ClaimRow(db, id, worker, token, lease, now).0;
    PutOk(db, id, after.tasks[id], after.attempts[AttemptKey(id, t.attemptCount + 1)]);
  }

  lemma HeartbeatOk(db: Db, f: ExecutionFence, lease: Time, now: Time)
    requires Valid(db)
    ensures StepOk(db, Heartbeat(db, f, lease, now).0)
  {
    if ActiveFence(db, f, now) && RunningAttempt(db, f.Key(), f.leaseToken) {
      assert Numbered(db, f.taskId);
      var after := Heartbeat(db, f, lease, now).0;
      assert AttemptAgrees(db.tasks[f.taskId], f.attemptNumber, db.attempts[f.Key()]);
      PutOk(db, f.taskId, after.tasks[f.taskId], after.attempts[f.Key()]);
    }
  }

  /** What a finalization must write for the agreement to survive. */
  ghost predicate ClosingOk(c: Closing, cancelled: bool) {
    && !c.status.Running? && !c.attemptStatus.InProgress?
    && CommandEdge(Running, c.status)
    && (c.status.Approved? ==> c.availableAt.Some?)
    && (c.status.Succeeded? <==> c.result.Some?)
    && (cancelled ==> c.status.Cancelled?)
  }

  lemma CloseOk(db: Db, id: TaskId, c: Closing, now: Time)
    requires Valid(db) && id in db.tasks && db.tasks[id].status.Running?
    requires ClosingOk(c, db.tasks[id].cancellationRequestedAt.Some?)
    requires AttemptKey(id, db.tasks[id].attemptCount) in db.attempts
    ensures
      var t := db.tasks[id];
      StepOk(db, Put(db, id, CloseTask(t, c, now), t.attemptCount,
                     CloseAttempt(db.attempts[AttemptKey(id, t.attemptCount)], c, now)))
  {
    var t := db.tasks[id];
    assert Numbered(db, id);
    assert AttemptAgrees(t, t.attemptCount, db.attempts[AttemptKey(id, t.attemptCount)]);
    PutOk(db, id, CloseTask(t, c, now), CloseAttempt(db.attempts[AttemptKey(id, t.attemptCount)], c, now));
  }

  lemma RunningEdges()
    ensures CommandEdge(Running, Succeeded) && CommandEdge(Running, Approved)
    ensures CommandEdge(Running, Failed) && CommandEdge(Running, Cancelled)
  {
    assert ApplyTaskCommand(Running, Succeed) == Some(Succeeded);
    assert ApplyTaskCommand(Running, Retry) == Some(Approved);
    assert ApplyTaskCommand(Running, Fail) == Some(Failed);
    assert ApplyTaskCommand(Running, FinishCancellation) == Some(Cancelled);
  }

  lemma FinalizeOk(db: Db, f: ExecutionFence, required: bool, c: Closing, now: Time)
    requires Valid(db) && ClosingOk(c, required)
    ensures StepOk(db, Finalize(db, f, required, c, now).0)
  {
    if Finalize(db, f, required, c, now).1.Applied? {
      CloseOk(db, f.taskId, c, now);
    } else {
      assert Finalize(db, f, required, c, now).0 == db;
      NothingOk(db);
    }
  }

  lemma RecoverOk(db: Db, delay: Time, now: Time)
    requires Valid(db)
    ensures StepOk(db, RecoverOneExpired(db, delay, now).0)
  {
    NextExpiredIsFirst(db, now);
    match NextExpired(db, now)
    case None =>
    case Some(id) =>
      assert FirstExpired(db, now, id);
      RecoverRowOk(db, id, delay, now);
  }

  lemma RecoverRowOk(db: Db, id: TaskId, delay: Time, now: Time)
    requires Valid(db) && id in db.tasks && db.tasks[id].status.Running?
    ensures StepOk(db, RecoverRow(db, id, delay, now).0)
    ensures RecoverRow(db, id, delay, now).1 == Recovered(id, RecoveryClosing(db.tasks[id], delay, now).status)
  {
    var t := db.tasks[id];
    assert Numbered(db, id);
    var key := AttemptKey(id, t.attemptCount);
    assert key in db.attempts && AttemptAgrees(t, t.attemptCount, db.attempts[key]);
    RunningEdges();
    CloseOk(db, id, RecoveryClosing(t, delay, now), now);
  }

  lemma ClosingsOk(outcome: string, at: Time, code: string, summary: string, reason: string)
    ensures ClosingOk(SuccessClosing(outcome), false)
    ensures ClosingOk(RetryClosing(at, code, summary, reason), false)
    ensures ClosingOk(FailureClosing(code, summary, reason), false)
    ensures ClosingOk(CancellationClosing, true)
  {
    RunningEdges();
  }

  lemma SuccessOk(db: Db, f: ExecutionFence, outcome: string, now: Time)
    requires Valid(db)
    ensures StepOk(db, FinalizeSuccess(db, f, outcome, now).0)
  {
    ClosingsOk(outcome, 0, "", "", "");
    FinalizeOk(db, f, false, SuccessClosing(outcome), now);
  }

  lemma RetryOk(db: Db, f: ExecutionFence, delay: Time, stamp: Time, now: Time,
                code: string, summary: string, reason: string)
    requires Valid(db)
    ensures StepOk(db, ScheduleRetry(db, f, delay, stamp, now, code, summary, reason).0)
  {
    ClosingsOk("", stamp + delay, code, summary, reason);
    FinalizeOk(db, f, false, RetryClosing(stamp + delay, code, summary, reason), now);
  }

  lemma FailureOk(db: Db, f: ExecutionFence, now: Time, code: string, summary: string, reason: string)
    requires Valid(db)
    ensures StepOk(db, FinalizeFailure(db, f, now, code, summary, reason).0)
  {
    ClosingsOk("", 0, code, summary, reason);
    FinalizeOk(db, f, false, FailureClosing(code, summary, reason), now);
  }

  lemma AcknowledgeOk(db: Db, f: ExecutionFence, now: Time)
    requires Valid(db)
    ensures StepOk(db, FinalizeCancellation(db, f, now).0)
  {
    ClosingsOk("", 0, "", "", "");
    FinalizeOk(db, f, true, CancellationClosing, now);
  }

  /** Every transaction keeps every constraint, the agreement, and the order between old and new state. */
  lemma ApplyOk(db: Db, txn: Txn)
    requires Valid(db)
    ensures StepOk(db, Apply(db, txn))
  {
    match txn
    case Create(id, taskType, maxAttempts, now) => CreateOk(db, id, taskType, maxAttempts, now);
    case Approval(id, now) => ApproveOk(db, id, now);
    case Cancellation(id, now) => CancelOk(db, id, now);
    case Claim(types, worker, token, lease, due, now) => ClaimOk(db, types, worker, token, lease, due, now);
    case Beat(f, lease, now) => HeartbeatOk(db, f, lease, now);
    case Recover(delay, now) => RecoverOk(db, delay, now);
    case Success(f, outcome, now) => SuccessOk(db, f, outcome, now);
    case Retrying(f, delay, stamp, now, code, summary, reason) =>
      RetryOk(db, f, delay, stamp, now, code, summary, reason);
    case Failure(f, now, code, summary, reason) => FailureOk(db, f, now, code, summary, reason);
    case AcknowledgeCancel(f, now) => AcknowledgeOk(db, f, now);
  }

  // ---------------------------------------------------------------- whole runs

  lemma EvolvesTransitive(a: Db, b: Db, c: Db)
    requires DbEvolves(a, b) && DbEvolves(b, c)
    ensures DbEvolves(a, c)
  {
  }

  /** Every run from a valid state stays valid, and its end is ordered after its start. */
  lemma {:induction false} RunOk(db: Db, txns: seq<Txn>)
    requires Valid(db)
    ensures Valid(Run(db, txns)) && DbEvolves(db, Run(db, txns))
    decreases |txns|
  {
    if txns == [] {
      NothingOk(db);
    } else {
      ApplyOk(db, txns[0]);
      RunOk(Apply(db, txns[0]), txns[1..]);
      EvolvesTransitive(db, Apply(db, txns[0]), Run(db, txns));
    }
  }

  /** Every state reachable from the empty tables satisfies every constraint and the task/attempt agreement. */
  lemma ReachableIsValid(txns: seq<Txn>)
    ensures Valid(Run(EmptyDb, txns))
  {
    RunOk(EmptyDb, txns);
  }

  // ---------------------------------------------------------------- fencing

  /** Once an attempt is closed, its fence matches nothing, whatever the clock reads and whatever ran since. */
  lemma ClosedAttemptFencesOut(db: Db, f: ExecutionFence, txns: seq<Txn>, now: Time)
    requires Valid(db) && f.Key() in db.attempts && !db.attempts[f.Key()].status.InProgress?
    ensures !ActiveFence(Run(db, txns), f, now)
  {
    RunOk(db, txns);
    var after := Run(db, txns);
    assert f.taskId in after.tasks && Numbered(after, f.taskId);
    assert AttemptAgrees(after.tasks[f.taskId], f.attemptNumber, after.attempts[f.Key()]);
  }

  ghost predicate UsesFence(txn: Txn, f: ExecutionFence) {
    (txn.Beat? || txn.Success? || txn.Retrying? || txn.Failure? || txn.AcknowledgeCancel?) && txn.fence == f
  }

  /** A heartbeat or finalization of a closed attempt changes no row, at any later point of any run. */
  lemma StaleWorkerChangesNothing(db: Db, f: ExecutionFence, txns: seq<Txn>, txn: Txn)
    requires Valid(db) && f.Key() in db.attempts && !db.attempts[f.Key()].status.InProgress?
    requires UsesFence(txn, f)
    ensures Apply(Run(db, txns), txn) == Run(db, txns)
  {
    ClosedAttemptFencesOut(db, f, txns, txn.now);
  }

  // ---------------------------------------------------------------- cancellation is never lost

  /** After a cancel is recorded on a running task, every run keeps it, adds no attempt and moves no lease. */
  lemma CancellationIsNeverLost(db: Db, id: TaskId, txns: seq<Txn>)
    requires Valid(db) && id in db.tasks
    requires db.tasks[id].status.Running? && db.tasks[id].cancellationRequestedAt.Some?
    ensures id in Run(db, txns).tasks && CancellationHolds(db.tasks[id], Run(db, txns).tasks[id])
  {
    RunOk(db, txns);
  }

  /** While its lease lasts the owner's acknowledgement is accepted, and every other finalization is refused. */
  lemma OwnerMayAcknowledge(db: Db, f: ExecutionFence, c: Closing, now: Time)
    requires Valid(db) && ActiveFence(db, f, now) && db.tasks[f.taskId].cancellationRequestedAt.Some?
    ensures FinalizeCancellation(db, f, now).1 == Applied
    ensures FinalizeCancellation(db, f, now).0.tasks[f.taskId].status == Cancelled
    ensures Finalize(db, f, false, c, now) == (db, CancellationRequested)
  {
    assert Numbered(db, f.taskId);
    assert AttemptAgrees(db.tasks[f.taskId], f.attemptNumber, db.attempts[f.Key()]);
  }
}
