/**
 The attempt budget. The retry transaction does not look at it; the worker asks for a retry only while the claim's
 attempt number is below the claim's maximum. Under that discipline no approved task is stranded and every task
 comes to rest after a bounded number of status changes.
 */
module AttemptBudget {
  import opened Wrappers
  import opened TaskDomain
  import opened TaskStore
  import opened TaskInvariants

  ghost predicate Budgeted(db: Db) {
    && Valid(db)
    && forall id | id in db.tasks ::
      && (db.tasks[id].status.Approved? ==> db.tasks[id].attemptCount < db.tasks[id].maxAttempts)
      && (db.tasks[id].status.PendingApproval? ==> db.tasks[id].attemptCount == 0)
  }

  /** The test the worker makes before it asks for a retry; max_attempts never changes after creation. */
  ghost predicate Disciplined(db: Db, txn: Txn) {
    txn.Retrying? && txn.fence.taskId in db.tasks ==>
      txn.fence.attemptNumber < db.tasks[txn.fence.taskId].maxAttempts
  }

  ghost predicate DisciplinedRun(db: Db, txns: seq<Txn>)
    decreases |txns|
  {
    txns == [] || (Disciplined(db, txns[0]) && DisciplinedRun(Apply(db, txns[0]), txns[1..]))
  }

  lemma RecoverBudget(db: Db, delay: Time, now: Time)
    requires Budgeted(db)
    ensures Budgeted(RecoverOneExpired(db, delay, now).0)
  {
    RecoverOk(db, delay, now);
  }

  lemma ClaimBudget(db: Db, types: set<string>, worker: string, token: string, lease: Time, due: Time, now: Time)
    requires Budgeted(db)
    ensures Budgeted(ClaimOne(db, types, worker, token, lease, due, now).0)
  {
    ClaimOk(db, types, worker, token, lease, due, now);
  }

  /** A finalization changes the row of its own task at most, and leaves that with the closing's status. */
  lemma FinalizedRow(db: Db, f: ExecutionFence, required: bool, c: Closing, now: Time, id: TaskId)
    requires id in Finalize(db, f, required, c, now).0.tasks
    ensures id in db.tasks
    ensures
      var u := Finalize(db, f, required, c, now).0.tasks[id];
      || u == db.tasks[id]
      || (id == f.taskId && u.status == c.status && u.attemptCount == f.attemptNumber
          && u.maxAttempts == db.tasks[id].maxAttempts)
  {
  }

  lemma FinalizeBudget(db: Db, f: ExecutionFence, required: bool, c: Closing, now: Time)
    requires Budgeted(db) && ClosingOk(c, required)
    requires c.status.Approved? && f.taskId in db.tasks ==> f.attemptNumber < db.tasks[f.taskId].maxAttempts
    requires !c.status.PendingApproval?
    ensures Budgeted(Finalize(db, f, required, c, now).0)
  {
    FinalizeOk(db, f, required, c, now);
    var after := Finalize(db, f, required, c, now).0;
    forall id | id in after.tasks
      ensures after.tasks[id].status.Approved? ==> after.tasks[id].attemptCount < after.tasks[id].maxAttempts
      ensures after.tasks[id].status.PendingApproval? ==> after.tasks[id].attemptCount == 0
    {
      FinalizedRow(db, f, required, c, now, id);
    }
  }

  lemma CreateBudget(db: Db, id: TaskId, taskType: string, maxAttempts: int, at: Time)
    requires Budgeted(db)
    ensures Budgeted(CreateTask(db, id, taskType, maxAttempts, at))
  {
    CreateOk(db, id, taskType, maxAttempts, at);
  }

  lemma ApproveBudget(db: Db, id: TaskId, now: Time)
    requires Budgeted(db)
    ensures Budgeted(ApproveTask(db, id, now).0)
  {
    ApproveOk(db, id, now);
  }

  lemma CancelBudget(db: Db, id: TaskId, now: Time)
    requires Budgeted(db)
    ensures Budgeted(CancelTask(db, id, now).0)
  {
    CancelOk(db, id, now);
  }

  lemma HeartbeatBudget(db: Db, f: ExecutionFence, lease: Time, now: Time)
    requires Budgeted(db)
    ensures Budgeted(Heartbeat(db, f, lease, now).0)
  {
    HeartbeatOk(db, f, lease, now);
  }

  lemma SuccessBudget(db: Db, f: ExecutionFence, outcome: string, now: Time)
    requires Budgeted(db)
    ensures Budgeted(FinalizeSuccess(db, f, outcome, now).0)
  {
    ClosingsOk(outcome, 0, "", "", "");
    FinalizeBudget(db, f, false, SuccessClosing(outcome), now);
  }

  lemma RetryBudget(db: Db, f: ExecutionFence, delay: Time, stamp: Time, now: Time,
                    code: string, summary: string, reason: string)
    requires Budgeted(db)
    requires f.taskId in db.tasks ==> f.attemptNumber < db.tasks[f.taskId].maxAttempts
    ensures Budgeted(ScheduleRetry(db, f, delay, stamp, now, code, summary, reason).0)
  {
    ClosingsOk("", stamp + delay, code, summary, reason);
    FinalizeBudget(db, f, false, RetryClosing(stamp + delay, code, summary, reason), now);
  }

  lemma FailureBudget(db: Db, f: ExecutionFence, now: Time, code: string, summary: string, reason: string)
    requires Budgeted(db)
    ensures Budgeted(FinalizeFailure(db, f, now, code, summary, reason).0)
  {
    ClosingsOk("", 0, code, summary, reason);
    FinalizeBudget(db, f, false, FailureClosing(code, summary, reason), now);
  }

  lemma AcknowledgeBudget(db: Db, f: ExecutionFence, now: Time)
    requires Budgeted(db)
    ensures Budgeted(FinalizeCancellation(db, f, now).0)
  {
    ClosingsOk("", 0, "", "", "");
    FinalizeBudget(db, f, true, CancellationClosing, now);
  }

  /** The joint invariant of worker and repository: an approved task always has an attempt left. */
  lemma ApplyBudget(db: Db, txn: Txn)
    requires Budgeted(db) && Disciplined(db, txn)
    ensures Budgeted(Apply(db, txn))
  {
    match txn
    case Claim(types, worker, token, lease, due, now) => ClaimBudget(db, types, worker, token, lease, due, now);
    case Recover(delay, now) => RecoverBudget(db, delay, now);
    case Success(f, outcome, now) => SuccessBudget(db, f, outcome, now);
    case Retrying(f, delay, stamp, now, code, summary, reason) =>
      RetryBudget(db, f, delay, stamp, now, code, summary, reason);
    case Failure(f, now, code, summary, reason) => FailureBudget(db, f, now, code, summary, reason);
    case AcknowledgeCancel(f, now) => AcknowledgeBudget(db, f, now);
    case Create(id, taskType, maxAttempts, now) => CreateBudget(db, id, taskType, maxAttempts, now);
    case Approval(id, now) => ApproveBudget(db, id, now);
    case Cancellation(id, now) => CancelBudget(db, id, now);
    case Beat(f, lease, now) => HeartbeatBudget(db, f, lease, now);
  }

  lemma {:induction false} RunBudget(db: Db, txns: seq<Txn>)
    requires Budgeted(db) && DisciplinedRun(db, txns)
    ensures Budgeted(Run(db, txns))
    decreases |txns|
  {
    if txns != [] {
      ApplyBudget(db, txns[0]);
      RunBudget(Apply(db, txns[0]), txns[1..]);
    }
  }

  /** No approved task is stranded: in every disciplined run, a claimer of its type finds it once it is due. */
  lemma NoStrandedTask(txns: seq<Txn>, id: TaskId, types: set<string>, due: Time)
    requires DisciplinedRun(EmptyDb, txns)
    requires id in Run(EmptyDb, txns).tasks && Run(EmptyDb, txns).tasks[id].status.Approved?
    requires Run(EmptyDb, txns).tasks[id].taskType in types
    requires Stamp(Run(EmptyDb, txns).tasks[id].availableAt) <= due
    ensures id in ClaimableSet(Run(EmptyDb, txns), types, due)
    ensures NextClaim(Run(EmptyDb, txns), types, due).Some?
  {
    RunBudget(EmptyDb, txns);
    NextClaimIsFirst(Run(EmptyDb, txns), types, due);
  }

  /** Without the worker's test the property fails exactly when the retried attempt was the last one allowed. */
  lemma RetryStrandsIff(db: Db, f: ExecutionFence, delay: Time, stamp: Time, now: Time,
                        code: string, summary: string, reason: string, due: Time)
    requires Valid(db) && ScheduleRetry(db, f, delay, stamp, now, code, summary, reason).1.Applied?
    requires stamp + delay <= due
    ensures
      var after := ScheduleRetry(db, f, delay, stamp, now, code, summary, reason).0;
      && after.tasks[f.taskId].status.Approved?
      && (f.taskId in ClaimableSet(after, {after.tasks[f.taskId].taskType}, due)
          <==> f.attemptNumber < db.tasks[f.taskId].maxAttempts)
  {
  }

  // ---------------------------------------------------------------- termination

  function Measure(t: Task): int {
    match t.status
    case PendingApproval => 2 * t.maxAttempts + 1
    case Approved => 2 * (t.maxAttempts - t.attemptCount)
    case Running => 2 * (t.maxAttempts - t.attemptCount) + 1
    case _ => 0
  }

  function Changed(t: Task, u: Task): nat { if t.status == u.status then 0 else 1 }

  /** Every status change costs at least one unit of the measure; nothing else raises it. */
  lemma MeasureDrops(db: Db, txn: Txn, id: TaskId)
    requires Budgeted(db) && Disciplined(db, txn) && id in db.tasks
    ensures id in Apply(db, txn).tasks
    ensures Measure(Apply(db, txn).tasks[id]) + Changed(db.tasks[id], Apply(db, txn).tasks[id]) <= Measure(db.tasks[id])
    ensures Measure(db.tasks[id]) >= 0
  {
    ApplyOk(db, txn);
    ApplyBudget(db, txn);
    MeasureStep(db.tasks[id], Apply(db, txn).tasks[id]);
  }

  lemma MeasureStep(t: Task, u: Task)
    requires TaskChecks(t) && TaskChecks(u) && StatusStep(t, u) && u.maxAttempts == t.maxAttempts
    requires t.status.Approved? ==> t.attemptCount < t.maxAttempts
    requires t.status.PendingApproval? ==> t.attemptCount == 0
    ensures Measure(u) + Changed(t, u) <= Measure(t)
  {
  }

  ghost function StatusChanges(db: Db, txns: seq<Txn>, id: TaskId): nat
    decreases |txns|
  {
    if txns == [] then 0
    else
      var next := Apply(db, txns[0]);
      (if id in db.tasks && id in next.tasks then Changed(db.tasks[id], next.tasks[id]) else 0)
      + StatusChanges(next, txns[1..], id)
  }

  lemma {:induction false} ChangesBounded(db: Db, txns: seq<Txn>, id: TaskId)
    requires Budgeted(db) && DisciplinedRun(db, txns) && id in db.tasks
    ensures StatusChanges(db, txns, id) <= Measure(db.tasks[id])
    decreases |txns|
  {
    MeasureDrops(db, Create(id, "", 0, 0), id);
    if txns != [] {
      MeasureDrops(db, txns[0], id);
      ApplyBudget(db, txns[0]);
      ChangesBounded(Apply(db, txns[0]), txns[1..], id);
    }
  }

  /** The transaction is a claim that hands out this task. */
  ghost predicate Takes(db: Db, txn: Txn, id: TaskId) {
    && txn.Claim?
    && var reply := ClaimOne(db, txn.types, txn.worker, txn.token, txn.lease, txn.due, txn.now).1;
    && reply.Claimed? && reply.claim.fence.taskId == id
  }

  ghost function TimesTaken(db: Db, txns: seq<Txn>, id: TaskId): nat
    decreases |txns|
  {
    if txns == [] then 0
    else (if Takes(db, txns[0], id) then 1 else 0) + TimesTaken(Apply(db, txns[0]), txns[1..], id)
  }

  lemma FinalizeTakesNothing(db: Db, f: ExecutionFence, required: bool, c: Closing, now: Time, id: TaskId)
    requires id in db.tasks
    ensures Finalize(db, f, required, c, now).0.tasks.Keys == db.tasks.Keys
    ensures Finalize(db, f, required, c, now).0.tasks[id].attemptCount == db.tasks[id].attemptCount
  {
  }

  lemma RecoverTakesNothing(db: Db, delay: Time, now: Time, id: TaskId)
    requires id in db.tasks
    ensures RecoverOneExpired(db, delay, now).0.tasks.Keys == db.tasks.Keys
    ensures RecoverOneExpired(db, delay, now).0.tasks[id].attemptCount == db.tasks[id].attemptCount
  {
    NextExpiredIsFirst(db, now);
  }

  /** An attempt is added by the claims that hand out the task, and by nothing else. */
  lemma TakingAddsAttempt(db: Db, txn: Txn, id: TaskId)
    requires Valid(db) && id in db.tasks
    ensures id in Apply(db, txn).tasks
    ensures Apply(db, txn).tasks[id].attemptCount == db.tasks[id].attemptCount + (if Takes(db, txn, id) then 1 else 0)
  {
    match txn
    case Claim(types, _, _, _, due, _) => NextClaimIsFirst(db, types, due);
    case Recover(delay, now) => RecoverTakesNothing(db, delay, now, id);
    case Success(f, outcome, now) => FinalizeTakesNothing(db, f, false, SuccessClosing(outcome), now, id);
    case Retrying(f, delay, stamp, now, code, summary, reason) =>
      FinalizeTakesNothing(db, f, false, RetryClosing(stamp + delay, code, summary, reason), now, id);
    case Failure(f, now, code, summary, reason) =>
      FinalizeTakesNothing(db, f, false, FailureClosing(code, summary, reason), now, id);
    case AcknowledgeCancel(f, now) => FinalizeTakesNothing(db, f, true, CancellationClosing, now, id);
    case _ =>
  }

  lemma {:induction false} AttemptsCountClaims(db: Db, txns: seq<Txn>, id: TaskId)
    requires Valid(db) && id in db.tasks
    ensures id in Run(db, txns).tasks
    ensures Run(db, txns).tasks[id].attemptCount == db.tasks[id].attemptCount + TimesTaken(db, txns, id)
    decreases |txns|
  {
    if txns != [] {
      TakingAddsAttempt(db, txns[0], id);
      ApplyOk(db, txns[0]);
      AttemptsCountClaims(Apply(db, txns[0]), txns[1..], id);
    }
  }

  /** A new task changes status at most 2 * max_attempts + 1 times and is claimed at most max_attempts times. */
  lemma TaskComesToRest(db: Db, id: TaskId, taskType: string, maxAttempts: int, at: Time, txns: seq<Txn>)
    requires Budgeted(db) && id !in db.tasks && maxAttempts >= 1
    requires DisciplinedRun(CreateTask(db, id, taskType, maxAttempts, at), txns)
    ensures
      var start := CreateTask(db, id, taskType, maxAttempts, at);
      && StatusChanges(start, txns, id) <= 2 * maxAttempts + 1
      && TimesTaken(start, txns, id) <= maxAttempts
      && id in Run(start, txns).tasks
      && Run(start, txns).tasks[id].attemptCount == TimesTaken(start, txns, id)
  {
    CreateBudget(db, id, taskType, maxAttempts, at);
    var start := CreateTask(db, id, taskType, maxAttempts, at);
    ChangesBounded(start, txns, id);
    AttemptsCountClaims(start, txns, id);
    RunOk(start, txns);
    assert TaskChecks(Run(start, txns).tasks[id]);
  }
}
