/**
 Tasks and their attempts, and the short transactions that change them.

 Each transaction is a function from the old tables to the new tables and the reply. Clock readings are
 arguments: nothing in this module assumes that they increase. An exception inside a transaction rolls it back,
 so the replies ending in Raised come with the old tables.
 */
module TaskStore {
  import opened Wrappers
  import opened TaskDomain
  import opened OrderedSelection

  /** A UUID primary key; the database orders rows by it. */
  datatype TaskId = TaskId(bits: int)

  type Time = int

  datatype Task = Task(
    taskType: string,
    status: TaskStatus,
    attemptCount: int,
    maxAttempts: int,
    availableAt: Option<Time>,
    workerId: Option<string>,
    leaseToken: Option<string>,
    leaseExpiresAt: Option<Time>,
    lastHeartbeatAt: Option<Time>,
    cancellationRequestedAt: Option<Time>,
    result: Option<string>,
    errorCode: Option<string>,
    errorSummary: Option<string>,
    createdAt: Time,
    updatedAt: Time)

  /** The unique constraint on (task, attempt number) makes the pair the key of the attempt table. */
  datatype AttemptKey = AttemptKey(task: TaskId, number: int)

  datatype Attempt = Attempt(
    workerId: string,
    leaseToken: string,
    status: AttemptStatus,
    startedAt: Time,
    lastHeartbeatAt: Time,
    finishedAt: Option<Time>,
    errorCode: Option<string>,
    errorSummary: Option<string>,
    terminalReason: Option<string>)

  datatype Db = Db(tasks: map<TaskId, Task>, attempts: map<AttemptKey, Attempt>)

  datatype ExecutionFence = ExecutionFence(
    taskId: TaskId, attemptNumber: int, workerId: string, leaseToken: string)
  {
    function Key(): AttemptKey { AttemptKey(taskId, attemptNumber) }
  }

  datatype ClaimedTask = ClaimedTask(fence: ExecutionFence, maxAttempts: int, taskType: string)

  datatype ServiceReply = Accepted | NotFound | InvalidTransition
  datatype ClaimReply = NothingDue | Claimed(claim: ClaimedTask) | ClaimRaised
  datatype HeartbeatReply = Active | CancellationPending | HeartbeatRaised
  datatype FenceReply = Applied | CancellationRequested | Stale | FinalizeRaised
  datatype RecoveryReply = NothingExpired | Recovered(taskId: TaskId, newStatus: TaskStatus) | RecoveryRaised

  const EmptyDb := Db(map[], map[])

  function Max(a: Time, b: Time): Time { if a < b then b else a }

  function NextUpdatedAt(current: Time, now: Time): Time { Max(now, current + 1) }

  function Put(db: Db, id: TaskId, t: Task, n: int, a: Attempt): Db {
    Db(db.tasks[id := t], db.attempts[AttemptKey(id, n) := a])
  }

  // ---------------------------------------------------------------- fences

  predicate ActiveFence(db: Db, f: ExecutionFence, now: Time) {
    && f.taskId in db.tasks
    && var t := db.tasks[f.taskId];
    && t.status.Running?
    && t.workerId == Some(f.workerId)
    && t.attemptCount == f.attemptNumber
    && t.leaseToken == Some(f.leaseToken)
    && t.leaseExpiresAt.Some?
    && t.leaseExpiresAt.value > now
  }

  /** The row the attempt updates of heartbeat and finalization select. */
  predicate RunningAttempt(db: Db, key: AttemptKey, token: string) {
    && key in db.attempts
    && db.attempts[key].leaseToken == token
    && db.attempts[key].status.InProgress?
  }

  // ---------------------------------------------------------------- public commands

  function CreateTask(db: Db, id: TaskId, taskType: string, maxAttempts: int, at: Time): Db {
    if id in db.tasks || maxAttempts < 1 then db
    else
      db.(tasks := db.tasks[id := Task(taskType, PendingApproval, 0, maxAttempts, None, None, None, None, None,
                                       None, None, None, None, at, at)])
  }

  function ApproveTask(db: Db, id: TaskId, now: Time): (Db, ServiceReply) {
    if id !in db.tasks then (db, NotFound)
    else
      var t := db.tasks[id];
      match ApplyTaskCommand(t.status, Approve)
      case None => (db, InvalidTransition)
      case Some(s) =>
        if s == t.status then (db, Accepted)
        else
          (db.(tasks := db.tasks[id := t.(status := s, availableAt := Some(now),
                                          updatedAt := NextUpdatedAt(t.updatedAt, now))]),
           Accepted)
  }

  function CancelTask(db: Db, id: TaskId, now: Time): (Db, ServiceReply) {
    if id !in db.tasks then (db, NotFound)
    else
      var t := db.tasks[id];
      match DecideCancellation(t.status, t.cancellationRequestedAt.Some?)
      case None => (db, InvalidTransition)
      case Some(d) =>
        if d.newStatus == t.status && !d.requestCancellation then (db, Accepted)
        else
          (db.(tasks := db.tasks[id := t.(
                                 status := d.newStatus,
                                 cancellationRequestedAt :=
                                 if d.requestCancellation then Some(now) else t.cancellationRequestedAt,
                                 availableAt := if d.newStatus.Cancelled? then None else t.availableAt,
                                 updatedAt := NextUpdatedAt(t.updatedAt, now))]),
           Accepted)
  }

  // ---------------------------------------------------------------- ordered selection

  function Stamp(o: Option<Time>): Time { if o.Some? then o.value else 0 }

  /** ORDER BY available_at, created_at, id. */
  function ClaimKey(db: Db, id: TaskId): QueueKey {
    if id in db.tasks then QueueKey(Stamp(db.tasks[id].availableAt), db.tasks[id].createdAt, id.bits)
    else QueueKey(0, 0, id.bits)
  }

  /** ORDER BY lease_expires_at, id. */
  function ExpiryKey(db: Db, id: TaskId): QueueKey {
    if id in db.tasks then QueueKey(Stamp(db.tasks[id].leaseExpiresAt), id.bits, 0) else QueueKey(0, id.bits, 0)
  }

  function ClaimableSet(db: Db, types: set<string>, due: Time): set<TaskId> {
    set id | id in db.tasks
             && db.tasks[id].status.Approved?
             && db.tasks[id].availableAt.Some? && db.tasks[id].availableAt.value <= due
             && db.tasks[id].attemptCount < db.tasks[id].maxAttempts
             && db.tasks[id].taskType in types
  }

  function ExpiredSet(db: Db, now: Time): set<TaskId> {
    set id | id in db.tasks
             && db.tasks[id].status.Running?
             && db.tasks[id].leaseExpiresAt.Some? && db.tasks[id].leaseExpiresAt.value <= now
  }

  predicate FirstClaimable(db: Db, types: set<string>, due: Time, id: TaskId) {
    FirstBy(ClaimableSet(db, types, due), o => ClaimKey(db, o), id)
  }

  predicate FirstExpired(db: Db, now: Time, id: TaskId) {
    FirstBy(ExpiredSet(db, now), o => ExpiryKey(db, o), id)
  }

  ghost function NextClaim(db: Db, types: set<string>, due: Time): Option<TaskId> {
    if exists id :: FirstClaimable(db, types, due, id) then
      var id :| FirstClaimable(db, types, due, id); Some(id)
    else None
  }

  ghost function NextExpired(db: Db, now: Time): Option<TaskId> {
    if exists id :: FirstExpired(db, now, id) then
      var id :| FirstExpired(db, now, id); Some(id)
    else None
  }

  lemma NextClaimIsFirst(db: Db, types: set<string>, due: Time)
    ensures NextClaim(db, types, due).None? <==> forall id :: id !in ClaimableSet(db, types, due)
    ensures forall id :: FirstClaimable(db, types, due, id) <==> NextClaim(db, types, due) == Some(id)
  {
    var key := (o: TaskId) => ClaimKey(db, o);
    if x :| x in ClaimableSet(db, types, due) {
      FirstExists(ClaimableSet(db, types, due), key, x);
      var id :| FirstBy(ClaimableSet(db, types, due), key, id);
      assert FirstClaimable(db, types, due, id);
    }
    forall a, b | FirstClaimable(db, types, due, a) && FirstClaimable(db, types, due, b) ensures a == b {
      FirstIsUnique(ClaimableSet(db, types, due), o => ClaimKey(db, o), a, b);
    }
  }

  lemma NextExpiredIsFirst(db: Db, now: Time)
    ensures NextExpired(db, now).None? <==> forall id :: id !in ExpiredSet(db, now)
    ensures forall id :: FirstExpired(db, now, id) <==> NextExpired(db, now) == Some(id)
  {
    var key := (o: TaskId) => ExpiryKey(db, o);
    if x :| x in ExpiredSet(db, now) {
      FirstExists(ExpiredSet(db, now), key, x);
      var id :| FirstBy(ExpiredSet(db, now), key, id);
      assert FirstExpired(db, now, id);
    }
    forall a, b | FirstExpired(db, now, a) && FirstExpired(db, now, b) ensures a == b {
      FirstIsUnique(ExpiredSet(db, now), o => ExpiryKey(db, o), a, b);
    }
  }

  // ---------------------------------------------------------------- worker transactions

  function ClaimRow(db: Db, id: TaskId, worker: string, token: string, lease: Time, now: Time): (Db, ClaimReply)
    requires id in db.tasks
  {
    var t := db.tasks[id];
    var n := t.attemptCount + 1;
    if ApplyTaskCommand(t.status, Start) != Some(Running) || AttemptKey(id, n) in db.attempts then (db, ClaimRaised)
    else
      (Put(db, id,
           t.(status := Running, workerId := Some(worker), leaseToken := Some(token),
           leaseExpiresAt := Some(now + lease), lastHeartbeatAt := Some(now), availableAt := None,
           attemptCount := n, updatedAt := NextUpdatedAt(t.updatedAt, now), result := None),
           n, Attempt(worker, token, InProgress, now, now, None, None, None, None)),
       Claimed(ClaimedTask(ExecutionFence(id, n, worker, token), t.maxAttempts, t.taskType)))
  }

  /** The due test and the lease use two readings of the clock, `due` and `now`. */
  ghost function ClaimOne(db: Db, types: set<string>, worker: string, token: string, lease: Time, due: Time, now: Time)
    : (Db, ClaimReply)
  {
    match NextClaim(db, types, due)
    case None => (db, NothingDue)
    case Some(id) => if id in db.tasks then ClaimRow(db, id, worker, token, lease, now) else (db, NothingDue)
  }

  function Heartbeat(db: Db, f: ExecutionFence, lease: Time, now: Time): (Db, HeartbeatReply) {
    if !ActiveFence(db, f, now) || !RunningAttempt(db, f.Key(), f.leaseToken) then (db, HeartbeatRaised)
    else
      var t := db.tasks[f.taskId];
      var cancelled := t.cancellationRequestedAt.Some?;
      (Put(db, f.taskId,
           t.(lastHeartbeatAt := Some(now),
           leaseExpiresAt := if cancelled then t.leaseExpiresAt else Some(now + lease)),
           f.attemptNumber, db.attempts[f.Key()].(lastHeartbeatAt := now)),
       if cancelled then CancellationPending else Active)
  }

  /** The columns a finalization writes; a None error leaves the attempt's error columns as they are. */
  datatype Closing = Closing(
    status: TaskStatus,
    availableAt: Option<Time>,
    result: Option<string>,
    errorCode: Option<string>,
    errorSummary: Option<string>,
    attemptStatus: AttemptStatus,
    attemptError: Option<(string, string)>,
    terminalReason: string)

  function CloseTask(t: Task, c: Closing, now: Time): Task {
    t.(status := c.status, availableAt := c.availableAt, result := c.result, errorCode := c.errorCode,
    errorSummary := c.errorSummary, workerId := None, leaseToken := None, leaseExpiresAt := None,
    lastHeartbeatAt := None, updatedAt := NextUpdatedAt(t.updatedAt, now))
  }

  function CloseAttempt(a: Attempt, c: Closing, now: Time): Attempt {
    a.(status := c.attemptStatus, finishedAt := Some(now), terminalReason := Some(c.terminalReason),
    errorCode := if c.attemptError.Some? then Some(c.attemptError.value.0) else a.errorCode,
    errorSummary := if c.attemptError.Some? then Some(c.attemptError.value.1) else a.errorSummary)
  }

  function Finalize(db: Db, f: ExecutionFence, requiredCancellation: bool, c: Closing, now: Time): (Db, FenceReply) {
    if !ActiveFence(db, f, now) then (db, Stale)
    else
      var t := db.tasks[f.taskId];
      if t.cancellationRequestedAt.Some? != requiredCancellation then
        (db, if t.cancellationRequestedAt.Some? then CancellationRequested else Stale)
      else if !RunningAttempt(db, f.Key(), f.leaseToken) then (db, FinalizeRaised)
      else
        (Put(db, f.taskId, CloseTask(t, c, now), f.attemptNumber, CloseAttempt(db.attempts[f.Key()], c, now)), Applied)
  }

  function SuccessClosing(result: string): Closing {
    Closing(Succeeded, None, Some(result), None, None, AttemptSucceeded, None, "completed")
  }

  function RetryClosing(availableAt: Time, code: string, summary: string, reason: string): Closing {
    Closing(Approved, Some(availableAt), None, Some(code), Some(summary), RetryScheduled, Some((code, summary)), reason)
  }

  function FailureClosing(code: string, summary: string, reason: string): Closing {
    Closing(Failed, None, None, Some(code), Some(summary), AttemptFailed, Some((code, summary)), reason)
  }

  const CancellationClosing :=
    Closing(Cancelled, None, None, None, None, AttemptCancelled, None, "customer_cancellation")

  function FinalizeSuccess(db: Db, f: ExecutionFence, result: string, now: Time): (Db, FenceReply) {
    Finalize(db, f, false, SuccessClosing(result), now)
  }

  /** `stamp` is the clock reading of the new available_at, `now` the one of the fence. */
  function ScheduleRetry(db: Db, f: ExecutionFence, delay: Time, stamp: Time, now: Time,
                         code: string, summary: string, reason: string): (Db, FenceReply) {
    Finalize(db, f, false, RetryClosing(stamp + delay, code, summary, reason), now)
  }

  function FinalizeFailure(db: Db, f: ExecutionFence, now: Time, code: string, summary: string, reason: string)
    : (Db, FenceReply) {
    Finalize(db, f, false, FailureClosing(code, summary, reason), now)
  }

  function FinalizeCancellation(db: Db, f: ExecutionFence, now: Time): (Db, FenceReply) {
    Finalize(db, f, true, CancellationClosing, now)
  }

  function RecoveryClosing(t: Task, delay: Time, now: Time): Closing {
    var attemptError := Some(("lease_expired", "Worker lease expired before completion"));
    if t.cancellationRequestedAt.Some? then
      Closing(Cancelled, None, None, None, None, LeaseExpired, attemptError, "customer_cancellation")
    else if t.attemptCount >= t.maxAttempts then
      Closing(Failed, None, None, Some("lease_expired"), Some("Maximum attempts exhausted after lease expiration"),
              LeaseExpired, attemptError, "lease_expired")
    else
      Closing(Approved, Some(now + delay), None, Some("lease_expired"), Some("Worker lease expired; retry scheduled"),
              LeaseExpired, attemptError, "lease_expired")
  }

  function RecoverRow(db: Db, id: TaskId, delay: Time, now: Time): (Db, RecoveryReply)
    requires id in db.tasks
  {
    var t := db.tasks[id];
    if t.workerId.None? || t.leaseToken.None? || t.attemptCount <= 0 then (db, RecoveryRaised)
    else
      var key := AttemptKey(id, t.attemptCount);
      if !RunningAttempt(db, key, t.leaseToken.value) then (db, RecoveryRaised)
      else
        var c := RecoveryClosing(t, delay, now);
        (Put(db, id, CloseTask(t, c, now), t.attemptCount, CloseAttempt(db.attempts[key], c, now)),
         Recovered(id, c.status))
  }

  /** `delay` is the backoff the caller computes for the attempt found. */
  ghost function RecoverOneExpired(db: Db, delay: Time, now: Time): (Db, RecoveryReply) {
    match NextExpired(db, now)
    case None => (db, NothingExpired)
    case Some(id) => if id in db.tasks then RecoverRow(db, id, delay, now) else (db, NothingExpired)
  }

  // ---------------------------------------------------------------- runs

  datatype Txn =
    | Create(id: TaskId, taskType: string, maxAttempts: int, now: Time)
    | Approval(id: TaskId, now: Time)
    | Cancellation(id: TaskId, now: Time)
    | Claim(types: set<string>, worker: string, token: string, lease: Time, due: Time, now: Time)
    | Beat(fence: ExecutionFence, lease: Time, now: Time)
    | Success(fence: ExecutionFence, outcome: string, now: Time)
    | Retrying(fence: ExecutionFence, delay: Time, stamp: Time, now: Time,
               code: string, summary: string, reason: string)
    | Failure(fence: ExecutionFence, now: Time, code: string, summary: string, reason: string)
    | AcknowledgeCancel(fence: ExecutionFence, now: Time)
    | Recover(delay: Time, now: Time)

  ghost function Apply(db: Db, txn: Txn): Db {
    match txn
    case Create(id, taskType, maxAttempts, now) => CreateTask(db, id, taskType, maxAttempts, now)
    case Approval(id, now) => ApproveTask(db, id, now).0
    case Cancellation(id, now) => CancelTask(db, id, now).0
    case Claim(types, worker, token, lease, due, now) => ClaimOne(db, types, worker, token, lease, due, now).0
    case Beat(f, lease, now) => Heartbeat(db, f, lease, now).0
    case Success(f, outcome, now) => FinalizeSuccess(db, f, outcome, now).0
    case Retrying(f, delay, stamp, now, code, summary, reason) =>
      ScheduleRetry(db, f, delay, stamp, now, code, summary, reason).0
    case Failure(f, now, code, summary, reason) => FinalizeFailure(db, f, now, code, summary, reason).0
    case AcknowledgeCancel(f, now) => FinalizeCancellation(db, f, now).0
    case Recover(delay, now) => RecoverOneExpired(db, delay, now).0
  }

  ghost function Run(db: Db, txns: seq<Txn>): Db
    decreases |txns|
  {
    if txns == [] then db else Run(Apply(db, txns[0]), txns[1..])
  }
}
