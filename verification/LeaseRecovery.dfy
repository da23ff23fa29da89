/**
 What becomes of a lease whose owner no longer extends it: it stands as it is, becomes recoverable at its end, and
 recovery ends the attempt in every run that recovers often enough, whatever else the run does.
 */
module LeaseRecovery {
  import opened Wrappers
  import opened TaskDomain
  import opened OrderedSelection
  import opened TaskStore
  import opened TaskInvariants

  /** The running tasks that recovery takes before `id`. */
  ghost function ExpiresBefore(db: Db, id: TaskId): set<TaskId> {
    set o | o in db.tasks && db.tasks[o].status.Running? && Precedes(ExpiryKey(db, o), ExpiryKey(db, id))
  }

  /** A valid running row can always be recovered, and only its own task and its current attempt change. */
  lemma RecoverRowEnds(db: Db, id: TaskId, delay: Time, now: Time)
    requires id in db.tasks && TaskChecks(db.tasks[id]) && db.tasks[id].status.Running?
    requires Numbered(db, id)
    ensures Expired(db.tasks[id], RecoverRow(db, id, delay, now).0, id)
    ensures RecoverRow(db, id, delay, now).0.tasks.Keys == db.tasks.Keys
    ensures forall o | o in db.tasks && o != id :: RecoverRow(db, id, delay, now).0.tasks[o] == db.tasks[o]
  {
    var t := db.tasks[id];
    assert AttemptKey(id, t.attemptCount) in db.attempts;
    assert AttemptAgrees(t, t.attemptCount, db.attempts[AttemptKey(id, t.attemptCount)]);
  }

  /** When `o` stops running and nothing else moves, the tasks before `id` are fewer. */
  lemma FewerBefore(db: Db, after: Db, o: TaskId, id: TaskId)
    requires id in db.tasks && o in ExpiresBefore(db, id) && o != id
    requires after.tasks.Keys == db.tasks.Keys && !after.tasks[o].status.Running?
    requires forall x | x in db.tasks && x != o :: after.tasks[x] == db.tasks[x]
    ensures ExpiresBefore(after, id) < ExpiresBefore(db, id)
  {
    assert o !in ExpiresBefore(after, id);
    forall x | x in ExpiresBefore(after, id) ensures x in ExpiresBefore(db, id) {
      assert x != o;
    }
  }

  /** One recovery past a task's lease either closes its attempt or removes one task that came before it. */
  lemma RecoveryProgress(db: Db, id: TaskId, delay: Time, now: Time)
    requires Valid(db) && id in db.tasks && db.tasks[id].status.Running?
    requires db.tasks[id].leaseExpiresAt.value <= now
    ensures
      var after := RecoverOneExpired(db, delay, now).0;
      id in after.tasks
      && (|| Expired(db.tasks[id], after, id)
          || (after.tasks[id] == db.tasks[id] && ExpiresBefore(after, id) < ExpiresBefore(db, id)))
  {
    NextExpiredIsFirst(db, now);
    assert id in ExpiredSet(db, now);
    var o := NextExpired(db, now).value;
    assert FirstExpired(db, now, o);
    RecoverRowEnds(db, o, delay, now);
    if o != id {
      FewerBefore(db, RecoverRow(db, o, delay, now).0, o, id);
    }
  }

  /** The attempt that ran is closed as expired and its task went where recovery sends it. */
  ghost predicate Expired(t: Task, after: Db, id: TaskId) {
    && id in after.tasks && AttemptKey(id, t.attemptCount) in after.attempts
    && after.attempts[AttemptKey(id, t.attemptCount)].status.LeaseExpired?
    && after.tasks[id].attemptCount == t.attemptCount
    && after.tasks[id].status
       == (if t.cancellationRequestedAt.Some? then Cancelled
           else if t.attemptCount >= t.maxAttempts then Failed
           else Approved)
  }

  function Recoveries(delays: seq<Time>, now: Time): seq<Txn> {
    seq(|delays|, i requires 0 <= i < |delays| => Recover(delays[i], now))
  }

  /** A task that is not running is left alone by every recovery. */
  lemma ExpiredStep(db: Db, t: Task, id: TaskId, delay: Time, now: Time)
    requires Expired(t, db, id) && forall o | o in db.tasks :: TaskChecks(db.tasks[o])
    ensures Expired(t, RecoverOneExpired(db, delay, now).0, id)
  {
    NextExpiredIsFirst(db, now);
    assert !db.tasks[id].status.Running?;
  }

  lemma {:induction false} ExpiredStays(db: Db, t: Task, id: TaskId, delays: seq<Time>, now: Time)
    requires Valid(db) && Expired(t, db, id)
    ensures Expired(t, Run(db, Recoveries(delays, now)), id)
    decreases |delays|
  {
    if delays != [] {
      var txns := Recoveries(delays, now);
      assert txns[1..] == Recoveries(delays[1..], now);
      ExpiredStep(db, t, id, delays[0], now);
      RecoverOk(db, delays[0], now);
      assert Apply(db, txns[0]) == RecoverOneExpired(db, delays[0], now).0;
      ExpiredStays(Apply(db, txns[0]), t, id, delays[1..], now);
    }
  }

  /** Recoveries alone end an expired attempt, and leave its task where the cancellation or the budget sends it. */
  lemma {:induction false} RecoveriesAloneFinish(db: Db, id: TaskId, delays: seq<Time>, now: Time)
    requires Valid(db) && id in db.tasks && db.tasks[id].status.Running?
    requires db.tasks[id].leaseExpiresAt.value <= now
    requires |delays| > |ExpiresBefore(db, id)|
    ensures Expired(db.tasks[id], Run(db, Recoveries(delays, now)), id)
    decreases |delays|
  {
    var txns := Recoveries(delays, now);
    var next := Apply(db, txns[0]);
    assert next == RecoverOneExpired(db, delays[0], now).0;
    assert txns[1..] == Recoveries(delays[1..], now);
    RecoveryProgress(db, id, delays[0], now);
    ApplyOk(db, txns[0]);
    if Expired(db.tasks[id], next, id) {
      ExpiredStays(next, db.tasks[id], id, delays[1..], now);
    } else {
      SmallerSet(ExpiresBefore(next, id), ExpiresBefore(db, id));
      RecoveriesAloneFinish(next, id, delays[1..], now);
    }
  }

  // ---------------------------------------------------------------- leases without an owner

  ghost predicate NoBeats(txns: seq<Txn>, f: ExecutionFence) {
    forall i | 0 <= i < |txns| :: txns[i].Beat? ==> txns[i].fence != f
  }

  lemma LeaseNeedsItsOwner(db: Db, txn: Txn, f: ExecutionFence)
    requires Valid(db) && f.taskId in db.tasks && db.tasks[f.taskId].status.Running?
    requires
      var t := db.tasks[f.taskId];
      t.attemptCount == f.attemptNumber && t.workerId == Some(f.workerId) && t.leaseToken == Some(f.leaseToken)
    requires txn.Beat? ==> txn.fence != f
    requires f.taskId in Apply(db, txn).tasks
    requires Apply(db, txn).tasks[f.taskId].status.Running?
    ensures Apply(db, txn).tasks[f.taskId].leaseExpiresAt == db.tasks[f.taskId].leaseExpiresAt
  {
    if txn.Claim? { NextClaimIsFirst(db, txn.types, txn.due); }
    if txn.Recover? { NextExpiredIsFirst(db, txn.now); }
  }

  /** Once its owner stops beating, a running attempt keeps its lease, so recovery becomes possible at its end. */
  lemma {:induction false} AbandonedLeaseStands(db: Db, f: ExecutionFence, txns: seq<Txn>)
    requires Valid(db) && f.taskId in db.tasks && db.tasks[f.taskId].status.Running?
    requires
      var t := db.tasks[f.taskId];
      t.attemptCount == f.attemptNumber && t.workerId == Some(f.workerId) && t.leaseToken == Some(f.leaseToken)
    requires NoBeats(txns, f)
    requires
      var after := Run(db, txns);
      f.taskId in after.tasks ==>
        after.tasks[f.taskId].status.Running? && after.tasks[f.taskId].attemptCount == f.attemptNumber
    ensures f.taskId in Run(db, txns).tasks
    ensures Run(db, txns).tasks[f.taskId].leaseExpiresAt == db.tasks[f.taskId].leaseExpiresAt
    ensures forall now :: now >= db.tasks[f.taskId].leaseExpiresAt.value ==> f.taskId in ExpiredSet(Run(db, txns), now)
    decreases |txns|
  {
    RunOk(db, txns);
    if txns != [] {
      ApplyOk(db, txns[0]);
      var next := Apply(db, txns[0]);
      RunOk(next, txns[1..]);
      assert TaskEvolves(next.tasks[f.taskId], Run(db, txns).tasks[f.taskId]);
      LeaseNeedsItsOwner(db, txns[0], f);
      AbandonedLeaseStands(next, f, txns[1..]);
    }
  }

  // ---------------------------------------------------------------- recovery among all other transactions

  /** A lease that the transaction hands out ends after `past`. */
  predicate LateLease(txn: Txn, past: Time) {
    (txn.Claim? || txn.Beat?) ==> txn.now + txn.lease > past
  }

  predicate RecoversPast(txn: Txn, past: Time) { txn.Recover? && txn.now >= past }

  function RecoveriesPast(txns: seq<Txn>, past: Time): nat {
    if txns == [] then 0 else (if RecoversPast(txns[0], past) then 1 else 0) + RecoveriesPast(txns[1..], past)
  }

  /** Attempt n of the task runs under a lease that ends at `past`. */
  ghost predicate Stands(db: Db, id: TaskId, n: int, past: Time) {
    && id in db.tasks && db.tasks[id].status.Running? && db.tasks[id].attemptCount == n
    && db.tasks[id].leaseExpiresAt == Some(past)
  }

  predicate AttemptEnded(db: Db, id: TaskId, n: int) {
    AttemptKey(id, n) in db.attempts && !db.attempts[AttemptKey(id, n)].status.InProgress?
  }

  predicate Owner(db: Db, f: ExecutionFence) {
    && f.taskId in db.tasks && db.tasks[f.taskId].attemptCount == f.attemptNumber
    && db.tasks[f.taskId].workerId == Some(f.workerId) && db.tasks[f.taskId].leaseToken == Some(f.leaseToken)
  }

  predicate CancelRecorded(db: Db, id: TaskId) {
    id in db.tasks && db.tasks[id].cancellationRequestedAt.Some?
  }

  /** A task that runs afterwards ran before under the same lease, or its lease ends after `past`. */
  ghost predicate KeptOrLate(db: Db, after: Db, o: TaskId, past: Time) {
    o in after.tasks && after.tasks[o].status.Running? ==>
      || (after.tasks[o].leaseExpiresAt.Some? && after.tasks[o].leaseExpiresAt.value > past)
      || (o in db.tasks && db.tasks[o].status.Running?
          && db.tasks[o].leaseExpiresAt == after.tasks[o].leaseExpiresAt)
  }

  lemma ClaimRunsLate(db: Db, types: set<string>, worker: string, token: string, lease: Time, due: Time, now: Time,
                      o: TaskId, past: Time)
    requires now + lease > past
    ensures KeptOrLate(db, ClaimOne(db, types, worker, token, lease, due, now).0, o, past)
  {
    NextClaimIsFirst(db, types, due);
  }

  lemma BeatRunsLate(db: Db, f: ExecutionFence, lease: Time, now: Time, o: TaskId, past: Time)
    requires now + lease > past
    ensures KeptOrLate(db, Heartbeat(db, f, lease, now).0, o, past)
  {
  }

  lemma FinalizeRunsLate(db: Db, f: ExecutionFence, required: bool, c: Closing, now: Time, o: TaskId, past: Time)
    requires !c.status.Running?
    ensures KeptOrLate(db, Finalize(db, f, required, c, now).0, o, past)
  {
  }

  lemma RecoverRunsLate(db: Db, delay: Time, now: Time, o: TaskId, past: Time)
    ensures KeptOrLate(db, RecoverOneExpired(db, delay, now).0, o, past)
  {
    NextExpiredIsFirst(db, now);
  }

  lemma CommandRunsLate(db: Db, txn: Txn, o: TaskId, past: Time)
    requires txn.Create? || txn.Approval? || txn.Cancellation?
    ensures KeptOrLate(db, Apply(db, txn), o, past)
  {
  }

  lemma RunsLate(db: Db, txn: Txn, o: TaskId, past: Time)
    requires LateLease(txn, past)
    ensures KeptOrLate(db, Apply(db, txn), o, past)
  {
    match txn
    case Claim(types, worker, token, lease, due, now) =>
      ClaimRunsLate(db, types, worker, token, lease, due, now, o, past);
    case Beat(f, lease, now) => BeatRunsLate(db, f, lease, now, o, past);
    case Success(f, outcome, now) => FinalizeRunsLate(db, f, false, SuccessClosing(outcome), now, o, past);
    case Retrying(f, delay, stamp, now, code, summary, reason) =>
      FinalizeRunsLate(db, f, false, RetryClosing(stamp + delay, code, summary, reason), now, o, past);
    case Failure(f, now, code, summary, reason) =>
      FinalizeRunsLate(db, f, false, FailureClosing(code, summary, reason), now, o, past);
    case AcknowledgeCancel(f, now) => FinalizeRunsLate(db, f, true, CancellationClosing, now, o, past);
    case Recover(delay, now) => RecoverRunsLate(db, delay, now, o, past);
    case _ => CommandRunsLate(db, txn, o, past);
  }

  /** Nobody is put before a lease that ends at `past`. */
  lemma NobodyExpiresEarlier(db: Db, txn: Txn, id: TaskId, n: int, past: Time)
    requires Stands(db, id, n, past) && Stands(Apply(db, txn), id, n, past) && LateLease(txn, past)
    requires forall o | o in Apply(db, txn).tasks :: TaskChecks(Apply(db, txn).tasks[o])
    ensures ExpiresBefore(Apply(db, txn), id) <= ExpiresBefore(db, id)
  {
    var after := Apply(db, txn);
    forall o | o in ExpiresBefore(after, id) ensures o in ExpiresBefore(db, id) {
      RunsLate(db, txn, o, past);
      assert TaskChecks(after.tasks[o]);
    }
  }

  /** An attempt that its owner no longer extends either ends or stands as it did. */
  lemma EndsOrStands(db: Db, txn: Txn, f: ExecutionFence, past: Time)
    requires Valid(db) && Stands(db, f.taskId, f.attemptNumber, past) && Owner(db, f)
    requires CancelRecorded(db, f.taskId) || !(txn.Beat? && txn.fence == f)
    ensures
      var after := Apply(db, txn);
      || AttemptEnded(after, f.taskId, f.attemptNumber)
      || (Stands(after, f.taskId, f.attemptNumber, past) && Owner(after, f)
          && (CancelRecorded(db, f.taskId) ==> CancelRecorded(after, f.taskId)))
  {
    ApplyOk(db, txn);
    var after := Apply(db, txn);
    assert Numbered(db, f.taskId) && f.Key() in db.attempts;
    var t, u := db.tasks[f.taskId], after.tasks[f.taskId];
    assert TaskEvolves(t, u);
    if u.status.Running? && u.attemptCount == f.attemptNumber {
      if !CancelRecorded(db, f.taskId) { LeaseNeedsItsOwner(db, txn, f); }
    } else {
      assert Numbered(after, f.taskId);
      assert AttemptAgrees(u, f.attemptNumber, after.attempts[f.Key()]);
    }
  }

  lemma {:induction false} EndedStays(db: Db, id: TaskId, n: int, txns: seq<Txn>)
    requires Valid(db) && AttemptEnded(db, id, n)
    ensures AttemptEnded(Run(db, txns), id, n)
  {
    RunOk(db, txns);
    assert AttemptEvolves(db.attempts[AttemptKey(id, n)], Run(db, txns).attempts[AttemptKey(id, n)]);
  }

  lemma OneStepCloser(db: Db, txn: Txn, f: ExecutionFence, past: Time)
    requires Valid(db) && Stands(db, f.taskId, f.attemptNumber, past) && Owner(db, f) && LateLease(txn, past)
    requires CancelRecorded(db, f.taskId) || !(txn.Beat? && txn.fence == f)
    requires !AttemptEnded(Apply(db, txn), f.taskId, f.attemptNumber)
    ensures
      var before, later := |ExpiresBefore(db, f.taskId)|, |ExpiresBefore(Apply(db, txn), f.taskId)|;
      later + (if RecoversPast(txn, past) then 1 else 0) <= before
  {
    ApplyOk(db, txn);
    EndsOrStands(db, txn, f, past);
    NobodyExpiresEarlier(db, txn, f.taskId, f.attemptNumber, past);
    NoBigger(ExpiresBefore(Apply(db, txn), f.taskId), ExpiresBefore(db, f.taskId));
    if RecoversPast(txn, past) {
      RecoveryProgress(db, f.taskId, txn.delay, txn.now);
      SmallerSet(ExpiresBefore(Apply(db, txn), f.taskId), ExpiresBefore(db, f.taskId));
    }
  }

  /**
   In any run whose new leases end after `past`, more recoveries past it than tasks before it end the attempt,
   provided that a cancellation is recorded or the owner has stopped beating.
   */
  lemma {:induction false} RecoveryFinishes(db: Db, f: ExecutionFence, past: Time, txns: seq<Txn>)
    requires Valid(db) && Stands(db, f.taskId, f.attemptNumber, past) && Owner(db, f)
    requires CancelRecorded(db, f.taskId) || NoBeats(txns, f)
    requires forall i | 0 <= i < |txns| :: LateLease(txns[i], past)
    requires RecoveriesPast(txns, past) > |ExpiresBefore(db, f.taskId)|
    ensures AttemptEnded(Run(db, txns), f.taskId, f.attemptNumber)
    decreases |txns|
  {
    var next := Apply(db, txns[0]);
    ApplyOk(db, txns[0]);
    EndsOrStands(db, txns[0], f, past);
    if AttemptEnded(next, f.taskId, f.attemptNumber) {
      EndedStays(next, f.taskId, f.attemptNumber, txns[1..]);
    } else {
      OneStepCloser(db, txns[0], f, past);
      RecoveryFinishes(next, f, past, txns[1..]);
    }
  }

  /** A recorded cancellation becomes final in every such run, whatever its owner and the other workers do. */
  lemma CancellationBecomesFinal(db: Db, id: TaskId, past: Time, txns: seq<Txn>)
    requires Valid(db) && id in db.tasks && db.tasks[id].status.Running? && CancelRecorded(db, id)
    requires db.tasks[id].leaseExpiresAt == Some(past)
    requires forall i | 0 <= i < |txns| :: LateLease(txns[i], past)
    requires RecoveriesPast(txns, past) > |ExpiresBefore(db, id)|
    ensures id in Run(db, txns).tasks && Run(db, txns).tasks[id].status.Cancelled?
  {
    var t := db.tasks[id];
    assert TaskChecks(t);
    RecoveryFinishes(db, ExecutionFence(id, t.attemptCount, t.workerId.value, t.leaseToken.value), past, txns);
    CancellationIsNeverLost(db, id, txns);
    EndedMeansOver(db, id, txns);
  }

  lemma EndedMeansOver(db: Db, id: TaskId, txns: seq<Txn>)
    requires Valid(db) && id in db.tasks && id in Run(db, txns).tasks
    requires AttemptEnded(Run(db, txns), id, Run(db, txns).tasks[id].attemptCount)
    ensures !Run(db, txns).tasks[id].status.Running?
  {
    RunOk(db, txns);
    var after := Run(db, txns);
    assert Numbered(after, id);
    assert AttemptAgrees(after.tasks[id], after.tasks[id].attemptCount,
                         after.attempts[AttemptKey(id, after.tasks[id].attemptCount)]);
  }
}
