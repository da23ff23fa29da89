/**
 Fairness of the claim order. Once an approved task is due, clock readings being later than its available_at,
 every claimer that supports its type must take a task from the finite set that was ahead of it: approvals,
 retries and recoveries can only enqueue behind it.
 */
module BoundedOvertaking {
  import opened Wrappers
  import opened TaskDomain
  import opened OrderedSelection
  import opened TaskStore
  import opened TaskInvariants

  /** The approved tasks with a smaller (available_at, created_at, id). */
  ghost function Ahead(db: Db, id: TaskId): set<TaskId> {
    set o | o in db.tasks && db.tasks[o].status.Approved? && Precedes(ClaimKey(db, o), ClaimKey(db, id))
  }

  predicate Waiting(db: Db, id: TaskId) {
    && id in db.tasks && db.tasks[id].status.Approved?
    && db.tasks[id].attemptCount < db.tasks[id].maxAttempts
  }

  /** The readings that decide a place in the queue are later than `due`, and retry delays are not negative. */
  predicate Later(txn: Txn, due: Time) {
    && (txn.Approval? ==> txn.now > due)
    && (txn.Claim? ==> txn.due > due)
    && (txn.Retrying? ==> txn.stamp > due && txn.delay >= 0)
    && (txn.Recover? ==> txn.now > due && txn.delay >= 0)
  }

  ghost predicate WaitsThroughout(db: Db, txns: seq<Txn>, id: TaskId)
    decreases |txns|
  {
    && Waiting(db, id)
    && (txns == [] || WaitsThroughout(Apply(db, txns[0]), txns[1..], id))
  }

  predicate Serves(txn: Txn, taskType: string) { txn.Claim? && taskType in txn.types }

  function ServingClaims(txns: seq<Txn>, taskType: string): nat {
    if txns == [] then 0
    else (if Serves(txns[0], taskType) then 1 else 0) + ServingClaims(txns[1..], taskType)
  }

  lemma FinalizeApproves(db: Db, f: ExecutionFence, required: bool, c: Closing, now: Time, o: TaskId, due: Time)
    requires Valid(db) && o in db.tasks
    requires c.status.Approved? ==> Stamp(c.availableAt) > due
    ensures
      var after := Finalize(db, f, required, c, now).0;
      && o in after.tasks
      && (after.tasks[o].status.Approved? ==>
            after.tasks[o] == db.tasks[o] || Stamp(after.tasks[o].availableAt) > due)
      && (db.tasks[o].status.Approved? ==> after.tasks[o] == db.tasks[o])
  {
  }

  lemma RecoverApproves(db: Db, delay: Time, now: Time, o: TaskId, due: Time)
    requires o in db.tasks && now > due && delay >= 0
    ensures
      var after := RecoverOneExpired(db, delay, now).0;
      && o in after.tasks
      && (after.tasks[o].status.Approved? ==>
            after.tasks[o] == db.tasks[o] || Stamp(after.tasks[o].availableAt) > due)
      && (db.tasks[o].status.Approved? ==> after.tasks[o] == db.tasks[o])
  {
    NextExpiredIsFirst(db, now);
  }

  lemma ClaimApproves(db: Db, types: set<string>, worker: string, token: string, lease: Time, due: Time, now: Time,
                      o: TaskId)
    requires o in db.tasks
    ensures
      var after := ClaimOne(db, types, worker, token, lease, due, now).0;
      o in after.tasks && (after.tasks[o].status.Approved? ==> after.tasks[o] == db.tasks[o])
  {
    NextClaimIsFirst(db, types, due);
  }

  /** A task that is approved after a transaction is either untouched by it or enqueued after `due`. */
  lemma NewlyApprovedIsLate(db: Db, txn: Txn, o: TaskId, due: Time)
    requires Valid(db) && Later(txn, due) && o in db.tasks
    ensures o in Apply(db, txn).tasks
    ensures Apply(db, txn).tasks[o].status.Approved? ==>
              Apply(db, txn).tasks[o] == db.tasks[o] || Stamp(Apply(db, txn).tasks[o].availableAt) > due
    ensures db.tasks[o].status.Approved? && Apply(db, txn).tasks[o].status.Approved? ==>
              Apply(db, txn).tasks[o] == db.tasks[o]
  {
    match txn
    case Success(f, outcome, now) => FinalizeApproves(db, f, false, SuccessClosing(outcome), now, o, due);
    case Retrying(f, delay, stamp, now, code, summary, reason) =>
      FinalizeApproves(db, f, false, RetryClosing(stamp + delay, code, summary, reason), now, o, due);
    case Failure(f, now, code, summary, reason) =>
      FinalizeApproves(db, f, false, FailureClosing(code, summary, reason), now, o, due);
    case AcknowledgeCancel(f, now) => FinalizeApproves(db, f, true, CancellationClosing, now, o, due);
    case Recover(delay, now) => RecoverApproves(db, delay, now, o, due);
    case Claim(types, worker, token, lease, claimDue, now) =>
      ClaimApproves(db, types, worker, token, lease, claimDue, now, o);
    case _ =>
  }

  lemma NobodyJoinsAhead(db: Db, txn: Txn, id: TaskId, due: Time)
    requires Valid(db) && Later(txn, due)
    requires Waiting(db, id) && Stamp(db.tasks[id].availableAt) <= due
    requires Waiting(Apply(db, txn), id)
    ensures Apply(db, txn).tasks[id] == db.tasks[id]
    ensures Ahead(Apply(db, txn), id) <= Ahead(db, id)
  {
    var after := Apply(db, txn);
    NewlyApprovedIsLate(db, txn, id, due);
    forall o | o in Ahead(after, id) ensures o in Ahead(db, id) {
      if o in db.tasks {
        NewlyApprovedIsLate(db, txn, o, due);
      } else {
        CreatedIsPending(db, txn, o);
      }
    }
  }

  lemma CreatedIsPending(db: Db, txn: Txn, o: TaskId)
    requires Valid(db) && o !in db.tasks && o in Apply(db, txn).tasks
    ensures Apply(db, txn).tasks[o].status.PendingApproval?
  {
  }

  lemma ServingClaimTakesOneAhead(db: Db, txn: Txn, id: TaskId, due: Time)
    requires Valid(db) && Later(txn, due)
    requires Waiting(db, id) && Stamp(db.tasks[id].availableAt) <= due
    requires Waiting(Apply(db, txn), id) && Serves(txn, db.tasks[id].taskType)
    ensures Ahead(Apply(db, txn), id) < Ahead(db, id)
  {
    NobodyJoinsAhead(db, txn, id, due);
    NextClaimIsFirst(db, txn.types, txn.due);
    assert id in ClaimableSet(db, txn.types, txn.due);
    var o := NextClaim(db, txn.types, txn.due).value;
    assert FirstClaimable(db, txn.types, txn.due, o);
    ClaimRowOk(db, o, txn.worker, txn.token, txn.lease, txn.now);
    assert o in Ahead(db, id) && o !in Ahead(Apply(db, txn), id);
  }

  /** While a due task waits, at most |Ahead| claims by claimers of its type can happen. */
  lemma {:induction false} OvertakingIsBounded(db: Db, txns: seq<Txn>, id: TaskId, due: Time)
    requires Valid(db) && WaitsThroughout(db, txns, id)
    requires Stamp(db.tasks[id].availableAt) <= due
    requires forall i | 0 <= i < |txns| :: Later(txns[i], due)
    ensures ServingClaims(txns, db.tasks[id].taskType) <= |Ahead(db, id)|
    decreases |txns|
  {
    if txns != [] {
      var next := Apply(db, txns[0]);
      ApplyOk(db, txns[0]);
      NobodyJoinsAhead(db, txns[0], id, due);
      OvertakingIsBounded(next, txns[1..], id, due);
      if Serves(txns[0], db.tasks[id].taskType) {
        ServingClaimTakesOneAhead(db, txns[0], id, due);
        SmallerSet(Ahead(next, id), Ahead(db, id));
      } else {
        NoBigger(Ahead(next, id), Ahead(db, id));
      }
    }
  }

  /** So a due task stops waiting (it is claimed or cancelled) within |Ahead| + 1 claims by claimers of its type. */
  lemma DueTaskIsServed(db: Db, txns: seq<Txn>, id: TaskId, due: Time)
    requires Valid(db) && Waiting(db, id) && Stamp(db.tasks[id].availableAt) <= due
    requires forall i | 0 <= i < |txns| :: Later(txns[i], due)
    requires ServingClaims(txns, db.tasks[id].taskType) > |Ahead(db, id)|
    ensures !WaitsThroughout(db, txns, id)
  {
    if WaitsThroughout(db, txns, id) {
      OvertakingIsBounded(db, txns, id, due);
      assert false;
    }
  }
}
