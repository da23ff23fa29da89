/**
 The heartbeat loop and its timing. With a clock that does not fall and an interval of at most a third of the lease,
 a worker whose beats are late by less than two intervals never loses its lease, however long it runs and whatever
 other processes commit in between; the loop ends only for a recorded cancellation.
 */
module LeaseTiming {
  import opened Wrappers
  import opened TaskDomain
  import opened OrderedSelection
  import opened TaskStore
  import opened TaskInvariants
  import opened LeaseRecovery
  import opened TaskDatabase
  import opened WorkerRunner

  /** One turn of the loop: the others commit, then the beat is made; a None reply is any exception. */
  ghost function BeatOnce(db: Db, f: ExecutionFence, lease: Time, slot: Slot): (Db, Option<HeartbeatReply>) {
    var ready := Run(db, slot.others);
    var (after, reply) := Heartbeat(ready, f, lease, slot.now);
    (if slot.weather.LostBefore? then ready else after, Heard(reply, reply.HeartbeatRaised?, slot))
  }

  /** The tables after the loop made these beats. */
  ghost function AfterBeats(db: Db, f: ExecutionFence, lease: Time, beats: seq<Slot>): Db {
    if beats == [] then db
    else BeatOnce(AfterBeats(db, f, lease, beats[..|beats| - 1]), f, lease, beats[|beats| - 1]).0
  }

  /** What the loop learns from beat k. */
  ghost function HeardBeat(db: Db, f: ExecutionFence, lease: Time, beats: seq<Slot>, k: nat): Option<HeartbeatReply>
    requires k < |beats|
  {
    BeatOnce(AfterBeats(db, f, lease, beats[..k]), f, lease, beats[k]).1
  }

  /** The task row names the fence, under a lease counted from `since`. */
  ghost predicate Owns(db: Db, f: ExecutionFence, lease: Time, since: Time) {
    && f.taskId in db.tasks
    && var t := db.tasks[f.taskId];
    && t.status.Running? && t.attemptCount == f.attemptNumber
    && t.workerId == Some(f.workerId) && t.leaseToken == Some(f.leaseToken)
    && t.leaseExpiresAt == Some(since + lease)
  }

  ghost predicate Held(db: Db, f: ExecutionFence, lease: Time, since: Time) {
    Valid(db) && Owns(db, f, lease, since)
  }

  /** A committed claim owns its task from the clock reading it was made with. */
  lemma ClaimHolds(db: Db, types: set<string>, worker: string, token: string, lease: Time, due: Time, now: Time)
    requires Valid(db)
    ensures
      var (after, reply) := ClaimOne(db, types, worker, token, lease, due, now);
      reply.Claimed? ==> Held(after, reply.claim.fence, lease, now)
  {
    NextClaimIsFirst(db, types, due);
    ClaimOk(db, types, worker, token, lease, due, now);
  }

  lemma FinalizationByOther(db: Db, g: ExecutionFence, required: bool, c: Closing, now: Time, f: ExecutionFence,
                            lease: Time, since: Time)
    requires Owns(db, f, lease, since) && g != f
    ensures var after := Finalize(db, g, required, c, now).0;
            f.taskId in after.tasks && after.tasks[f.taskId] == db.tasks[f.taskId]
  {
  }

  lemma RecoveryOfOther(db: Db, delay: Time, now: Time, f: ExecutionFence, lease: Time, since: Time)
    requires Owns(db, f, lease, since) && now < since + lease
    ensures var after := RecoverOneExpired(db, delay, now).0;
            f.taskId in after.tasks && after.tasks[f.taskId] == db.tasks[f.taskId]
  {
    NextExpiredIsFirst(db, now);
  }

  lemma ClaimOfOther(db: Db, types: set<string>, worker: string, token: string, span: Time, due: Time, now: Time,
                     f: ExecutionFence, lease: Time, since: Time)
    requires Owns(db, f, lease, since)
    ensures var after := ClaimOne(db, types, worker, token, span, due, now).0;
            f.taskId in after.tasks && after.tasks[f.taskId] == db.tasks[f.taskId]
  {
    NextClaimIsFirst(db, types, due);
  }

  /** A transaction that is not under the fence and reads the clock before the lease ends leaves the owner in place. */
  lemma OthersKeepOwner(db: Db, txn: Txn, f: ExecutionFence, lease: Time, since: Time)
    requires Owns(db, f, lease, since) && !UsesFence(txn, f) && txn.now < since + lease
    ensures Owns(Apply(db, txn), f, lease, since)
    ensures !(txn.Cancellation? && txn.id == f.taskId) ==>
              (CancelRecorded(Apply(db, txn), f.taskId) <==> CancelRecorded(db, f.taskId))
  {
    match txn
    case Claim(types, worker, token, span, due, now) =>
      ClaimOfOther(db, types, worker, token, span, due, now, f, lease, since);
    case Recover(delay, now) => RecoveryOfOther(db, delay, now, f, lease, since);
    case Success(g, outcome, now) => FinalizationByOther(db, g, false, SuccessClosing(outcome), now, f, lease, since);
    case Retrying(g, delay, stamp, now, code, summary, reason) =>
      FinalizationByOther(db, g, false, RetryClosing(stamp + delay, code, summary, reason), now, f, lease, since);
    case Failure(g, now, code, summary, reason) =>
      FinalizationByOther(db, g, false, FailureClosing(code, summary, reason), now, f, lease, since);
    case AcknowledgeCancel(g, now) => FinalizationByOther(db, g, true, CancellationClosing, now, f, lease, since);
    case Beat(g, span, now) => BeatByOther(db, g, span, now, f, lease, since);
    case Cancellation(id, now) => CancelKeepsOwner(db, id, now, f, lease, since);
    case Approval(id, now) =>
    case Create(id, taskType, maxAttempts, now) =>
  }

  lemma BeatByOther(db: Db, g: ExecutionFence, span: Time, now: Time, f: ExecutionFence, lease: Time, since: Time)
    requires Owns(db, f, lease, since) && g != f
    ensures var after := Heartbeat(db, g, span, now).0;
            f.taskId in after.tasks && after.tasks[f.taskId] == db.tasks[f.taskId]
  {
  }

  lemma CancelKeepsOwner(db: Db, id: TaskId, now: Time, f: ExecutionFence, lease: Time, since: Time)
    requires Owns(db, f, lease, since)
    ensures Owns(CancelTask(db, id, now).0, f, lease, since)
    ensures id != f.taskId ==> CancelTask(db, id, now).0.tasks[f.taskId] == db.tasks[f.taskId]
  {
  }

  ghost predicate Outside(others: seq<Txn>, f: ExecutionFence, earliest: Time, latest: Time) {
    forall i | 0 <= i < |others| :: !UsesFence(others[i], f) && earliest <= others[i].now <= latest
  }

  ghost predicate NoCancel(others: seq<Txn>, id: TaskId) {
    forall i | 0 <= i < |others| :: !(others[i].Cancellation? && others[i].id == id)
  }

  lemma {:induction false} OthersRunKeepsHold(db: Db, others: seq<Txn>, f: ExecutionFence, lease: Time, since: Time,
                                              latest: Time)
    requires Held(db, f, lease, since) && Outside(others, f, since, latest) && latest < since + lease
    ensures Held(Run(db, others), f, lease, since)
    ensures NoCancel(others, f.taskId) ==>
              (CancelRecorded(Run(db, others), f.taskId) <==> CancelRecorded(db, f.taskId))
    decreases |others|
  {
    if others != [] {
      ApplyOk(db, others[0]);
      OthersKeepOwner(db, others[0], f, lease, since);
      forall i | 0 <= i < |others| - 1 ensures others[1..][i] == others[i + 1] {}
      OthersRunKeepsHold(Apply(db, others[0]), others[1..], f, lease, since, latest);
    }
  }

  /** A beat of the owner is refused exactly from the end of its lease on; before that it reports the cancellation. */
  lemma BeatOfOwner(db: Db, f: ExecutionFence, lease: Time, since: Time, now: Time)
    requires Held(db, f, lease, since)
    ensures
      var (after, reply) := Heartbeat(db, f, lease, now);
      && (reply.HeartbeatRaised? <==> since + lease <= now)
      && (reply.Active? <==> now < since + lease && !CancelRecorded(db, f.taskId))
      && (reply.Active? ==> Held(after, f, lease, now) && !CancelRecorded(after, f.taskId))
      && (reply.CancellationPending? ==> CancelRecorded(after, f.taskId))
  {
    assert Numbered(db, f.taskId);
    assert AttemptKey(f.taskId, f.attemptNumber) in db.attempts;
    assert AttemptAgrees(db.tasks[f.taskId], f.attemptNumber, db.attempts[f.Key()]);
    HeartbeatOk(db, f, lease, now);
  }

  function BeatTime(start: Time, beats: seq<Slot>, k: nat): Time
    requires k <= |beats|
  {
    if k == 0 then start else beats[k - 1].now
  }

  /**
   Each beat follows the one before by the interval and less than two intervals of overhead, nothing is lost, and
   the clock readings of the others lie between the two beats around them.
   */
  ghost predicate Paced(f: ExecutionFence, interval: Time, start: Time, beats: seq<Slot>) {
    forall k | 0 <= k < |beats| :: PacedSlot(f, interval, BeatTime(start, beats, k), beats[k])
  }

  ghost predicate PacedSlot(f: ExecutionFence, interval: Time, since: Time, slot: Slot) {
    && slot.weather.Clear?
    && since + interval <= slot.now < since + interval + 2 * interval
    && Outside(slot.others, f, since, slot.now)
  }

  lemma PacedBeat(db: Db, f: ExecutionFence, lease: Time, interval: Time, since: Time, slot: Slot)
    requires Held(db, f, lease, since) && 0 < interval && 3 * interval <= lease
    requires PacedSlot(f, interval, since, slot)
    ensures
      var (after, heard) := BeatOnce(db, f, lease, slot);
      && heard == Some(if CancelRecorded(Run(db, slot.others), f.taskId) then CancellationPending else Active)
      && (NoCancel(slot.others, f.taskId) && !CancelRecorded(db, f.taskId) ==> heard == Some(Active))
      && (heard == Some(Active) ==> Held(after, f, lease, slot.now) && !CancelRecorded(after, f.taskId))
      && (heard == Some(CancellationPending) ==> CancelRecorded(after, f.taskId))
  {
    OthersRunKeepsHold(db, slot.others, f, lease, since, slot.now);
    BeatOfOwner(Run(db, slot.others), f, lease, since, slot.now);
  }

  lemma AfterOneMore(db: Db, f: ExecutionFence, lease: Time, beats: seq<Slot>, k: nat)
    requires k < |beats|
    ensures AfterBeats(db, f, lease, beats[..k + 1])
         == BeatOnce(AfterBeats(db, f, lease, beats[..k]), f, lease, beats[k]).0
  {
    assert beats[..k + 1][..k] == beats[..k];
  }

  lemma {:induction false} HeldBeforeBeat(db: Db, f: ExecutionFence, lease: Time, interval: Time, start: Time,
                                          beats: seq<Slot>, k: nat)
    requires Held(db, f, lease, start) && 0 < interval && 3 * interval <= lease
    requires Paced(f, interval, start, beats) && k <= |beats|
    requires forall j: nat | j < k :: HeardBeat(db, f, lease, beats, j) == Some(Active)
    ensures Held(AfterBeats(db, f, lease, beats[..k]), f, lease, BeatTime(start, beats, k))
    ensures k > 0 ==> !CancelRecorded(AfterBeats(db, f, lease, beats[..k]), f.taskId)
    decreases k
  {
    if k > 0 {
      HeldBeforeBeat(db, f, lease, interval, start, beats, k - 1);
      HeldOneMore(db, f, lease, interval, start, beats, k - 1);
    }
  }

  lemma HeldOneMore(db: Db, f: ExecutionFence, lease: Time, interval: Time, start: Time, beats: seq<Slot>, k: nat)
    requires k < |beats| && 0 < interval && 3 * interval <= lease
    requires PacedSlot(f, interval, BeatTime(start, beats, k), beats[k])
    requires Held(AfterBeats(db, f, lease, beats[..k]), f, lease, BeatTime(start, beats, k))
    requires HeardBeat(db, f, lease, beats, k) == Some(Active)
    ensures Held(AfterBeats(db, f, lease, beats[..k + 1]), f, lease, beats[k].now)
    ensures !CancelRecorded(AfterBeats(db, f, lease, beats[..k + 1]), f.taskId)
  {
    PacedBeat(AfterBeats(db, f, lease, beats[..k]), f, lease, interval, BeatTime(start, beats, k), beats[k]);
    AfterOneMore(db, f, lease, beats, k);
  }

  /** As long as every earlier beat was active, beat k comes in time, and only a cancellation makes it inactive. */
  lemma BeatArrivesInTime(db: Db, f: ExecutionFence, lease: Time, interval: Time, start: Time, beats: seq<Slot>, k: nat)
    requires Held(db, f, lease, start) && 0 < interval && 3 * interval <= lease
    requires Paced(f, interval, start, beats) && k < |beats|
    requires forall j: nat | j < k :: HeardBeat(db, f, lease, beats, j) == Some(Active)
    ensures
      var ready := Run(AfterBeats(db, f, lease, beats[..k]), beats[k].others);
      HeardBeat(db, f, lease, beats, k) == Some(if CancelRecorded(ready, f.taskId) then CancellationPending else Active)
    ensures k > 0 && NoCancel(beats[k].others, f.taskId) ==> HeardBeat(db, f, lease, beats, k) == Some(Active)
    ensures HeardBeat(db, f, lease, beats, k) == Some(CancellationPending) ==>
              CancelRecorded(AfterBeats(db, f, lease, beats[..k + 1]), f.taskId)
  {
    HeldBeforeBeat(db, f, lease, interval, start, beats, k);
    PacedBeat(AfterBeats(db, f, lease, beats[..k]), f, lease, interval, BeatTime(start, beats, k), beats[k]);
    AfterOneMore(db, f, lease, beats, k);
  }

  method CommitOthers(db: Database, others: seq<Txn>)
    modifies db
    ensures db.Tables() == Run(old(db.Tables()), others)
  {
    ghost var start := db.Tables();
    for i := 0 to |others|
      invariant db.Tables() == Run(start, others[..i])
    {
      RunAppend(start, others[..i], [others[i]]);
      assert others[..i + 1] == others[..i] + [others[i]];
      db.Perform(others[i]);
    }
    assert others[..|others|] == others;
  }

  method OneBeat(db: Database, f: ExecutionFence, lease: Time, slot: Slot) returns (heard: Option<HeartbeatReply>)
    modifies db
    ensures (db.Tables(), heard) == BeatOnce(old(db.Tables()), f, lease, slot)
  {
    CommitOthers(db, slot.others);
    if slot.weather.LostBefore? { return None; }
    var reply := db.ExtendLease(f, lease, slot.now);
    heard := if slot.weather.LostAfter? || reply.HeartbeatRaised? then None else Some(reply);
  }

  /** A beat is heard unless it was lost, or its fence did not match: then nothing of it is known. */
  lemma HeardIff(db: Db, f: ExecutionFence, lease: Time, slot: Slot)
    ensures
      var ready := Run(db, slot.others);
      var (after, heard) := BeatOnce(db, f, lease, slot);
      && (heard.Some? <==> slot.weather.Clear? && !Heartbeat(ready, f, lease, slot.now).1.HeartbeatRaised?)
      && (heard.Some? ==> heard.value == Heartbeat(ready, f, lease, slot.now).1)
      && (slot.weather.LostBefore? ==> after == ready)
      && (!slot.weather.LostBefore? ==> after == Heartbeat(ready, f, lease, slot.now).0)
  {
  }

  /** A reply of a heartbeat that was heard is one of the two that are not raised. */
  lemma NeverHearsRaised(db: Db, f: ExecutionFence, lease: Time, beats: seq<Slot>, k: nat)
    requires k < |beats|
    ensures HeardBeat(db, f, lease, beats, k) != Some(HeartbeatRaised)
  {
    HeardIff(AfterBeats(db, f, lease, beats[..k]), f, lease, beats[k]);
  }

  /** What ends the loop: a recorded cancellation, or anything but an active lease. */
  function CauseOfBeat(heard: Option<HeartbeatReply>): Option<StopCause> {
    match heard
    case Some(Active) => None
    case Some(CancellationPending) => Some(CustomerCancellation)
    case _ => Some(OwnershipLoss)
  }

  ghost predicate AllActive(db: Db, f: ExecutionFence, lease: Time, beats: seq<Slot>, n: int) {
    n <= |beats| && forall k: nat | k < n :: HeardBeat(db, f, lease, beats, k) == Some(Active)
  }

  /** `made` beats took the tables from `start` to `db`; all were active, but for a last one that gave the cause. */
  ghost predicate Made(start: Db, db: Db, f: ExecutionFence, lease: Time, beats: seq<Slot>, made: nat,
                       cause: Option<StopCause>)
  {
    && made <= |beats| && db == AfterBeats(start, f, lease, beats[..made])
    && AllActive(start, f, lease, beats, if cause.Some? then made - 1 else made)
    && (cause.Some? ==> made > 0 && cause == CauseOfBeat(HeardBeat(start, f, lease, beats, made - 1)))
  }

  lemma ActiveOneMore(db: Db, f: ExecutionFence, lease: Time, beats: seq<Slot>, n: nat)
    requires n < |beats| && AllActive(db, f, lease, beats, n) && HeardBeat(db, f, lease, beats, n) == Some(Active)
    ensures AllActive(db, f, lease, beats, n + 1)
  {
    forall k: nat | k < n + 1 ensures HeardBeat(db, f, lease, beats, k) == Some(Active) {
      if k < n { assert HeardBeat(db, f, lease, beats, k) == Some(Active); }
    }
  }

  lemma MadeOneMore(start: Db, db: Db, f: ExecutionFence, lease: Time, beats: seq<Slot>, made: nat)
    requires made < |beats| && Made(start, db, f, lease, beats, made, None)
    ensures
      var (after, heard) := BeatOnce(db, f, lease, beats[made]);
      Made(start, after, f, lease, beats, made + 1, CauseOfBeat(heard))
  {
    AfterOneMore(start, f, lease, beats, made);
    assert HeardBeat(start, f, lease, beats, made) == BeatOnce(db, f, lease, beats[made]).1;
    if HeardBeat(start, f, lease, beats, made) == Some(Active) { ActiveOneMore(start, f, lease, beats, made); }
  }

  /** The loop: sleep, beat, and stop at the first answer that is not an active lease. */
  method HeartbeatLoop(db: Database, f: ExecutionFence, lease: Time, beats: seq<Slot>)
    returns (cause: Option<StopCause>, made: nat)
    modifies db
    ensures Made(old(db.Tables()), db.Tables(), f, lease, beats, made, cause)
    ensures cause.None? ==> made == |beats|
    ensures cause.Some? ==>
              var heard := HeardBeat(old(db.Tables()), f, lease, beats, made - 1);
              && (cause.value == CustomerCancellation <==> heard == Some(CancellationPending))
              && (cause.value == OwnershipLoss <==> heard == None)
              && heard != Some(Active)
  {
    ghost var start := db.Tables();
    cause, made := None, 0;
    assert beats[..0] == [];
    while made < |beats| && cause.None?
      invariant Made(start, db.Tables(), f, lease, beats, made, cause)
    {
      MadeOneMore(start, db.Tables(), f, lease, beats, made);
      var heard := OneBeat(db, f, lease, beats[made]);
      cause := CauseOfBeat(heard);
      made := made + 1;
    }
    if cause.Some? { NeverHearsRaised(start, f, lease, beats, made - 1); }
  }

  lemma PacedOutcome(db: Db, f: ExecutionFence, lease: Time, interval: Time, start: Time, beats: seq<Slot>, made: nat,
                     ended: bool)
    requires Held(db, f, lease, start) && 0 < interval && 3 * interval <= lease
    requires Paced(f, interval, start, beats) && made <= |beats| && (ended ==> made > 0)
    requires AllActive(db, f, lease, beats, if ended then made - 1 else made)
    requires ended ==> HeardBeat(db, f, lease, beats, made - 1) != Some(Active)
    ensures
      var after := AfterBeats(db, f, lease, beats[..made]);
      if ended then
        HeardBeat(db, f, lease, beats, made - 1) == Some(CancellationPending) && CancelRecorded(after, f.taskId)
      else Held(after, f, lease, BeatTime(start, beats, made))
  {
    if ended {
      BeatArrivesInTime(db, f, lease, interval, start, beats, made - 1);
    } else {
      HeldBeforeBeat(db, f, lease, interval, start, beats, made);
    }
  }

  /** A paced loop never loses its lease: it runs on, or it reports a cancellation that is recorded on the task. */
  method PacedHeartbeatLoop(db: Database, f: ExecutionFence, lease: Time, interval: Time, start: Time, beats: seq<Slot>)
    returns (cause: Option<StopCause>, made: nat)
    requires Held(db.Tables(), f, lease, start) && 0 < interval && 3 * interval <= lease
    requires Paced(f, interval, start, beats)
    modifies db
    ensures made <= |beats| && (cause.None? ==> made == |beats|)
    ensures cause.None? || cause == Some(CustomerCancellation)
    ensures cause.Some? ==> CancelRecorded(db.Tables(), f.taskId)
    ensures cause.None? ==> Held(db.Tables(), f, lease, BeatTime(start, beats, made))
  {
    ghost var begin := db.Tables();
    cause, made := HeartbeatLoop(db, f, lease, beats);
    PacedOutcome(begin, f, lease, interval, start, beats, made, cause.Some?);
  }
}
