/**
 The worker's control policy: which finalization one claim asks for, and the loop around it.

 Scheduling is an argument: which of the handler, heartbeat, timeout and shutdown tasks each wait found finished,
 how the handler ended, and what other processes commit before each call of the database. A call may also be lost
 on its way to the database or after it committed; both raise in the worker, which cannot tell them apart.
 */
module WorkerRunner {
  import opened Wrappers
  import opened TaskDomain
  import opened TaskStore
  import opened TaskInvariants
  import opened LeaseRecovery
  import opened AttemptBudget
  import opened TaskDatabase

  // ---------------------------------------------------------------- the decision for one claim

  datatype StopCause = CustomerCancellation | TimedOut | WorkerShutdown | OwnershipLoss

  /** The tasks that one wait found finished; a finished heartbeat carries the cause it returned. */
  datatype Done = Done(handler: bool, heartbeat: Option<StopCause>, timeout: bool, shutdown: bool)

  /** The second wait is only used for a shutdown; none finished means that its grace period ran out. */
  datatype Schedule = Schedule(first: Done, second: Done)

  datatype HandlerEnd =
    | Returned(value: string, valid: bool)
    | RaisedTaskCancelled
    | RaisedOwnershipLost
    | RaisedRetryable(code: string, retryAfter: Option<Time>)
    | RaisedContract
    | RaisedPermanent(code: string)
    | RaisedCancelledError
    | RaisedOther

  datatype Intent =
    | Leave(stop: bool)
    | AskSuccess(value: string)
    | AskRetry(delay: Time, code: string, summary: string, reason: string)
    | AskFailure(code: string, summary: string, reason: string)
    | AskCancellation

  function CompletedCause(d: Done): Option<StopCause> {
    if d.heartbeat.Some? then d.heartbeat else if d.timeout then Some(TimedOut) else None
  }

  predicate GraceNeeded(s: Schedule) {
    s.first.shutdown && CompletedCause(s.first).None? && !s.first.handler
  }

  predicate NoneFinished(d: Done) { !d.handler && d.heartbeat.None? && !d.timeout }

  function CauseOf(s: Schedule): Option<StopCause> {
    if !GraceNeeded(s) then CompletedCause(s.first)
    else if NoneFinished(s.second) then Some(WorkerShutdown)
    else CompletedCause(s.second)
  }

  function FailurePolicy(claim: ClaimedTask, code: string, summary: string, reason: string, retryable: bool,
                         retryAfter: Option<Time>, backoff: Time): Intent {
    if retryable && claim.fence.attemptNumber < claim.maxAttempts then
      AskRetry(if retryAfter.Some? then retryAfter.value else backoff, code, summary, reason)
    else
      AskFailure(code, summary, if retryable then "max_attempts_exhausted" else reason)
  }

  function CompletionIntent(claim: ClaimedTask, end: HandlerEnd, backoff: Time): Intent {
    match end
    case Returned(value, valid) =>
      if valid then AskSuccess(value)
      else FailurePolicy(claim, "handler_contract_error", "Handler returned an invalid result",
                         "handler_contract_error", false, None, backoff)
    case RaisedTaskCancelled => AskCancellation
    case RaisedOwnershipLost => Leave(true)
    case RaisedRetryable(code, retryAfter) =>
      FailurePolicy(claim, code, "Task execution failed and will be retried", "retryable_error", true, retryAfter,
                    backoff)
    case RaisedContract =>
      FailurePolicy(claim, "handler_contract_error", "Handler returned an invalid result",
                    "handler_contract_error", false, None, backoff)
    case RaisedPermanent(code) =>
      FailurePolicy(claim, code, "Task execution failed permanently", "permanent_error", false, None, backoff)
    case RaisedCancelledError => Leave(true)
    case RaisedOther =>
      FailurePolicy(claim, "unexpected_error", "Task execution failed unexpectedly", "unexpected_error", true, None,
                    backoff)
  }

  function IntentOf(claim: ClaimedTask, s: Schedule, end: HandlerEnd, backoff: Time): Intent {
    match CauseOf(s)
    case Some(CustomerCancellation) => AskCancellation
    case Some(TimedOut) =>
      FailurePolicy(claim, "execution_timeout", "Task execution exceeded its time limit", "execution_timeout", true,
                    None, backoff)
    case Some(_) => Leave(false)
    case None => CompletionIntent(claim, end, backoff)
  }

  /** The first wait returns when something finished; a heartbeat loop ends for two reasons only. */
  ghost predicate Plausible(s: Schedule) {
    && !(NoneFinished(s.first) && !s.first.shutdown)
    && (s.first.heartbeat.Some? ==> s.first.heartbeat.value in {CustomerCancellation, OwnershipLoss})
    && (s.second.heartbeat.Some? ==> s.second.heartbeat.value in {CustomerCancellation, OwnershipLoss})
  }

  /** When no cause stops the handler, the handler has finished: its result can be read. */
  lemma NoCauseMeansHandlerFinished(s: Schedule)
    requires Plausible(s) && CauseOf(s).None?
    ensures s.first.handler || (GraceNeeded(s) && s.second.handler)
  {
  }

  /** Leaving without a stop cause retires the worker. */
  lemma LeaveStops(claim: ClaimedTask, s: Schedule, end: HandlerEnd, backoff: Time)
    requires Plausible(s) && IntentOf(claim, s, end, backoff).Leave?
    ensures IntentOf(claim, s, end, backoff).stop <==> CauseOf(s).None?
    ensures CauseOf(s).Some? ==> CauseOf(s).value in {WorkerShutdown, OwnershipLoss}
  {
  }

  lemma RetryWithinBudget(claim: ClaimedTask, s: Schedule, end: HandlerEnd, backoff: Time)
    ensures IntentOf(claim, s, end, backoff).AskRetry? ==> claim.fence.attemptNumber < claim.maxAttempts
  {
  }

  /** What a claim asks for when a cause stopped its handler. */
  lemma StoppedIntent(claim: ClaimedTask, s: Schedule, end: HandlerEnd, backoff: Time)
    requires Plausible(s) && CauseOf(s).Some?
    ensures
      var intent := IntentOf(claim, s, end, backoff);
      var cause := CauseOf(s).value;
      && !intent.AskSuccess?
      && (intent.AskRetry? <==> claim.fence.attemptNumber < claim.maxAttempts && cause.TimedOut?)
      && (intent.Leave? <==> cause.WorkerShutdown? || cause.OwnershipLoss?)
      && (intent.AskCancellation? <==> cause.CustomerCancellation?)
  {
  }

  /** What a claim asks for when its handler ended undisturbed. */
  lemma CompletionMeans(claim: ClaimedTask, end: HandlerEnd, backoff: Time, value: string)
    ensures
      var intent := CompletionIntent(claim, end, backoff);
      && (intent == AskSuccess(value) <==> end == Returned(value, true))
      && (intent.AskRetry? <==>
            claim.fence.attemptNumber < claim.maxAttempts && (end.RaisedRetryable? || end.RaisedOther?))
      && (intent.Leave? <==> end.RaisedOwnershipLost? || end.RaisedCancelledError?)
      && (intent.AskCancellation? <==> end.RaisedTaskCancelled?)
  {
  }

  /** In every schedule: what a claim asks for, as conditions on what happened. */
  lemma OutcomeDiscipline(claim: ClaimedTask, s: Schedule, end: HandlerEnd, backoff: Time, value: string)
    requires Plausible(s)
    ensures
      var intent := IntentOf(claim, s, end, backoff);
      var undisturbed := CauseOf(s).None?;
      && (intent == AskSuccess(value) <==> undisturbed && end == Returned(value, true))
      && (intent.AskRetry? <==>
            && claim.fence.attemptNumber < claim.maxAttempts
            && (CauseOf(s) == Some(TimedOut) || (undisturbed && (end.RaisedRetryable? || end.RaisedOther?))))
      && (intent.Leave? <==>
            || CauseOf(s) == Some(WorkerShutdown) || CauseOf(s) == Some(OwnershipLoss)
            || (undisturbed && (end.RaisedOwnershipLost? || end.RaisedCancelledError?)))
      && (intent.AskCancellation? <==>
            CauseOf(s) == Some(CustomerCancellation) || (undisturbed && end.RaisedTaskCancelled?))
  {
    if CauseOf(s).Some? {
      StoppedIntent(claim, s, end, backoff);
    } else {
      assert IntentOf(claim, s, end, backoff) == CompletionIntent(claim, end, backoff);
      CompletionMeans(claim, end, backoff, value);
    }
  }

  /** After any stop cause a late handler return or exception changes nothing, so it is never called a success. */
  lemma LateHandlerIsIgnored(claim: ClaimedTask, s: Schedule, early: HandlerEnd, late: HandlerEnd, backoff: Time)
    requires CauseOf(s).Some?
    ensures IntentOf(claim, s, early, backoff) == IntentOf(claim, s, late, backoff)
    ensures !IntentOf(claim, s, late, backoff).AskSuccess?
  {
  }

  // ---------------------------------------------------------------- facts about logs of transactions

  lemma {:induction false} RunAppend(db: Db, a: seq<Txn>, b: seq<Txn>)
    ensures Run(db, a + b) == Run(Run(db, a), b)
    decreases |a|
  {
    if a == [] {
      assert a + b == b;
    } else {
      assert (a + b)[1..] == a[1..] + b;
      RunAppend(Apply(db, a[0]), a[1..], b);
    }
  }

  ghost function StateAt(db: Db, log: seq<Txn>, i: nat): Db
    requires i <= |log|
  {
    Run(db, log[..i])
  }

  lemma StateAfter(db: Db, log: seq<Txn>, i: nat)
    requires i < |log|
    ensures StateAt(db, log, i + 1) == Apply(StateAt(db, log, i), log[i])
  {
    assert log[..i + 1] == log[..i] + [log[i]];
    RunAppend(db, log[..i], [log[i]]);
  }

  lemma StatesEvolve(db: Db, log: seq<Txn>, i: nat, j: nat)
    requires Valid(db) && i <= j <= |log|
    ensures Valid(StateAt(db, log, i)) && DbEvolves(StateAt(db, log, i), StateAt(db, log, j))
    ensures StateAt(db, log, j) == Run(StateAt(db, log, i), log[i..j])
  {
    assert log[..j] == log[..i] + log[i..j];
    RunAppend(db, log[..i], log[i..j]);
    RunOk(db, log[..i]);
    RunOk(StateAt(db, log, i), log[i..j]);
  }

  predicate IsFinalization(txn: Txn) {
    txn.Success? || txn.Retrying? || txn.Failure? || txn.AcknowledgeCancel?
  }

  function FinalizationReply(db: Db, txn: Txn): FenceReply {
    match txn
    case Success(f, outcome, now) => FinalizeSuccess(db, f, outcome, now).1
    case Retrying(f, delay, stamp, now, code, summary, reason) =>
      ScheduleRetry(db, f, delay, stamp, now, code, summary, reason).1
    case Failure(f, now, code, summary, reason) => FinalizeFailure(db, f, now, code, summary, reason).1
    case AcknowledgeCancel(f, now) => FinalizeCancellation(db, f, now).1
    case _ => Stale
  }

  /** A finalization either closes its attempt for good or leaves every row as it was. */
  lemma AppliedOrNothing(db: Db, txn: Txn)
    requires IsFinalization(txn)
    ensures
      if FinalizationReply(db, txn).Applied? then
        txn.fence.Key() in Apply(db, txn).attempts && !Apply(db, txn).attempts[txn.fence.Key()].status.InProgress?
      else Apply(db, txn) == db
  {
  }

  /** In every run of any number of workers, at most one finalization of an attempt is applied. */
  lemma OneFinalizationPerAttempt(db: Db, log: seq<Txn>, i: nat, j: nat)
    requires Valid(db) && i < j < |log| && IsFinalization(log[i]) && IsFinalization(log[j])
    requires log[i].fence.Key() == log[j].fence.Key()
    requires FinalizationReply(StateAt(db, log, i), log[i]).Applied?
    ensures FinalizationReply(StateAt(db, log, j), log[j]) == Stale
  {
    AppliedOrNothing(StateAt(db, log, i), log[i]);
    StateAfter(db, log, i);
    StatesEvolve(db, log, i + 1, j);
    ClosedAttemptFencesOut(StateAt(db, log, i + 1), log[j].fence, log[i + 1..j], log[j].now);
  }

  /** Entry j of the log is the claim that handed out `claim`. */
  ghost predicate Grants(db: Db, log: seq<Txn>, j: nat, claim: ClaimedTask)
    requires j < |log|
  {
    && log[j].Claim?
    && var c := log[j];
    && ClaimOne(StateAt(db, log, j), c.types, c.worker, c.token, c.lease, c.due, c.now).1 == Claimed(claim)
  }

  ghost predicate Backed(db: Db, log: seq<Txn>, i: nat)
    requires i < |log|
  {
    IsFinalization(log[i]) ==>
      exists j: nat, claim: ClaimedTask ::
        && j < i && Grants(db, log, j, claim) && claim.fence == log[i].fence
        && (log[i].Retrying? ==> claim.fence.attemptNumber < claim.maxAttempts)
  }

  lemma GrantedTask(db: Db, log: seq<Txn>, j: nat, k: nat, claim: ClaimedTask)
    requires Valid(db) && j < k <= |log| && Grants(db, log, j, claim)
    ensures claim.fence.taskId in StateAt(db, log, k).tasks
    ensures StateAt(db, log, k).tasks[claim.fence.taskId].maxAttempts == claim.maxAttempts
  {
    var c := log[j];
    StatesEvolve(db, log, j, k);
    NextClaimIsFirst(StateAt(db, log, j), c.types, c.due);
    StateAfter(db, log, j);
    StatesEvolve(db, log, j + 1, k);
  }

  lemma {:induction false} BackedFrom(db: Db, log: seq<Txn>, k: nat)
    requires Valid(db) && k <= |log| && forall i: nat | i < |log| :: Backed(db, log, i)
    ensures DisciplinedRun(StateAt(db, log, k), log[k..])
    decreases |log| - k
  {
    if k < |log| {
      BackedFrom(db, log, k + 1);
      StateAfter(db, log, k);
      assert log[k..][1..] == log[k + 1..];
      if log[k].Retrying? {
        assert Backed(db, log, k);
        var j: nat, claim: ClaimedTask :|
          && j < k && Grants(db, log, j, claim) && claim.fence == log[k].fence
          && claim.fence.attemptNumber < claim.maxAttempts;
        GrantedTask(db, log, j, k, claim);
      }
    }
  }

  /** If every finalization is asked for by a worker that holds the claim, the whole run keeps the attempt budget. */
  lemma FleetKeepsBudget(log: seq<Txn>)
    requires forall i: nat | i < |log| :: Backed(EmptyDb, log, i)
    ensures DisciplinedRun(EmptyDb, log) && Budgeted(Run(EmptyDb, log))
  {
    BackedFrom(EmptyDb, log, 0);
    assert log[0..] == log && log[..0] == [];
    RunBudget(EmptyDb, log);
  }

  // ---------------------------------------------------------------- the worker

  datatype Weather = Clear | LostBefore | LostAfter

  /**
   What is committed before a call, by other processes and by the heartbeat loop of the running claim; the clock of
   the call; and whether the call and its reply get through.
   */
  datatype Slot = Slot(others: seq<Txn>, stamp: Time, now: Time, weather: Weather)

  datatype FenceCall = FenceCall(txn: Txn, reply: Option<FenceReply>)

  /** Everything around one round of the loop that the worker does not decide; `meanwhile` is committed as it waits. */
  datatype Round = Round(
    shutdown: bool, recovery: Slot, delay: Time, claiming: Slot, token: string, meanwhile: seq<Txn>,
    schedule: Schedule, end: HandlerEnd, handlerStopped: bool, backoff: Time, settle: Slot, acknowledge: Slot)

  function TxnOf(f: ExecutionFence, intent: Intent, slot: Slot): Txn
    requires !intent.Leave?
  {
    match intent
    case AskSuccess(value) => Success(f, value, slot.now)
    case AskRetry(delay, code, summary, reason) => Retrying(f, delay, slot.stamp, slot.now, code, summary, reason)
    case AskFailure(code, summary, reason) => Failure(f, slot.now, code, summary, reason)
    case AskCancellation => AcknowledgeCancel(f, slot.now)
  }

  ghost predicate OwnBacked(db: Db, log: seq<Txn>, own: seq<bool>) {
    |own| == |log| && forall i: nat {:trigger Backed(db, log, i)} | i < |log| && own[i] :: Backed(db, log, i)
  }

  lemma GrantStays(db: Db, log: seq<Txn>, longer: seq<Txn>, j: nat, claim: ClaimedTask)
    requires j < |log| && log <= longer && Grants(db, log, j, claim)
    ensures Grants(db, longer, j, claim)
  {
    assert longer[..j] == log[..j];
  }

  /** Two claims never hand out the same attempt. */
  lemma GrantsDiffer(db: Db, log: seq<Txn>, j: nat, k: nat, first: ClaimedTask, second: ClaimedTask)
    requires Valid(db) && j < k < |log| && Grants(db, log, j, first) && Grants(db, log, k, second)
    ensures first.fence.Key() != second.fence.Key()
  {
    GrantIsNew(db, log, j, first);
    GrantIsNew(db, log, k, second);
    StatesEvolve(db, log, j + 1, k);
  }

  lemma GrantIsNew(db: Db, log: seq<Txn>, j: nat, claim: ClaimedTask)
    requires j < |log| && Grants(db, log, j, claim)
    ensures claim.fence.Key() !in StateAt(db, log, j).attempts
    ensures claim.fence.Key() in StateAt(db, log, j + 1).attempts
  {
    var c := log[j];
    NextClaimIsFirst(StateAt(db, log, j), c.types, c.due);
    StateAfter(db, log, j);
  }

  /** The worker returned from a claim, after these finalizations, when the log had `left` entries. */
  datatype Departure = Departure(claim: ClaimedTask, granted: nat, left: nat, calls: seq<FenceCall>)

  /** The claim was the worker's, and none of the worker's later transactions is a heartbeat of it. */
  ghost predicate Departed(db: Db, log: seq<Txn>, own: seq<bool>, d: Departure) {
    && |own| == |log| && d.granted < d.left <= |log| && Grants(db, log, d.granted, d.claim)
    && forall i | d.left <= i < |log| && own[i] && log[i].Beat? :: log[i].fence != d.claim.fence
  }

  ghost predicate AllDeparted(db: Db, log: seq<Txn>, own: seq<bool>, departures: seq<Departure>) {
    forall k {:trigger Departed(db, log, own, departures[k])} | 0 <= k < |departures| ::
      Departed(db, log, own, departures[k])
  }

  lemma DeparturesStay(db: Db, log: seq<Txn>, own: seq<bool>, txn: Txn, mine: bool, departures: seq<Departure>)
    requires AllDeparted(db, log, own, departures)
    requires mine && txn.Beat? ==> forall k | 0 <= k < |departures| :: departures[k].claim.fence != txn.fence
    ensures AllDeparted(db, log + [txn], own + [mine], departures)
  {
    forall k | 0 <= k < |departures| ensures Departed(db, log + [txn], own + [mine], departures[k]) {
      assert Departed(db, log, own, departures[k]);
      DepartureStays(db, log, own, txn, mine, departures[k]);
    }
  }

  lemma DepartureStays(db: Db, log: seq<Txn>, own: seq<bool>, txn: Txn, mine: bool, d: Departure)
    requires Departed(db, log, own, d) && (mine && txn.Beat? ==> txn.fence != d.claim.fence)
    ensures Departed(db, log + [txn], own + [mine], d)
  {
    GrantStays(db, log, log + [txn], d.granted, d.claim);
  }

  /** Nobody else beats with the claim's fence: its token never leaves the worker's memory. */
  predicate Private(log: seq<Txn>, own: seq<bool>, f: ExecutionFence)
    requires |own| == |log|
  {
    forall i | 0 <= i < |log| && !own[i] && log[i].Beat? :: log[i].fence != f
  }

  /** After the worker has left a claim, nothing beats with its fence any more. */
  lemma DepartureEndsBeats(db: Db, log: seq<Txn>, own: seq<bool>, d: Departure)
    requires Departed(db, log, own, d) && Private(log, own, d.claim.fence)
    ensures NoBeats(log[d.left..], d.claim.fence)
  {
    forall i | 0 <= i < |log[d.left..]| && log[d.left..][i].Beat? ensures log[d.left..][i].fence != d.claim.fence {
      assert log[d.left..][i] == log[d.left + i];
    }
  }

  /** Hence a claim that was left unfinished is ended by recovery, once its lease is past and its turn comes. */
  lemma LeftClaimIsRecovered(db: Db, log: seq<Txn>, own: seq<bool>, d: Departure, past: Time)
    requires Valid(db) && Departed(db, log, own, d) && Private(log, own, d.claim.fence)
    requires
      var at := StateAt(db, log, d.left);
      && Stands(at, d.claim.fence.taskId, d.claim.fence.attemptNumber, past) && Owner(at, d.claim.fence)
      && RecoveriesPast(log[d.left..], past) > |ExpiresBefore(at, d.claim.fence.taskId)|
    requires forall i | d.left <= i < |log| :: LateLease(log[i], past)
    ensures AttemptEnded(Run(db, log), d.claim.fence.taskId, d.claim.fence.attemptNumber)
  {
    StatesEvolve(db, log, d.left, |log|);
    assert log[..|log|] == log && log[d.left..|log|] == log[d.left..];
    DepartureEndsBeats(db, log, own, d);
    RecoveryFinishes(StateAt(db, log, d.left), d.claim.fence, past, log[d.left..]);
  }

  lemma BackingStays(db: Db, log: seq<Txn>, longer: seq<Txn>, i: nat)
    requires i < |log| && log <= longer && Backed(db, log, i)
    ensures Backed(db, longer, i)
  {
    if IsFinalization(log[i]) {
      var j: nat, claim: ClaimedTask :|
        && j < i && Grants(db, log, j, claim) && claim.fence == log[i].fence
        && (log[i].Retrying? ==> claim.fence.attemptNumber < claim.maxAttempts);
      GrantStays(db, log, longer, j, claim);
    }
  }

  lemma OwnBackedGrows(db: Db, log: seq<Txn>, own: seq<bool>, txn: Txn, mine: bool)
    requires OwnBacked(db, log, own)
    requires mine ==> Backed(db, log + [txn], |log|)
    ensures OwnBacked(db, log + [txn], own + [mine])
  {
    var longer := log + [txn];
    forall i: nat | i < |longer| && (own + [mine])[i] ensures Backed(db, longer, i) {
      if i < |log| {
        assert Backed(db, log, i);
        BackingStays(db, log, longer, i);
      }
    }
  }

  /** What one call adds to the log. */
  function Sent(txn: Txn, slot: Slot): seq<Txn> {
    slot.others + (if slot.weather.LostBefore? then [] else [txn])
  }

  /** What the worker learns: nothing when the call was lost or the transaction raised. */
  function Heard<T>(reply: T, raised: bool, slot: Slot): Option<T> {
    if slot.weather.Clear? && !raised then Some(reply) else None
  }

  function HeardReply(db: Db, txn: Txn, slot: Slot): Option<FenceReply> {
    var reply := FinalizationReply(db, txn);
    Heard(reply, reply.FinalizeRaised?, slot)
  }

  /** The calls a claim made, the answers it heard, and what that added to the log. */
  ghost predicate Settled(origin: Db, before: seq<Txn>, after: seq<Txn>, f: ExecutionFence, intent: Intent, r: Round,
                          calls: seq<FenceCall>)
  {
    if intent.Leave? then calls == [] && after == before
    else
      && 1 <= |calls| <= 2
      && calls[0].txn == TxnOf(f, intent, r.settle)
      && calls[0].reply == HeardReply(Run(origin, before + r.settle.others), calls[0].txn, r.settle)
      && (|calls| == 2 <==> !intent.AskCancellation? && calls[0].reply == Some(CancellationRequested))
      && (|calls| == 1 ==> after == before + Sent(calls[0].txn, r.settle))
      && (|calls| == 2 ==>
            && calls[1].txn == AcknowledgeCancel(f, r.acknowledge.now)
            && after == before + Sent(calls[0].txn, r.settle) + Sent(calls[1].txn, r.acknowledge)
            && calls[1].reply == HeardReply(
                                   Run(origin, before + Sent(calls[0].txn, r.settle) + r.acknowledge.others),
                                   calls[1].txn, r.acknowledge))
  }

  predicate LastApplied(calls: seq<FenceCall>) {
    calls != [] && calls[|calls| - 1].reply == Some(Applied)
  }

  predicate LastRefused(calls: seq<FenceCall>) {
    calls != [] && calls[|calls| - 1].reply.Some? && calls[|calls| - 1].reply != Some(Applied)
  }

  /** What makes a claim the worker's last: uncertain ownership, a handler still at work, or a refused finalization. */
  predicate Retires(claim: ClaimedTask, r: Round, calls: seq<FenceCall>) {
    || CauseOf(r.schedule) == Some(OwnershipLoss)
    || (CauseOf(r.schedule).Some? && !r.handlerStopped)
    || IntentOf(claim, r.schedule, r.end, r.backoff) == Leave(true)
    || LastRefused(calls)
  }

  lemma HeardAppliedCloses(origin: Db, earlier: seq<Txn>, txn: Txn, slot: Slot)
    requires IsFinalization(txn) && HeardReply(Run(origin, earlier), txn, slot) == Some(Applied)
    ensures AttemptEnded(Run(origin, earlier + [txn]), txn.fence.taskId, txn.fence.attemptNumber)
  {
    RunAppend(origin, earlier, [txn]);
    AppliedOrNothing(Run(origin, earlier), txn);
  }

  /** A last finalization that is heard to be applied has closed the attempt. */
  lemma AppliedCloses(origin: Db, before: seq<Txn>, after: seq<Txn>, claim: ClaimedTask, intent: Intent, r: Round,
                      calls: seq<FenceCall>)
    requires Settled(origin, before, after, claim.fence, intent, r, calls) && LastApplied(calls)
    ensures AttemptEnded(Run(origin, after), claim.fence.taskId, claim.fence.attemptNumber)
  {
    if |calls| == 1 {
      HeardAppliedCloses(origin, before + r.settle.others, calls[0].txn, r.settle);
      assert after == before + r.settle.others + [calls[0].txn];
    } else {
      var earlier := before + Sent(calls[0].txn, r.settle) + r.acknowledge.others;
      HeardAppliedCloses(origin, earlier, calls[1].txn, r.acknowledge);
      assert after == earlier + [calls[1].txn];
    }
  }

  /** The last call never answered: it was lost, or its transaction raised. */
  predicate LastLost(calls: seq<FenceCall>) { calls != [] && calls[|calls| - 1].reply.None? }

  /** The recovery of a round came back. */
  ghost predicate HeardRecovery(db: Db, r: Round) {
    r.recovery.weather.Clear? && !RecoverOneExpired(db, r.delay, r.recovery.now).1.RecoveryRaised?
  }

  /** The claim that a round heard of. */
  ghost function HeardClaim(db: Db, txn: Txn, slot: Slot): Option<ClaimedTask>
    requires txn.Claim?
  {
    var reply := ClaimOne(db, txn.types, txn.worker, txn.token, txn.lease, txn.due, txn.now).1;
    if slot.weather.Clear? && reply.Claimed? then Some(reply.claim) else None
  }

  /** The worker's identity, as far as its claims show it. */
  datatype Profile = Profile(workerId: string, types: set<string>, lease: Time)
  {
    function ClaimTxn(r: Round): Txn {
      Claim(types, workerId, r.token, lease, r.claiming.stamp, r.claiming.now)
    }
  }

  datatype RoundEnd = RoundEnd(calls: seq<FenceCall>, retires: bool)

  /** One whole round: a recovery; when that comes back a claim; when one is granted and heard, its execution. */
  ghost predicate RoundRan(origin: Db, before: seq<Txn>, after: seq<Txn>, w: Profile, r: Round, end: RoundEnd) {
    var recovered := before + Sent(Recover(r.delay, r.recovery.now), r.recovery);
    var claimed := recovered + Sent(w.ClaimTxn(r), r.claiming);
    if !HeardRecovery(Run(origin, before + r.recovery.others), r) then after == recovered && end == RoundEnd([], false)
    else
      match HeardClaim(Run(origin, recovered + r.claiming.others), w.ClaimTxn(r), r.claiming)
      case None => after == claimed && end == RoundEnd([], false)
      case Some(c) =>
        && Settled(origin, claimed + r.meanwhile, after, c.fence, IntentOf(c, r.schedule, r.end, r.backoff), r,
                   end.calls)
        && (end.retires <==> Retires(c, r, end.calls))
  }

  lemma RoundStops(origin: Db, before: seq<Txn>, w: Profile, r: Round)
    requires !HeardRecovery(Run(origin, before + r.recovery.others), r)
    ensures RoundRan(origin, before, before + Sent(Recover(r.delay, r.recovery.now), r.recovery), w, r,
                     RoundEnd([], false))
  {
  }

  lemma RoundFindsNothing(origin: Db, before: seq<Txn>, w: Profile, r: Round)
    requires HeardRecovery(Run(origin, before + r.recovery.others), r)
    requires
      var recovered := before + Sent(Recover(r.delay, r.recovery.now), r.recovery);
      HeardClaim(Run(origin, recovered + r.claiming.others), w.ClaimTxn(r), r.claiming).None?
    ensures
      var recovered := before + Sent(Recover(r.delay, r.recovery.now), r.recovery);
      RoundRan(origin, before, recovered + Sent(w.ClaimTxn(r), r.claiming), w, r, RoundEnd([], false))
  {
  }

  /** The first two steps of a round, when a claim was heard. */
  ghost predicate Granted(origin: Db, before: seq<Txn>, claimed: seq<Txn>, w: Profile, r: Round, c: ClaimedTask) {
    var recovered := before + Sent(Recover(r.delay, r.recovery.now), r.recovery);
    && HeardRecovery(Run(origin, before + r.recovery.others), r)
    && claimed == recovered + Sent(w.ClaimTxn(r), r.claiming)
    && HeardClaim(Run(origin, recovered + r.claiming.others), w.ClaimTxn(r), r.claiming) == Some(c)
  }

  lemma RoundExecutes(origin: Db, before: seq<Txn>, claimed: seq<Txn>, after: seq<Txn>, w: Profile, r: Round,
                      c: ClaimedTask, calls: seq<FenceCall>)
    requires Granted(origin, before, claimed, w, r, c)
    requires Settled(origin, claimed + r.meanwhile, after, c.fence, IntentOf(c, r.schedule, r.end, r.backoff), r, calls)
    ensures RoundRan(origin, before, after, w, r, RoundEnd(calls, Retires(c, r, calls)))
  {
  }

  /** Round k took the log from one mark to the next. */
  ghost predicate RanAt(origin: Db, log: seq<Txn>, w: Profile, rounds: seq<Round>, marks: seq<nat>,
                        ends: seq<RoundEnd>, k: nat)
    requires |marks| == |ends| + 1 && |ends| <= |rounds| && k < |ends|
  {
    marks[k] <= marks[k + 1] <= |log| && RoundRan(origin, log[..marks[k]], log[..marks[k + 1]], w, rounds[k], ends[k])
  }

  /** The rounds that were run, one after another; `marks` are the lengths of the log between them. */
  ghost predicate RoundsRan(origin: Db, first: seq<Txn>, log: seq<Txn>, w: Profile, rounds: seq<Round>,
                            marks: seq<nat>, ends: seq<RoundEnd>)
  {
    && |marks| == |ends| + 1 && |ends| <= |rounds|
    && marks[0] == |first| && marks[|ends|] == |log| && first <= log
    && (forall k: nat {:trigger RanAt(origin, log, w, rounds, marks, ends, k)} | k < |ends| ::
          RanAt(origin, log, w, rounds, marks, ends, k))
  }

  lemma NextRoundRan(origin: Db, first: seq<Txn>, log: seq<Txn>, longer: seq<Txn>, w: Profile, rounds: seq<Round>,
                     marks: seq<nat>, ends: seq<RoundEnd>, end: RoundEnd)
    requires RoundsRan(origin, first, log, w, rounds, marks, ends) && |ends| < |rounds|
    requires log <= longer && RoundRan(origin, log, longer, w, rounds[|ends|], end)
    ensures RoundsRan(origin, first, longer, w, rounds, marks + [|longer|], ends + [end])
  {
    var m, e := marks + [|longer|], ends + [end];
    forall k: nat | k < |e| ensures RanAt(origin, longer, w, rounds, m, e, k) {
      if k < |ends| {
        assert RanAt(origin, log, w, rounds, marks, ends, k);
        assert longer[..m[k]] == log[..marks[k]] && longer[..m[k + 1]] == log[..marks[k + 1]];
      } else {
        assert longer[..m[k]] == log && longer[..m[k + 1]] == longer;
      }
    }
  }

  /** Nothing but the last round can have retired the worker or lost a call, and no round began at a shutdown. */
  ghost predicate Flags(rounds: seq<Round>, ends: seq<RoundEnd>, stoppedBefore: bool, raised: bool, stopped: bool) {
    && |ends| <= |rounds|
    && (forall k | 0 <= k < |ends| :: !rounds[k].shutdown)
    && (forall k | 0 <= k < |ends| - 1 :: !ends[k].retires && !LastLost(ends[k].calls))
    && (raised <==> ends != [] && LastLost(ends[|ends| - 1].calls))
    && (stopped <==> stoppedBefore || (ends != [] && ends[|ends| - 1].retires))
    && (stoppedBefore ==> ends == [])
  }

  lemma NextFlags(rounds: seq<Round>, ends: seq<RoundEnd>, stoppedBefore: bool, end: RoundEnd)
    requires Flags(rounds, ends, stoppedBefore, false, false) && |ends| < |rounds| && !rounds[|ends|].shutdown
    ensures Flags(rounds, ends + [end], stoppedBefore, LastLost(end.calls), end.retires)
  {
  }

  class Worker {
    const db: Database
    const workerId: string
    const types: set<string>
    const lease: Time
    var stopClaiming: bool
    /** Every transaction committed since `origin`, by this worker or by others, and which are its own. */
    ghost const origin: Db
    ghost var log: seq<Txn>
    ghost var own: seq<bool>
    /** The claims this worker has returned from. */
    ghost var departures: seq<Departure>

    /**
     Each finalization of this worker is for a claim that it was granted, within its budget, and it makes no
     heartbeat of a claim that it has left.
     */
    ghost predicate Valid()
      reads this, db
    {
      && TaskInvariants.Valid(origin)
      && db.Tables() == Run(origin, log)
      && OwnBacked(origin, log, own)
      && AllDeparted(origin, log, own, departures)
    }

    /** The claim was granted at entry `at`, after every claim that this worker has left. */
    ghost predicate Holds(claim: ClaimedTask, at: nat)
      reads this
    {
      && at < |log| && Grants(origin, log, at, claim)
      && forall k | 0 <= k < |departures| :: departures[k].left <= at
    }

    constructor (db: Database, workerId: string, types: set<string>, lease: Time)
      requires TaskInvariants.Valid(db.Tables())
      ensures this.db == db && Valid() && log == [] && !stopClaiming && origin == db.Tables() && departures == []
    {
      this.db := db;
      this.workerId := workerId;
      this.types := types;
      this.lease := lease;
      stopClaiming := false;
      origin := db.Tables();
      log := [];
      own := [];
      departures := [];
    }

    ghost method Record(txn: Txn, mine: bool)
      requires TaskInvariants.Valid(origin) && OwnBacked(origin, log, own)
      requires db.Tables() == Apply(Run(origin, log), txn)
      requires mine ==> Backed(origin, log + [txn], |log|)
      requires AllDeparted(origin, log, own, departures)
      requires mine && txn.Beat? ==> forall k | 0 <= k < |departures| :: departures[k].claim.fence != txn.fence
      modifies this`log, this`own
      ensures Valid() && log == old(log) + [txn] && own == old(own) + [mine]
    {
      OwnBackedGrows(origin, log, own, txn, mine);
      RunAppend(origin, log, [txn]);
      DeparturesStay(origin, log, own, txn, mine, departures);
      log := log + [txn];
      own := own + [mine];
    }

    /** Between two awaits other processes commit, and so does the heartbeat loop while a claim is running. */
    method Interfere(others: seq<Txn>, running: Option<ExecutionFence>)
      requires Valid()
      requires running.Some? ==> forall k | 0 <= k < |departures| :: departures[k].claim.fence != running.value
      modifies this`log, this`own, db
      ensures Valid() && log == old(log) + others && old(own) <= own
      ensures forall i | |old(log)| <= i < |log| ::
                own[i] <==> log[i].Beat? && running == Some(log[i].fence)
    {
      for i := 0 to |others|
        invariant Valid() && log == old(log) + others[..i] && old(own) <= own
        invariant forall j | |old(log)| <= j < |log| :: own[j] <==> log[j].Beat? && running == Some(log[j].fence)
      {
        db.Perform(others[i]);
        Record(others[i], others[i].Beat? && running == Some(others[i].fence));
      }
    }

    /** A claim granted after the others were left has a fence of its own. */
    lemma HeldIsNotDeparted(claim: ClaimedTask, at: nat)
      requires Valid() && Holds(claim, at)
      ensures forall k | 0 <= k < |departures| :: departures[k].claim.fence != claim.fence
    {
      forall k | 0 <= k < |departures| ensures departures[k].claim.fence != claim.fence {
        var d := departures[k];
        assert Departed(origin, log, own, d);
        GrantsDiffer(origin, log, d.granted, at, d.claim, claim);
      }
    }

    lemma StillHolds(claim: ClaimedTask, at: nat, before: seq<Txn>)
      requires at < |before| && before <= log && Grants(origin, before, at, claim)
      ensures at < |log| && Grants(origin, log, at, claim)
    {
      GrantStays(origin, before, log, at, claim);
    }

    method Finalization(claim: ClaimedTask, txn: Txn, slot: Slot, ghost at: nat) returns (reply: Option<FenceReply>)
      requires Valid() && Holds(claim, at)
      requires IsFinalization(txn) && txn.fence == claim.fence
      requires txn.Retrying? ==> claim.fence.attemptNumber < claim.maxAttempts
      modifies this`log, this`own, db
      ensures Valid() && log == old(log) + Sent(txn, slot) && old(own) <= own
      ensures reply == HeardReply(Run(origin, old(log) + slot.others), txn, slot)
    {
      HeldIsNotDeparted(claim, at);
      Interfere(slot.others, Some(claim.fence));
      if slot.weather.LostBefore? { return None; }
      GrantStays(origin, old(log), log + [txn], at, claim);
      var answer: FenceReply;
      match txn {
        case Success(f, outcome, now) => answer := db.Succeed(f, outcome, now);
        case Retrying(f, delay, stamp, now, code, summary, reason) =>
          answer := db.Retry(f, delay, stamp, now, code, summary, reason);
        case Failure(f, now, code, summary, reason) => answer := db.Fail(f, now, code, summary, reason);
        case AcknowledgeCancel(f, now) => answer := db.AcknowledgeCancellation(f, now);
      }
      Record(txn, true);
      reply := if slot.weather.Clear? && !answer.FinalizeRaised? then Some(answer) else None;
    }

    method FinalizeCustomerCancellation(claim: ClaimedTask, slot: Slot, ghost at: nat) returns (call: FenceCall)
      requires Valid() && Holds(claim, at)
      modifies this`log, this`own, this`stopClaiming, db
      ensures Valid() && log == old(log) + Sent(call.txn, slot) && old(own) <= own
      ensures call == FenceCall(AcknowledgeCancel(claim.fence, slot.now),
                                HeardReply(Run(origin, old(log) + slot.others), call.txn, slot))
      ensures stopClaiming <==> old(stopClaiming) || (call.reply.Some? && !call.reply.value.Applied?)
    {
      var txn := AcknowledgeCancel(claim.fence, slot.now);
      var reply := Finalization(claim, txn, slot, at);
      if reply.Some? && !reply.value.Applied? { stopClaiming := true; }
      call := FenceCall(txn, reply);
    }

    /** One claim, from the waits to the last finalization; the handler's own effects are not part of the tables. */
    method ExecuteClaim(claim: ClaimedTask, r: Round, ghost at: nat) returns (calls: seq<FenceCall>)
      requires Valid() && Holds(claim, at)
      requires Plausible(r.schedule)
      modifies this, db
      ensures Valid() && old(log) <= log && old(own) <= own
      ensures Settled(origin, old(log) + r.meanwhile, log, claim.fence,
                      IntentOf(claim, r.schedule, r.end, r.backoff), r, calls)
      ensures stopClaiming <==> old(stopClaiming) || Retires(claim, r, calls)
      ensures LastApplied(calls) ==> AttemptEnded(db.Tables(), claim.fence.taskId, claim.fence.attemptNumber)
      ensures departures == old(departures) + [Departure(claim, at, |log|, calls)]
    {
      HeldIsNotDeparted(claim, at);
      Interfere(r.meanwhile, Some(claim.fence));
      StillHolds(claim, at, old(log));
      calls := Conclude(claim, r, at);
      if LastApplied(calls) {
        var intent := IntentOf(claim, r.schedule, r.end, r.backoff);
        AppliedCloses(origin, old(log) + r.meanwhile, log, claim, intent, r, calls);
      }
      Depart(claim, at, calls);
    }

    /** The heartbeat loop is cancelled on the way out. */
    ghost method Depart(claim: ClaimedTask, at: nat, calls: seq<FenceCall>)
      requires Valid() && at < |log| && Grants(origin, log, at, claim)
      modifies this`departures
      ensures Valid() && departures == old(departures) + [Departure(claim, at, |log|, calls)]
    {
      assert Departed(origin, log, own, Departure(claim, at, |log|, calls));
      departures := departures + [Departure(claim, at, |log|, calls)];
    }

    /** The cause, the stop flag and the finalization that the outcome calls for. */
    method Conclude(claim: ClaimedTask, r: Round, ghost at: nat) returns (calls: seq<FenceCall>)
      requires Valid() && Holds(claim, at)
      requires Plausible(r.schedule)
      modifies this`log, this`own, this`stopClaiming, db
      ensures Valid() && old(log) <= log && old(own) <= own && Holds(claim, at)
      ensures Settled(origin, old(log), log, claim.fence, IntentOf(claim, r.schedule, r.end, r.backoff), r, calls)
      ensures stopClaiming <==> old(stopClaiming) || Retires(claim, r, calls)
    {
      var cause := FirstCause(r.schedule);
      if cause.Some? && (cause.value.OwnershipLoss? || !r.handlerStopped) { stopClaiming := true; }
      var intent := IntentOf(claim, r.schedule, r.end, r.backoff);
      if intent.Leave? {
        LeaveStops(claim, r.schedule, r.end, r.backoff);
        if cause.None? { stopClaiming := true; }
        return [];
      }
      RetryWithinBudget(claim, r.schedule, r.end, r.backoff);
      calls := Settle(claim, intent, r, at);
      StillHolds(claim, at, old(log));
    }

    /** The waits: a heartbeat's cause wins over a timeout; a shutdown grants one more bounded wait. */
    method FirstCause(s: Schedule) returns (cause: Option<StopCause>)
      ensures cause == CauseOf(s)
      ensures s.first.heartbeat.Some? ==> cause == s.first.heartbeat
      ensures s.first.heartbeat.None? && s.first.timeout ==> cause == Some(TimedOut)
      ensures s.first.heartbeat.None? && !s.first.timeout && (s.first.handler || !s.first.shutdown) ==> cause == None
      ensures
        var d := s.second;
        s.first.heartbeat.None? && !s.first.timeout && !s.first.handler && s.first.shutdown ==>
          cause == if d.heartbeat.Some? then d.heartbeat
                   else if d.timeout then Some(TimedOut)
                   else if d.handler then None
                   else Some(WorkerShutdown)
    {
      cause := CompletedCause(s.first);
      if s.first.shutdown && cause.None? && !s.first.handler {
        cause := CompletedCause(s.second);
        if NoneFinished(s.second) { cause := Some(WorkerShutdown); }
      }
    }

    /** A success, retry or failure whose fence fails for a cancellation is followed by its acknowledgement. */
    method Settle(claim: ClaimedTask, intent: Intent, r: Round, ghost at: nat)
      returns (calls: seq<FenceCall>)
      requires Valid() && Holds(claim, at)
      requires !intent.Leave?
      requires intent.AskRetry? ==> claim.fence.attemptNumber < claim.maxAttempts
      modifies this`log, this`own, this`stopClaiming, db
      ensures Valid() && old(log) <= log && old(own) <= own
      ensures Settled(origin, old(log), log, claim.fence, intent, r, calls)
      ensures stopClaiming <==> old(stopClaiming) || LastRefused(calls)
    {
      if intent.AskCancellation? {
        var call := FinalizeCustomerCancellation(claim, r.settle, at);
        return [call];
      }
      calls := Ask(claim, intent, r, at);
    }

    method Ask(claim: ClaimedTask, intent: Intent, r: Round, ghost at: nat) returns (calls: seq<FenceCall>)
      requires Valid() && Holds(claim, at)
      requires !intent.Leave? && !intent.AskCancellation?
      requires intent.AskRetry? ==> claim.fence.attemptNumber < claim.maxAttempts
      modifies this`log, this`own, this`stopClaiming, db
      ensures Valid() && old(log) <= log && old(own) <= own
      ensures Settled(origin, old(log), log, claim.fence, intent, r, calls)
      ensures stopClaiming <==> old(stopClaiming) || LastRefused(calls)
    {
      var txn := TxnOf(claim.fence, intent, r.settle);
      var reply := Finalization(claim, txn, r.settle, at);
      calls := [FenceCall(txn, reply)];
      if reply == Some(CancellationRequested) {
        StillHolds(claim, at, old(log));
        var call := FinalizeCustomerCancellation(claim, r.acknowledge, at);
        calls := calls + [call];
      } else if reply.Some? && !reply.value.Applied? {
        stopClaiming := true;
      }
    }

    function Self(): Profile
      reads this
    {
      Profile(workerId, types, lease)
    }

    /** One claim; None when nothing is due, the call was lost or the transaction raised. */
    method TryClaim(r: Round) returns (claim: Option<ClaimedTask>)
      requires Valid()
      modifies this`log, this`own, db
      ensures Valid() && old(own) <= own
      ensures log == old(log) + Sent(Self().ClaimTxn(r), r.claiming)
      ensures claim == HeardClaim(Run(origin, old(log) + r.claiming.others), Self().ClaimTxn(r), r.claiming)
      ensures claim.Some? ==> |log| > |old(log)| && own[|log| - 1] && Grants(origin, log, |log| - 1, claim.value)
    {
      Interfere(r.claiming.others, None);
      if r.claiming.weather.LostBefore? { return None; }
      ghost var before := log;
      var now := r.claiming.now;
      var answer := db.ClaimOneTask(types, workerId, r.token, lease, r.claiming.stamp, now);
      Record(Claim(types, workerId, r.token, lease, r.claiming.stamp, now), true);
      assert log[..|before|] == before;
      claim := if r.claiming.weather.Clear? && answer.Claimed? then Some(answer.claim) else None;
    }

    method TryRecover(r: Round) returns (reached: bool)
      requires Valid()
      modifies this`log, this`own, db
      ensures Valid() && old(own) <= own
      ensures log == old(log) + Sent(Recover(r.delay, r.recovery.now), r.recovery)
      ensures reached <==> HeardRecovery(Run(origin, old(log) + r.recovery.others), r)
    {
      Interfere(r.recovery.others, None);
      if r.recovery.weather.LostBefore? { return false; }
      var answer := db.RecoverExpired(r.delay, r.recovery.now);
      Record(Recover(r.delay, r.recovery.now), true);
      reached := r.recovery.weather.Clear? && !answer.RecoveryRaised?;
    }

    ghost predicate Grown(before: seq<Txn>, ownBefore: seq<bool>, departuresBefore: seq<Departure>)
      reads this
    {
      before <= log && ownBefore <= own && departuresBefore <= departures
    }

    /**
     Recover, claim, execute, until shutdown or uncertainty. A lost recovery or claim is retried in the next round;
     a lost finalization ends the loop. Exactly the first `served` rounds were run, each as RoundRan says, and only
     the last of them can have retired the worker or lost a finalization.
     */
    method Work(rounds: seq<Round>)
      returns (served: nat, raised: bool, ghost marks: seq<nat>, ghost ends: seq<RoundEnd>)
      requires Valid() && forall r | r in rounds :: Plausible(r.schedule)
      modifies this, db
      ensures Valid() && |ends| == served
      ensures RoundsRan(origin, old(log), log, Self(), rounds, marks, ends)
      ensures Flags(rounds, ends, old(stopClaiming), raised, stopClaiming)
      ensures served < |rounds| ==> rounds[served].shutdown || stopClaiming || raised
    {
      served, raised := 0, false;
      marks, ends := [|log|], [];
      while served < |rounds| && !rounds[served].shutdown && !stopClaiming && !raised
        invariant Valid() && |ends| == served
        invariant RoundsRan(origin, old(log), log, Self(), rounds, marks, ends)
        invariant Flags(rounds, ends, old(stopClaiming), raised, stopClaiming)
      {
        ghost var before := log;
        ghost var end: RoundEnd;
        raised, end := ServeRound(rounds[served]);
        NextRoundRan(origin, old(log), before, log, Self(), rounds, marks, ends, end);
        NextFlags(rounds, ends, old(stopClaiming), end);
        marks, ends := marks + [|log|], ends + [end];
        served := served + 1;
      }
    }

    method ServeRound(r: Round) returns (raised: bool, ghost end: RoundEnd)
      requires Valid() && Plausible(r.schedule)
      modifies this, db
      ensures Valid() && old(log) <= log
      ensures RoundRan(origin, old(log), log, Self(), r, end)
      ensures raised <==> LastLost(end.calls)
      ensures stopClaiming <==> old(stopClaiming) || end.retires
    {
      var claim := RecoverAndClaim(r);
      if claim.None? { return false, RoundEnd([], false); }
      ghost var before := log;
      var calls := ExecuteClaim(claim.value, r, |log| - 1);
      RoundExecutes(origin, old(log), before, log, Self(), r, claim.value, calls);
      raised := LastLost(calls);
      end := RoundEnd(calls, Retires(claim.value, r, calls));
    }

    method RecoverAndClaim(r: Round) returns (claim: Option<ClaimedTask>)
      requires Valid()
      modifies this`log, this`own, db
      ensures Valid() && old(log) <= log
      ensures claim.None? ==> RoundRan(origin, old(log), log, Self(), r, RoundEnd([], false))
      ensures claim.Some? ==> |log| > 0 && Holds(claim.value, |log| - 1)
      ensures claim.Some? ==> Granted(origin, old(log), log, Self(), r, claim.value)
    {
      var reached := TryRecover(r);
      if !reached {
        RoundStops(origin, old(log), Self(), r);
        return None;
      }
      NewestGrant();
      claim := TryClaim(r);
      if claim.None? { RoundFindsNothing(origin, old(log), Self(), r); }
    }

    lemma NewestGrant()
      requires Valid()
      ensures forall k | 0 <= k < |departures| :: departures[k].left <= |log|
    {
      forall k | 0 <= k < |departures| ensures departures[k].left <= |log| {
        assert Departed(origin, log, own, departures[k]);
      }
    }
  }
}
