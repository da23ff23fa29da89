/**
 What each ledger operation answers and writes, column by column, and what a later reservation makes of it: the
 request a scope stands for is the one it was first reserved or last revised with.
 */
module LedgerOutcomes {
  import opened Wrappers
  import opened TaskDomain
  import opened TaskStore
  import opened ActionLedger

  /** The joined task and attempt rows that a ledger write asks for. */
  predicate FenceOpen(db: Db, f: ExecutionFence, now: Time) {
    && f.taskId in db.tasks && AttemptKey(f.taskId, f.attemptNumber) in db.attempts
    && var t, a := db.tasks[f.taskId], db.attempts[AttemptKey(f.taskId, f.attemptNumber)];
    && t.status == Running && t.workerId == Some(f.workerId) && t.leaseToken == Some(f.leaseToken)
    && t.attemptCount == f.attemptNumber && t.leaseExpiresAt.Some? && now < t.leaseExpiresAt.value
    && a.status == InProgress && a.leaseToken == f.leaseToken
  }

  /** One write: the row of the scope is replaced, and one entry that describes the change is appended. */
  predicate Wrote(before: Ledger, after: Ledger, scope: Scope, row: Action, f: ExecutionFence, transition: Label,
                  previous: Option<ActionStatus>, errorCode: Option<string>)
  {
    && after.actions == before.actions[scope := row]
    && row.taskId == f.taskId && row.attemptNumber == f.attemptNumber
    && row.sequence == (if scope in before.actions then before.actions[scope].sequence + 1 else 1)
    && after.log == before.log + [Entry(scope, f.taskId, f.attemptNumber, row.sequence, transition, previous,
                                        row.status, row.revision, errorCode)]
  }

  // ---------------------------------------------------------------- reservations

  /** The columns of a first reservation. */
  predicate Fresh(row: Action, provider: Provider, operation: Operation, desired: Fingerprint, snapshot: Fingerprint,
                  now: Time)
  {
    && row.provider == provider && row.operation == operation && row.desired == desired && row.snapshot == snapshot
    && row.revision == 1 && row.status == Reserved && row.reservedAt == now && row.updatedAt == now
    && row.applied.None? && row.resource.None? && row.url.None? && row.response.None? && row.errorCode.None?
    && row.writeStartedAt.None? && row.reconcileNotBefore.None? && row.completedAt.None?
  }

  lemma ReservationMeans(db: Db, ledger: Ledger, f: ExecutionFence, provider: Provider, operation: Operation,
                         scope: Scope, desired: Fingerprint, snapshot: Fingerprint, now: Time)
    ensures
      var supported := || (provider.GitHub? && operation.UpsertComment?)
                       || (provider.Slack? && operation.PostNotification?);
      var (after, reply) := Perform(db, ledger, ReserveOp(f, provider, operation, scope, desired, snapshot, now));
      && (!reply.Done? ==> after == ledger)
      && (if !supported then reply.BadArguments?
          else if !FenceOpen(db, f, now) then reply.FenceLost?
          else if scope !in ledger.actions then
            && reply.Done? && reply.kind.Created? && Fresh(reply.action, provider, operation, desired, snapshot, now)
            && Wrote(ledger, after, scope, reply.action, f, FirstReserved, None, None)
          else
            var a := ledger.actions[scope];
            if a.provider != provider || a.operation != operation then reply.Unexpected?
            else
              && reply.Done?
              && (reply.kind.Changed? <==> a.desired != desired)
              && (reply.kind.Replay? <==> a.desired == desired && a.snapshot == snapshot)
              && (reply.kind.SourceDrift? <==> a.desired == desired && a.snapshot != snapshot)
              && reply.action == a.(taskId := f.taskId, attemptNumber := f.attemptNumber, sequence := a.sequence + 1,
                                    updatedAt := now)
              && Wrote(ledger, after, scope, reply.action, f, Reservation(reply.kind), Some(a.status), None))
  {
  }

  // ---------------------------------------------------------------- transitions

  /** The columns a transition leaves. */
  predicate MovedTo(a: Action, row: Action, m: Move, now: Time) {
    && row.status == m.status && row.errorCode == m.errorCode && row.updatedAt == now
    && row.provider == a.provider && row.operation == a.operation && row.reservedAt == a.reservedAt
    && row.desired == a.desired && row.snapshot == a.snapshot && row.revision == a.revision
    && (match m.evidence
        case None =>
          row.resource == a.resource && row.url == a.url && row.response == a.response && row.applied == a.applied
        case Some(e) =>
          && row.resource == Some(e.resource) && row.url == e.url && row.response == Some(e.response)
          && row.applied == Some(e.applied))
    && row.completedAt == (if m.status == ActionSucceeded then Some(now) else a.completedAt)
    && row.writeStartedAt
       == (if m.settlement.Some? then Some(now) else if m.clearWriteStarted then None else a.writeStartedAt)
    && (match (m.notBefore, m.settlement)
        case (Some(delay), _) => row.reconcileNotBefore == Some(now + delay)
        case (None, Some(delay)) => row.reconcileNotBefore == Some(now + delay)
        case (None, None) =>
          row.reconcileNotBefore == if m.clearNotBefore then None else a.reconcileNotBefore)
  }

  /** The CHECK constraints, as far as a transition can break them. */
  predicate Allowed(row: Action) {
    && (row.status == ActionSucceeded ==> row.resource.Some? && row.applied.Some? && row.completedAt.Some?)
    && (row.status != ActionSucceeded ==> row.completedAt.None?)
    && (row.status == OutcomeUnknown ==> row.writeStartedAt.Some?)
  }

  lemma TransitionMeans(db: Db, ledger: Ledger, f: ExecutionFence, scope: Scope, m: Move, now: Time)
    requires scope in ledger.actions ==> ledger.actions[scope].revision >= 1 && ledger.actions[scope].sequence >= 1
    ensures
      var badDelays := || (m.settlement.Some? && m.notBefore.Some?)
                       || (m.settlement.Some? && m.settlement.value < 0)
                       || (m.notBefore.Some? && m.notBefore.value < 0);
      var (after, reply) := Perform(db, ledger, TransitionOp(f, scope, m, now));
      && (!reply.Done? ==> after == ledger)
      && (reply.BadArguments? <==> badDelays)
      && (reply.FenceLost? <==> !badDelays && !FenceOpen(db, f, now))
      && (reply.Unexpected? <==>
            && !badDelays && FenceOpen(db, f, now)
            && (scope in ledger.actions ==> ledger.actions[scope].status !in m.expected))
      && (reply.Done? ==>
            && scope in ledger.actions && ledger.actions[scope].status in m.expected
            && MovedTo(ledger.actions[scope], reply.action, m, now) && Allowed(reply.action)
            && Wrote(ledger, after, scope, reply.action, f, Moved(m.name), Some(ledger.actions[scope].status),
                     m.errorCode))
      && (reply.CheckViolated? ==>
            scope in ledger.actions
            && forall row | MovedTo(ledger.actions[scope], row, m, now) :: !Allowed(row))
  {
  }

  // ---------------------------------------------------------------- revisions

  /** The columns a revision changes are the request and its state; the evidence of the old one stays. */
  predicate Revised(a: Action, row: Action, desired: Fingerprint, snapshot: Fingerprint, now: Time) {
    && row.desired == desired && row.snapshot == snapshot && row.revision == a.revision + 1 && row.status == Reserved
    && row.completedAt.None? && row.updatedAt == now
    && row.resource == a.resource && row.applied == a.applied && row.url == a.url && row.response == a.response
    && row.reservedAt == a.reservedAt && row.provider == a.provider && row.operation == a.operation
    && row.writeStartedAt == a.writeStartedAt && row.reconcileNotBefore == a.reconcileNotBefore
  }

  lemma RevisionMeans(db: Db, ledger: Ledger, f: ExecutionFence, scope: Scope, expectedRevision: int,
                      desired: Fingerprint, snapshot: Fingerprint, now: Time)
    ensures
      var (after, reply) := Perform(db, ledger, ReviseOp(f, scope, expectedRevision, desired, snapshot, now));
      && (!reply.Done? ==> after == ledger)
      && (reply.FenceLost? <==> !FenceOpen(db, f, now))
      && (reply.Done? <==>
            && FenceOpen(db, f, now) && scope in ledger.actions
            && ledger.actions[scope].status == ActionSucceeded
            && ledger.actions[scope].revision == expectedRevision && ledger.actions[scope].resource.Some?)
      && (reply.Done? || reply.FenceLost? || reply.Unexpected?)
      && (reply.Done? ==>
            && Revised(ledger.actions[scope], reply.action, desired, snapshot, now)
            && Wrote(ledger, after, scope, reply.action, f, RevisionReserved, Some(ActionSucceeded), None))
  {
  }

  // ---------------------------------------------------------------- the request of a scope over a run

  /** The request a row stands for. */
  predicate StandsFor(ledger: Ledger, scope: Scope, provider: Provider, operation: Operation, desired: Fingerprint,
                      snapshot: Fingerprint)
  {
    && scope in ledger.actions
    && var a := ledger.actions[scope];
    && a.provider == provider && a.operation == operation && a.desired == desired && a.snapshot == snapshot
  }

  predicate Revises(step: WorldStep, scope: Scope) { step.Actions? && step.op.ReviseOp? && step.op.scope == scope }

  lemma {:induction false} RequestStands(w: World, steps: seq<WorldStep>, scope: Scope, provider: Provider,
                                         operation: Operation, desired: Fingerprint, snapshot: Fingerprint)
    requires StandsFor(w.ledger, scope, provider, operation, desired, snapshot)
    requires forall i | 0 <= i < |steps| :: !Revises(steps[i], scope)
    ensures StandsFor(WorldRun(w, steps).ledger, scope, provider, operation, desired, snapshot)
    decreases |steps|
  {
    if steps != [] {
      assert !Revises(steps[0], scope);
      RequestStands(WorldApply(w, steps[0]), steps[1..], scope, provider, operation, desired, snapshot);
    }
  }

  /**
   Whatever runs in between, short of another revision of the scope, a reservation under a live fence replays the
   request of the last reservation or revision, and tells a changed request from drifted sources.
   */
  lemma ReservedAgain(w: World, steps: seq<WorldStep>, f: ExecutionFence, scope: Scope, provider: Provider,
                      operation: Operation, desired: Fingerprint, snapshot: Fingerprint, wanted: Fingerprint,
                      seen: Fingerprint, now: Time)
    requires StandsFor(w.ledger, scope, provider, operation, desired, snapshot) && Supported(provider, operation)
    requires forall i | 0 <= i < |steps| :: !Revises(steps[i], scope)
    requires FenceOpen(WorldRun(w, steps).db, f, now)
    ensures
      var end := WorldRun(w, steps);
      var reply := Perform(end.db, end.ledger, ReserveOp(f, provider, operation, scope, wanted, seen, now)).1;
      && reply.Done?
      && (reply.kind.Replay? <==> wanted == desired && seen == snapshot)
      && (reply.kind.SourceDrift? <==> wanted == desired && seen != snapshot)
      && (reply.kind.Changed? <==> wanted != desired)
  {
    RequestStands(w, steps, scope, provider, operation, desired, snapshot);
  }

  lemma RevisionStands(db: Db, ledger: Ledger, f: ExecutionFence, scope: Scope, expectedRevision: int,
                       desired: Fingerprint, snapshot: Fingerprint, now: Time)
    requires Perform(db, ledger, ReviseOp(f, scope, expectedRevision, desired, snapshot, now)).1.Done?
    ensures
      scope in ledger.actions
      && StandsFor(Perform(db, ledger, ReviseOp(f, scope, expectedRevision, desired, snapshot, now)).0, scope,
                   ledger.actions[scope].provider, ledger.actions[scope].operation, desired, snapshot)
  {
    RevisionMeans(db, ledger, f, scope, expectedRevision, desired, snapshot, now);
  }

  /** The round trip of a revision: afterwards the new request is the one that replays. */
  lemma RevisionIsReplayed(ledger: Ledger, revision: LedgerOp, revised: World, steps: seq<WorldStep>,
                           f: ExecutionFence, wanted: Fingerprint, seen: Fingerprint, now: Time)
    requires revision.ReviseOp? && Perform(revised.db, ledger, revision).1.Done?
    requires revised.ledger == Perform(revised.db, ledger, revision).0
    requires forall i | 0 <= i < |steps| :: !Revises(steps[i], revision.scope)
    requires FenceOpen(WorldRun(revised, steps).db, f, now)
    requires
      revision.scope in ledger.actions
      && Supported(ledger.actions[revision.scope].provider, ledger.actions[revision.scope].operation)
    ensures
      var a := ledger.actions[revision.scope];
      var end := WorldRun(revised, steps);
      var again := ReserveOp(f, a.provider, a.operation, revision.scope, wanted, seen, now);
      var reply := Perform(end.db, end.ledger, again).1;
      && reply.Done?
      && (reply.kind.Replay? <==> wanted == revision.desired && seen == revision.snapshot)
      && (reply.kind.SourceDrift? <==> wanted == revision.desired && seen != revision.snapshot)
      && (reply.kind.Changed? <==> wanted != revision.desired)
  {
    var a := ledger.actions[revision.scope];
    RevisionStands(revised.db, ledger, revision.fence, revision.scope, revision.expectedRevision, revision.desired,
                   revision.snapshot, revision.now);
    ReservedAgain(revised, steps, f, revision.scope, a.provider, a.operation, revision.desired, revision.snapshot,
                  wanted, seen, now);
  }
}
