/**
 The external-action ledger: one current row per business scope and an append-only log of entries. Every write is
 one transaction guarded by the execution fence of the writing task. Identifiers, fingerprints and hashes are
 opaque numbers.
 */
module ActionLedger {
  import opened Wrappers
  import opened TaskDomain
  import opened TaskStore

  type Fingerprint = int
  type Resource = int

  /** The unique constraint on the scope makes it the key of the action table. */
  datatype Scope = Scope(key: string)

  datatype Provider = GitHub | Slack

  datatype Operation = UpsertComment | PostNotification

  datatype ActionStatus =
    | Reserved | Reconciling | ReadyToExecute | Executing | RetryableFailure | OutcomeUnknown
    | ActionSucceeded | PermanentFailure | NeedsHumanReview

  datatype ReservationKind = Created | Replay | Changed | SourceDrift

  datatype Action = Action(
    provider: Provider,
    operation: Operation,
    taskId: TaskId,
    attemptNumber: int,
    desired: Fingerprint,
    applied: Option<Fingerprint>,
    snapshot: Fingerprint,
    revision: int,
    status: ActionStatus,
    resource: Option<Resource>,
    url: Option<string>,
    response: Option<Fingerprint>,
    sequence: int,
    errorCode: Option<string>,
    reservedAt: Time,
    updatedAt: Time,
    writeStartedAt: Option<Time>,
    reconcileNotBefore: Option<Time>,
    completedAt: Option<Time>)

  datatype Label = FirstReserved | Reservation(kind: ReservationKind) | Moved(name: string) | RevisionReserved

  datatype Entry = Entry(
    scope: Scope,
    taskId: TaskId,
    attemptNumber: int,
    sequence: int,
    transition: Label,
    previous: Option<ActionStatus>,
    next: ActionStatus,
    revision: int,
    errorCode: Option<string>)

  datatype Ledger = Ledger(actions: map<Scope, Action>, log: seq<Entry>)

  const EmptyLedger := Ledger(map[], [])

  /** The successful reply carries the row as the transaction left it. */
  datatype LedgerReply =
    | Done(action: Action, kind: ReservationKind)
    | FenceLost
    | Unexpected
    | BadArguments
    | CheckViolated

  /** The CHECK constraints of the action table. */
  predicate ActionChecks(a: Action) {
    && a.revision >= 1 && a.sequence >= 1
    && (if a.status.ActionSucceeded? then a.resource.Some? && a.applied.Some? && a.completedAt.Some?
        else a.completedAt.None?)
    && (a.status.OutcomeUnknown? ==> a.writeStartedAt.Some?)
  }

  predicate Supported(provider: Provider, operation: Operation) {
    (provider.GitHub? && operation.UpsertComment?) || (provider.Slack? && operation.PostNotification?)
  }

  /** The ledger's own fence check also joins the running attempt row. */
  predicate FenceHolds(db: Db, f: ExecutionFence, now: Time) {
    ActiveFence(db, f, now) && RunningAttempt(db, f.Key(), f.leaseToken)
  }

  function Record(ledger: Ledger, scope: Scope, row: Action, f: ExecutionFence, transition: Label,
                  previous: Option<ActionStatus>, errorCode: Option<string>): Ledger {
    Ledger(ledger.actions[scope := row],
           ledger.log + [Entry(scope, f.taskId, f.attemptNumber, row.sequence, transition, previous, row.status,
                               row.revision, errorCode)])
  }

  /** The kind of reservation an existing row gives. */
  function KindOf(a: Action, desired: Fingerprint, snapshot: Fingerprint): ReservationKind {
    if a.desired != desired then Changed
    else if a.snapshot == snapshot then Replay
    else SourceDrift
  }

  function Reserve(db: Db, ledger: Ledger, f: ExecutionFence, provider: Provider, operation: Operation, scope: Scope,
                   desired: Fingerprint, snapshot: Fingerprint, now: Time): (Ledger, LedgerReply) {
    if !Supported(provider, operation) then (ledger, BadArguments)
    else if !FenceHolds(db, f, now) then (ledger, FenceLost)
    else if scope !in ledger.actions then
      var row := Action(provider, operation, f.taskId, f.attemptNumber, desired, None, snapshot, 1, Reserved, None,
                        None, None, 1, None, now, now, None, None, None);
      (Record(ledger, scope, row, f, FirstReserved, None, None), Done(row, Created))
    else
      var a := ledger.actions[scope];
      if a.provider != provider || a.operation != operation then (ledger, Unexpected)
      else
        var kind := KindOf(a, desired, snapshot);
        var row := a.(taskId := f.taskId, attemptNumber := f.attemptNumber, sequence := a.sequence + 1,
                      updatedAt := now);
        (Record(ledger, scope, row, f, Reservation(kind), Some(a.status), None), Done(row, kind))
  }

  datatype Evidence = Evidence(resource: Resource, url: Option<string>, response: Fingerprint, applied: Fingerprint)

  /** What a transition asks for: the new status, the extra columns and the two exclusive delays. */
  datatype Move = Move(
    expected: set<ActionStatus>,
    status: ActionStatus,
    name: string,
    clearWriteStarted: bool,
    clearNotBefore: bool,
    evidence: Option<Evidence>,
    errorCode: Option<string>,
    settlement: Option<Time>,
    notBefore: Option<Time>)

  function Plain(expected: set<ActionStatus>, status: ActionStatus, name: string, errorCode: Option<string>): Move {
    Move(expected, status, name, false, false, None, errorCode, None, None)
  }

  predicate GoodDelays(m: Move) {
    && !(m.settlement.Some? && m.notBefore.Some?)
    && (m.settlement.Some? ==> m.settlement.value >= 0)
    && (m.notBefore.Some? ==> m.notBefore.value >= 0)
  }

  function MovedRow(a: Action, f: ExecutionFence, m: Move, now: Time): Action {
    var evidence := m.evidence;
    a.(status := m.status, taskId := f.taskId, attemptNumber := f.attemptNumber, sequence := a.sequence + 1,
    updatedAt := now, errorCode := m.errorCode,
    resource := if evidence.Some? then Some(evidence.value.resource) else a.resource,
    url := if evidence.Some? then evidence.value.url else a.url,
    response := if evidence.Some? then Some(evidence.value.response) else a.response,
    applied := if evidence.Some? then Some(evidence.value.applied) else a.applied,
    completedAt := if m.status.ActionSucceeded? then Some(now) else a.completedAt,
    writeStartedAt :=
      if m.settlement.Some? then Some(now) else if m.clearWriteStarted then None else a.writeStartedAt,
    reconcileNotBefore :=
      if m.notBefore.Some? then Some(now + m.notBefore.value)
      else if m.settlement.Some? then Some(now + m.settlement.value)
      else if m.clearNotBefore then None
      else a.reconcileNotBefore)
  }

  function Transition(db: Db, ledger: Ledger, f: ExecutionFence, scope: Scope, m: Move, now: Time)
    : (Ledger, LedgerReply)
  {
    if !GoodDelays(m) then (ledger, BadArguments)
    else if !FenceHolds(db, f, now) then (ledger, FenceLost)
    else if scope !in ledger.actions || ledger.actions[scope].status !in m.expected then (ledger, Unexpected)
    else
      var a := ledger.actions[scope];
      var row := MovedRow(a, f, m, now);
      if !ActionChecks(row) then (ledger, CheckViolated)
      else (Record(ledger, scope, row, f, Moved(m.name), Some(a.status), m.errorCode), Done(row, Replay))
  }

  function RevisedRow(a: Action, f: ExecutionFence, desired: Fingerprint, snapshot: Fingerprint, now: Time): Action {
    a.(taskId := f.taskId, attemptNumber := f.attemptNumber, desired := desired, snapshot := snapshot,
    revision := a.revision + 1, status := Reserved, completedAt := None, sequence := a.sequence + 1, updatedAt := now)
  }

  function Revise(db: Db, ledger: Ledger, f: ExecutionFence, scope: Scope, expectedRevision: int, desired: Fingerprint,
                  snapshot: Fingerprint, now: Time): (Ledger, LedgerReply) {
    if !FenceHolds(db, f, now) then (ledger, FenceLost)
    else if scope !in ledger.actions then (ledger, Unexpected)
    else
      var a := ledger.actions[scope];
      if !a.status.ActionSucceeded? || a.revision != expectedRevision || a.resource.None? then (ledger, Unexpected)
      else
        var row := RevisedRow(a, f, desired, snapshot, now);
        (Record(ledger, scope, row, f, RevisionReserved, Some(a.status), None), Done(row, Changed))
  }

  // ---------------------------------------------------------------- runs of tasks and ledger together

  datatype LedgerOp =
    | ReserveOp(fence: ExecutionFence, provider: Provider, operation: Operation, scope: Scope,
                desired: Fingerprint, snapshot: Fingerprint, now: Time)
    | TransitionOp(fence: ExecutionFence, scope: Scope, move: Move, now: Time)
    | ReviseOp(fence: ExecutionFence, scope: Scope, expectedRevision: int, desired: Fingerprint,
               snapshot: Fingerprint, now: Time)

  function Perform(db: Db, ledger: Ledger, op: LedgerOp): (Ledger, LedgerReply) {
    match op
    case ReserveOp(f, provider, operation, scope, desired, snapshot, now) =>
      Reserve(db, ledger, f, provider, operation, scope, desired, snapshot, now)
    case TransitionOp(f, scope, move, now) => Transition(db, ledger, f, scope, move, now)
    case ReviseOp(f, scope, expectedRevision, desired, snapshot, now) =>
      Revise(db, ledger, f, scope, expectedRevision, desired, snapshot, now)
  }

  datatype World = World(db: Db, ledger: Ledger)

  datatype WorldStep = Tasks(txn: Txn) | Actions(op: LedgerOp)

  ghost function WorldApply(w: World, step: WorldStep): World {
    match step
    case Tasks(txn) => w.(db := Apply(w.db, txn))
    case Actions(op) => w.(ledger := Perform(w.db, w.ledger, op).0)
  }

  ghost function WorldRun(w: World, steps: seq<WorldStep>): World
    decreases |steps|
  {
    if steps == [] then w else WorldRun(WorldApply(w, steps[0]), steps[1..])
  }
}
