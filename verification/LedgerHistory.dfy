/**
 The log refines the rows: each action's entries are numbered without gaps, chain from status to status, and replay
 to the row's status and revision. With the fences of the task store, the entries of one task appear in
 nondecreasing attempt order, and a closed attempt can write nothing.
 */
module LedgerHistory {
  import opened Wrappers
  import opened TaskDomain
  import opened TaskStore
  import opened TaskInvariants
  import opened ActionLedger

  /** The entries of one scope, in log order. */
  function HistoryOf(log: seq<Entry>, scope: Scope): seq<Entry> {
    if log == [] then []
    else
      var last := log[|log| - 1];
      var earlier := HistoryOf(log[..|log| - 1], scope);
      if last.scope == scope then earlier + [last] else earlier
  }

  /** Reading the entries of one action one after another; None is a history no action can have. */
  datatype Cursor = Cursor(status: ActionStatus, revision: int)

  function ReplayEntry(c: Option<Cursor>, position: int, e: Entry): Option<Cursor> {
    if e.sequence != position then None
    else
      match e.transition
      case FirstReserved => if c.None? && e.previous.None? && e.next.Reserved? then Some(Cursor(Reserved, 1)) else None
      case Reservation(_) =>
        if c.Some? && e.previous == Some(c.value.status) && e.next == c.value.status then c else None
      case Moved(_) =>
        if c.Some? && e.previous == Some(c.value.status) then Some(Cursor(e.next, c.value.revision)) else None
      case RevisionReserved =>
        if c.Some? && c.value.status.ActionSucceeded? && e.previous == Some(c.value.status) && e.next.Reserved?
        then Some(Cursor(Reserved, c.value.revision + 1))
        else None
  }

  function ReplayAll(h: seq<Entry>): Option<Cursor> {
    if h == [] then None
    else if |h| > 1 && ReplayAll(h[..|h| - 1]).None? then None
    else
      match ReplayEntry(ReplayAll(h[..|h| - 1]), |h|, h[|h| - 1])
      case None => None
      case Some(c) => if h[|h| - 1].revision == c.revision then Some(c) else None
  }

  ghost predicate RowMatches(ledger: Ledger, scope: Scope) {
    var h := HistoryOf(ledger.log, scope);
    if scope in ledger.actions then
      var a := ledger.actions[scope];
      && ActionChecks(a)
      && |h| == a.sequence
      && ReplayAll(h) == Some(Cursor(a.status, a.revision))
    else h == []
  }

  ghost predicate LedgerOk(ledger: Ledger) {
    forall scope :: RowMatches(ledger, scope)
  }

  lemma HistoryAppend(log: seq<Entry>, e: Entry, scope: Scope)
    ensures HistoryOf(log + [e], scope)
         == if e.scope == scope then HistoryOf(log, scope) + [e] else HistoryOf(log, scope)
  {
    assert (log + [e])[..|log|] == log;
  }

  lemma ReplayAppend(h: seq<Entry>, e: Entry)
    requires h == [] || ReplayAll(h).Some?
    requires ReplayEntry(ReplayAll(h), |h| + 1, e).Some?
    requires ReplayEntry(ReplayAll(h), |h| + 1, e).value.revision == e.revision
    ensures ReplayAll(h + [e]) == ReplayEntry(ReplayAll(h), |h| + 1, e)
  {
    assert (h + [e])[..|h|] == h;
  }

  lemma RecordOk(ledger: Ledger, scope: Scope, row: Action, f: ExecutionFence, transition: Label,
                 previous: Option<ActionStatus>, errorCode: Option<string>)
    requires LedgerOk(ledger) && ActionChecks(row)
    requires
      var h := HistoryOf(ledger.log, scope);
      var e := Entry(scope, f.taskId, f.attemptNumber, row.sequence, transition, previous, row.status, row.revision,
                     errorCode);
      && row.sequence == |h| + 1
      && ReplayEntry(ReplayAll(h), |h| + 1, e) == Some(Cursor(row.status, row.revision))
    ensures LedgerOk(Record(ledger, scope, row, f, transition, previous, errorCode))
  {
    var after := Record(ledger, scope, row, f, transition, previous, errorCode);
    var e := Entry(scope, f.taskId, f.attemptNumber, row.sequence, transition, previous, row.status, row.revision,
                   errorCode);
    assert after.log == ledger.log + [e];
    forall s ensures RowMatches(after, s) {
      HistoryAppend(ledger.log, e, s);
      assert RowMatches(ledger, s);
      if s == scope {
        ReplayAppend(HistoryOf(ledger.log, s), e);
      }
    }
  }

  lemma ReserveOk(db: Db, ledger: Ledger, f: ExecutionFence, provider: Provider, operation: Operation, scope: Scope,
                  desired: Fingerprint, snapshot: Fingerprint, now: Time)
    requires LedgerOk(ledger)
    ensures LedgerOk(Reserve(db, ledger, f, provider, operation, scope, desired, snapshot, now).0)
  {
    var (after, reply) := Reserve(db, ledger, f, provider, operation, scope, desired, snapshot, now);
    assert RowMatches(ledger, scope);
    if reply.Done? {
      if scope !in ledger.actions {
        RecordOk(ledger, scope, reply.action, f, FirstReserved, None, None);
      } else {
        RecordOk(ledger, scope, reply.action, f, Reservation(reply.kind), Some(ledger.actions[scope].status), None);
      }
    }
  }

  lemma TransitionOk(db: Db, ledger: Ledger, f: ExecutionFence, scope: Scope, m: Move, now: Time)
    requires LedgerOk(ledger)
    ensures LedgerOk(Transition(db, ledger, f, scope, m, now).0)
  {
    var (after, reply) := Transition(db, ledger, f, scope, m, now);
    assert RowMatches(ledger, scope);
    if reply.Done? {
      RecordOk(ledger, scope, reply.action, f, Moved(m.name), Some(ledger.actions[scope].status), m.errorCode);
    }
  }

  lemma ReviseOk(db: Db, ledger: Ledger, f: ExecutionFence, scope: Scope, expectedRevision: int,
                 desired: Fingerprint, snapshot: Fingerprint, now: Time)
    requires LedgerOk(ledger)
    ensures LedgerOk(Revise(db, ledger, f, scope, expectedRevision, desired, snapshot, now).0)
  {
    var (after, reply) := Revise(db, ledger, f, scope, expectedRevision, desired, snapshot, now);
    assert RowMatches(ledger, scope);
    if reply.Done? {
      RecordOk(ledger, scope, reply.action, f, RevisionReserved, Some(ledger.actions[scope].status), None);
    }
  }

  lemma PerformOk(db: Db, ledger: Ledger, op: LedgerOp)
    requires LedgerOk(ledger)
    ensures LedgerOk(Perform(db, ledger, op).0)
  {
    match op
    case ReserveOp(f, provider, operation, scope, desired, snapshot, now) =>
      ReserveOk(db, ledger, f, provider, operation, scope, desired, snapshot, now);
    case TransitionOp(f, scope, move, now) => TransitionOk(db, ledger, f, scope, move, now);
    case ReviseOp(f, scope, expectedRevision, desired, snapshot, now) =>
      ReviseOk(db, ledger, f, scope, expectedRevision, desired, snapshot, now);
  }

  /** What a replayable history says entry by entry. */
  lemma {:induction false} ReplayMeans(h: seq<Entry>, i: nat)
    requires ReplayAll(h).Some? && i < |h|
    ensures h[i].sequence == i + 1
    ensures i == 0 ==> h[i].previous.None? && h[i].next.Reserved? && h[i].revision == 1
    ensures i > 0 ==> h[i].previous == Some(h[i - 1].next)
    ensures i > 0 ==> h[i].revision == h[i - 1].revision + (if h[i].transition.RevisionReserved? then 1 else 0)
    ensures ReplayAll(h) == Some(Cursor(h[|h| - 1].next, h[|h| - 1].revision))
  {
    var front := h[..|h| - 1];
    if front != [] {
      if i < |h| - 1 {
        ReplayMeans(front, i);
      } else {
        ReplayMeans(front, i - 1);
      }
    }
  }

  // ---------------------------------------------------------------- tasks and ledger together

  /** No entry names an attempt its task has not reached, and one task's entries never step back an attempt. */
  ghost predicate LogOrdered(db: Db, log: seq<Entry>) {
    && (forall i | 0 <= i < |log| ::
          log[i].taskId in db.tasks && 1 <= log[i].attemptNumber <= db.tasks[log[i].taskId].attemptCount)
    && (forall i, j | 0 <= i < j < |log| && log[i].taskId == log[j].taskId ::
          log[i].attemptNumber <= log[j].attemptNumber)
  }

  ghost predicate WorldOk(w: World) {
    Valid(w.db) && LedgerOk(w.ledger) && LogOrdered(w.db, w.ledger.log)
  }

  /** The log only grows, and a write appends exactly one entry, under a fence that held. */
  lemma PerformAppends(db: Db, ledger: Ledger, op: LedgerOp)
    ensures
      var (after, reply) := Perform(db, ledger, op);
      if reply.Done? then
        && FenceHolds(db, op.fence, op.now)
        && |after.log| == |ledger.log| + 1 && after.log[..|ledger.log|] == ledger.log
        && after.log[|ledger.log|].scope == op.scope
        && after.log[|ledger.log|].taskId == op.fence.taskId
        && after.log[|ledger.log|].attemptNumber == op.fence.attemptNumber
        && after.actions == ledger.actions[op.scope := reply.action]
      else after == ledger
  {
  }

  lemma StepKeepsWorld(w: World, step: WorldStep)
    requires WorldOk(w)
    ensures WorldOk(WorldApply(w, step))
    ensures w.ledger.log <= WorldApply(w, step).ledger.log
    ensures DbEvolves(w.db, WorldApply(w, step).db)
  {
    match step
    case Tasks(txn) =>
      ApplyOk(w.db, txn);
    case Actions(op) =>
      NothingOk(w.db);
      PerformOk(w.db, w.ledger, op);
      PerformAppends(w.db, w.ledger, op);
      if Perform(w.db, w.ledger, op).1.Done? {
        assert Numbered(w.db, op.fence.taskId);
      }
  }

  /** In every run the log is append-only and refines the rows, and its attempts appear in order. */
  lemma {:induction false} WorldRunOk(w: World, steps: seq<WorldStep>)
    requires WorldOk(w)
    ensures WorldOk(WorldRun(w, steps))
    ensures w.ledger.log <= WorldRun(w, steps).ledger.log
    ensures DbEvolves(w.db, WorldRun(w, steps).db)
    decreases |steps|
  {
    if steps == [] {
      NothingOk(w.db);
    } else {
      StepKeepsWorld(w, steps[0]);
      WorldRunOk(WorldApply(w, steps[0]), steps[1..]);
      EvolvesTransitive(w.db, WorldApply(w, steps[0]).db, WorldRun(w, steps).db);
    }
  }

  lemma ReachableWorldIsOk(steps: seq<WorldStep>)
    ensures WorldOk(WorldRun(World(EmptyDb, EmptyLedger), steps))
  {
    var w := World(EmptyDb, EmptyLedger);
    forall scope ensures RowMatches(w.ledger, scope) {}
    WorldRunOk(w, steps);
  }

  ghost predicate StepUsesFence(step: WorldStep, f: ExecutionFence) {
    match step
    case Tasks(txn) => UsesFence(txn, f)
    case Actions(op) => op.fence == f
  }

  /** Fencing across all layers: a closed attempt changes no task, attempt, action or log row, ever again. */
  lemma ClosedAttemptWritesNothing(w: World, f: ExecutionFence, steps: seq<WorldStep>, step: WorldStep)
    requires WorldOk(w) && f.Key() in w.db.attempts && !w.db.attempts[f.Key()].status.InProgress?
    requires StepUsesFence(step, f)
    ensures WorldApply(WorldRun(w, steps), step) == WorldRun(w, steps)
  {
    WorldRunOk(w, steps);
    var after := WorldRun(w, steps);
    match step
    case Tasks(txn) => ClosedAttemptFencesOut(after.db, f, [], txn.now);
    case Actions(op) => ClosedAttemptFencesOut(after.db, f, [], op.now);
  }
}
