/**
 The ledger as mutable state over the task database. Each method is one transaction: it checks the fence in the
 task tables, locks the action row, updates its columns and appends one entry. Only the ledger changes.
 */
module ActionRepository {
  import opened Wrappers
  import opened TaskStore
  import opened ActionLedger
  import TaskDatabase

  class Repository {
    const store: TaskDatabase.Database
    var actions: map<Scope, Action>
    var log: seq<Entry>

    ghost function Book(): Ledger
      reads this
    {
      Ledger(actions, log)
    }

    constructor (store: TaskDatabase.Database)
      ensures this.store == store && Book() == EmptyLedger
    {
      this.store := store;
      actions := map[];
      log := [];
    }

    method Append(scope: Scope, row: Action, fence: ExecutionFence, transition: Label, previous: Option<ActionStatus>,
                  errorCode: Option<string>)
      modifies this
      ensures Book() == Record(old(Book()), scope, row, fence, transition, previous, errorCode)
    {
      actions := actions[scope := row];
      log := log + [Entry(scope, fence.taskId, fence.attemptNumber, row.sequence, transition, previous, row.status,
                          row.revision, errorCode)];
    }

    method ReserveOrGet(fence: ExecutionFence, provider: Provider, operation: Operation, scope: Scope,
                        desired: Fingerprint, snapshot: Fingerprint, now: Time)
      returns (reply: LedgerReply)
      modifies this
      ensures (Book(), reply)
           == Reserve(store.Tables(), old(Book()), fence, provider, operation, scope, desired, snapshot, now)
    {
      if !Supported(provider, operation) { return BadArguments; }
      if !FenceHolds(Db(store.tasks, store.attempts), fence, now) { return FenceLost; }
      if scope !in actions {
        var reserved := Action(provider, operation, fence.taskId, fence.attemptNumber, desired, None, snapshot, 1,
                               Reserved, None, None, None, 1, None, now, now, None, None, None);
        Append(scope, reserved, fence, FirstReserved, None, None);
        return Done(reserved, Created);
      }
      var action := actions[scope];
      if action.provider != provider || action.operation != operation { return Unexpected; }
      var kind: ReservationKind;
      if action.desired == desired {
        kind := if action.snapshot == snapshot then Replay else SourceDrift;
      } else {
        kind := Changed;
      }
      action := action.(sequence := action.sequence + 1);
      action := action.(taskId := fence.taskId, attemptNumber := fence.attemptNumber, updatedAt := now);
      Append(scope, action, fence, Reservation(kind), Some(action.status), None);
      return Done(action, kind);
    }

    method Move(fence: ExecutionFence, scope: Scope, m: ActionLedger.Move, now: Time) returns (reply: LedgerReply)
      modifies this
      ensures (Book(), reply) == Transition(store.Tables(), old(Book()), fence, scope, m, now)
    {
      if !GoodDelays(m) { return BadArguments; }
      if !FenceHolds(Db(store.tasks, store.attempts), fence, now) { return FenceLost; }
      if scope !in actions || actions[scope].status !in m.expected { return Unexpected; }
      var action := actions[scope];
      var previous := action.status;
      action := action.(status := m.status, taskId := fence.taskId, attemptNumber := fence.attemptNumber);
      action := action.(sequence := action.sequence + 1, updatedAt := now, errorCode := m.errorCode);
      if m.clearWriteStarted { action := action.(writeStartedAt := None); }
      if m.clearNotBefore { action := action.(reconcileNotBefore := None); }
      if m.evidence.Some? {
        var e := m.evidence.value;
        action := action.(resource := Some(e.resource), url := e.url, response := Some(e.response),
                          applied := Some(e.applied));
      }
      if m.status.ActionSucceeded? { action := action.(completedAt := Some(now)); }
      if m.settlement.Some? {
        action := action.(writeStartedAt := Some(now), reconcileNotBefore := Some(now + m.settlement.value));
      }
      if m.notBefore.Some? { action := action.(reconcileNotBefore := Some(now + m.notBefore.value)); }
      if !ActionChecks(action) { return CheckViolated; }
      Append(scope, action, fence, Moved(m.name), Some(previous), m.errorCode);
      return Done(action, Replay);
    }

    method ReviseAction(fence: ExecutionFence, scope: Scope, expectedRevision: int, desired: Fingerprint,
                        snapshot: Fingerprint, now: Time)
      returns (reply: LedgerReply)
      modifies this
      ensures (Book(), reply)
           == Revise(store.Tables(), old(Book()), fence, scope, expectedRevision, desired, snapshot, now)
    {
      if !FenceHolds(Db(store.tasks, store.attempts), fence, now) { return FenceLost; }
      if scope !in actions { return Unexpected; }
      var action := actions[scope];
      var previous := action.status;
      if !previous.ActionSucceeded? || action.revision != expectedRevision || action.resource.None? {
        return Unexpected;
      }
      action := action.(taskId := fence.taskId, attemptNumber := fence.attemptNumber);
      action := action.(desired := desired, snapshot := snapshot, revision := expectedRevision + 1);
      action := action.(status := Reserved, completedAt := None, sequence := action.sequence + 1, updatedAt := now);
      Append(scope, action, fence, RevisionReserved, Some(previous), None);
      return Done(action, Changed);
    }
  }
}
