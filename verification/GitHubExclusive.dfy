/**
 Driving a scope one task at a time is enough: while a call holds its fence nobody else writes its row, so its copy
 is the row, and every mark "no match" that the ledger accepts is a fresh one.
 */
module GitHubExclusive {
  import opened Wrappers
  import opened TaskDomain
  import opened TaskStore
  import opened TaskInvariants
  import opened ActionLedger
  import opened ProviderHttp
  import opened GitHubApply
  import opened GitHubInvariant
  import opened GitHubNoDuplicate
  import opened GitHubLimits

  /** One handler runs per claimed attempt, and one call at a time drives a scope. */
  ghost predicate CallsApart(s: Sys) {
    forall c, d | c in s.calls && d in s.calls && c != d ::
      && s.calls[c].fence.Key() != s.calls[d].fence.Key()
      && (Driver(s, c) && Driver(s, d) ==> s.calls[c].scope != s.calls[d].scope)
  }

  /** The call's copy of its row is the row. */
  predicate Current(s: Sys, c: CallId) {
    && c in s.calls && s.calls[c].action.Some? && GitHubRow(s, s.calls[c].scope)
    && s.ledger.actions[s.calls[c].scope] == s.calls[c].action.value
  }

  ghost predicate Exclusive(s: Sys) {
    && Valid(s.db)
    && (forall c | c in s.calls :: s.calls[c].fence.Key() in s.db.attempts)
    && CallsApart(s)
    && (forall c | Driver(s, c) :: Current(s, c))
  }

  // ---------------------------------------------------------------- time and the task tables

  /** A transaction at `clock` revives no fence that was not active: only live leases are extended. */
  lemma LeaseIsNotRevived(db: Db, txn: Txn, id: TaskId)
    requires Valid(db) && id in db.tasks && db.tasks[id].status.Running?
    requires id in Apply(db, txn).tasks && Apply(db, txn).tasks[id].status.Running?
    ensures || Apply(db, txn).tasks[id].leaseExpiresAt == db.tasks[id].leaseExpiresAt
            || db.tasks[id].leaseExpiresAt.value > txn.now
  {
    if txn.Claim? { NextClaimIsFirst(db, txn.types, txn.due); }
    if txn.Recover? { NextExpiredIsFirst(db, txn.now); }
  }

  lemma FenceIsNotRevived(db: Db, txn: Txn, f: ExecutionFence)
    requires Valid(db) && f.Key() in db.attempts
    requires ActiveFence(Apply(db, txn), f, txn.now)
    ensures ActiveFence(db, f, txn.now)
  {
    ApplyOk(db, txn);
    assert f.taskId in db.tasks && Numbered(db, f.taskId);
    assert AttemptKey(f.taskId, f.attemptNumber) in db.attempts;
    assert f.attemptNumber <= db.tasks[f.taskId].attemptCount;
    LeaseIsNotRevived(db, txn, f.taskId);
  }

  lemma ApartFrame(s: Sys, after: Sys)
    requires CallsApart(s) && after.calls.Keys == s.calls.Keys
    requires forall c | c in s.calls ::
               after.calls[c].fence == s.calls[c].fence && after.calls[c].scope == s.calls[c].scope
    requires forall c | Driver(after, c) :: Driver(s, c)
    ensures CallsApart(after)
  {
  }

  lemma CurrentFrame(s: Sys, after: Sys)
    requires forall c | Driver(s, c) :: Current(s, c)
    requires after.calls == s.calls && forall c | Driver(after, c) :: Driver(s, c)
    requires forall o | o in s.ledger.actions && s.ledger.actions[o].provider.GitHub? ::
               o in after.ledger.actions && after.ledger.actions[o] == s.ledger.actions[o]
    ensures forall c | Driver(after, c) :: Current(after, c)
  {
    forall c | Driver(after, c) ensures Current(after, c) { assert Current(s, c); }
  }

  /** Nobody starts to drive, and no row of a driver changes. */
  lemma QuietKeepsExclusive(s: Sys, after: Sys)
    requires Exclusive(s) && Valid(after.db) && after.calls == s.calls
    requires forall k | k in s.db.attempts :: k in after.db.attempts
    requires forall c | Driver(after, c) :: Driver(s, c)
    requires forall o | o in s.ledger.actions && s.ledger.actions[o].provider.GitHub? ::
               o in after.ledger.actions && after.ledger.actions[o] == s.ledger.actions[o]
    ensures Exclusive(after)
  {
    ApartFrame(s, after);
    CurrentFrame(s, after);
  }

  lemma StoreKeeps(cfg: Config, s: Sys, txn: Txn)
    requires Exclusive(s) && txn.now == s.clock
    ensures Exclusive(s.(db := Apply(s.db, txn)))
  {
    var after := s.(db := Apply(s.db, txn));
    ApplyOk(s.db, txn);
    forall c | Driver(after, c) ensures Driver(s, c) { FenceIsNotRevived(s.db, txn, s.calls[c].fence); }
    QuietKeepsExclusive(s, after);
  }

  // ---------------------------------------------------------------- calls that move without writing

  /** Call c moves: same fence, scope and copy, and it does not come to life. */
  ghost predicate Moves(s: Sys, after: Sys, c: CallId) {
    && c in s.calls && c in after.calls && after.ledger == s.ledger && after.db == s.db && after.clock == s.clock
    && after.calls == s.calls[c := after.calls[c]]
    && after.calls[c].fence == s.calls[c].fence && after.calls[c].scope == s.calls[c].scope
    && after.calls[c].action == s.calls[c].action && (Live(after.calls[c]) ==> Live(s.calls[c]))
  }

  lemma MovesKeep(s: Sys, after: Sys, c: CallId)
    requires Exclusive(s) && Moves(s, after, c)
    ensures Exclusive(after)
  {
    MovesDrive(s, after, c);
    ApartFrame(s, after);
    forall d | Driver(after, d) ensures Current(after, d) { assert Driver(s, d) && Current(s, d); }
  }

  lemma MovesDrive(s: Sys, after: Sys, c: CallId)
    requires Moves(s, after, c)
    ensures forall d | Driver(after, d) :: Driver(s, d)
  {
  }

  lemma ReadMoves(s: Sys, c: CallId, read: Read)
    requires c in s.calls && s.calls[c].action.Some?
    ensures Moves(s, ReadCall(s, c, read), c)
  {
  }

  lemma AnswerMoves(cfg: Config, s: Sys, c: CallId, e: Exchange)
    requires c in s.calls && s.calls[c].action.Some?
    ensures Moves(s, AnswerCall(cfg, s, c, e), c)
  {
  }

  /** A call that has not reserved anything drives nothing. */
  lemma NewcomerKeeps(s: Sys, after: Sys, c: CallId)
    requires Exclusive(s) && c !in s.calls && c in after.calls && after.calls[c].pc.Reserving?
    requires after == s.(calls := s.calls[c := after.calls[c]])
    requires after.calls[c].fence.Key() in s.db.attempts
    requires forall d | d in s.calls :: s.calls[d].fence.Key() != after.calls[c].fence.Key()
    ensures Exclusive(after)
  {
    assert forall d | Driver(after, d) :: Driver(s, d);
    forall d | Driver(after, d) ensures Current(after, d) { assert Current(s, d); }
    NewcomerApart(s, after, c);
  }

  lemma NewcomerApart(s: Sys, after: Sys, c: CallId)
    requires CallsApart(s) && c !in s.calls && c in after.calls && after.calls == s.calls[c := after.calls[c]]
    requires forall d | Driver(after, d) :: Driver(s, d)
    requires forall d | d in s.calls :: s.calls[d].fence.Key() != after.calls[c].fence.Key()
    ensures CallsApart(after)
  {
  }

  lemma BeginKeepsExclusive(cfg: Config, s: Sys, ev: Event)
    requires Exclusive(s) && ev.Begin?
    ensures Exclusive(Step(cfg, s, ev))
  {
    var after := Step(cfg, s, ev);
    if after != s { NewcomerKeeps(s, after, ev.call); }
  }

  // ---------------------------------------------------------------- writes of the driving call

  ghost predicate Alone(s: Sys, c: CallId)
    requires c in s.calls
  {
    forall d | d in s.calls && d != c && s.calls[d].scope == s.calls[c].scope :: !Driver(s, d)
  }

  /** Reserving: no rival of another task, and two attempts of one task never hold their fences together. */
  lemma ReserverIsAlone(s: Sys, c: CallId)
    requires CallsApart(s) && c in s.calls && Holds(s, c) && NoRival(s, c)
    ensures Alone(s, c)
  {
  }

  lemma TookApart(s: Sys, c: CallId, ledger: Ledger, row: Action, pc: Pc)
    requires CallsApart(s) && c in s.calls && Alone(s, c)
    ensures CallsApart(Took(s, c, ledger, row, pc))
  {
    var after := Took(s, c, ledger, row, pc);
    assert forall d | d != c && Driver(after, d) :: Driver(s, d);
  }

  lemma TookKeepsExclusive(s: Sys, c: CallId, ledger: Ledger, row: Action, pc: Pc)
    requires Exclusive(s) && c in s.calls && Alone(s, c)
    requires ledger.actions == s.ledger.actions[s.calls[c].scope := row] && row.provider.GitHub?
    ensures Exclusive(Took(s, c, ledger, row, pc))
  {
    var after := Took(s, c, ledger, row, pc);
    TookApart(s, c, ledger, row, pc);
    forall d | Driver(after, d) ensures Current(after, d) {
      if d != c { assert Driver(s, d) && Current(s, d); }
    }
  }

  lemma GotoKeepsExclusive(s: Sys, c: CallId, pc: Pc)
    requires Exclusive(s) && c in s.calls && (pc.Ended? || pc.Abandoned? || Live(s.calls[c]))
    ensures Exclusive(Goto(s, c, pc))
  {
    MovesKeep(s, Goto(s, c, pc), c);
  }

  lemma ReserveKeepsExclusive(cfg: Config, s: Sys, c: CallId)
    requires cfg.exclusive && Exclusive(s) && c in s.calls && s.calls[c].pc.Reserving?
    ensures Exclusive(ReserveCall(cfg, s, c))
  {
    var call := s.calls[c];
    var (ledger, reply) :=
      Reserve(s.db, s.ledger, call.fence, GitHub, UpsertComment, call.scope, call.desired, call.snapshot, s.clock);
    if NoRival(s, c) {
      if reply.Done? {
        ReserverIsAlone(s, c);
        TookKeepsExclusive(s, c, ledger, reply.action, Dispatch(reply.kind, reply.action, call.mayUpdate));
      } else {
        GotoKeepsExclusive(s, c, Abandoned);
      }
    }
  }

  lemma ReviseKeepsExclusive(s: Sys, c: CallId)
    requires Exclusive(s) && c in s.calls && Live(s.calls[c]) && s.calls[c].action.Some?
    ensures Exclusive(ReviseCall(s, c))
  {
    var call := s.calls[c];
    var (ledger, reply) := Revise(s.db, s.ledger, call.fence, call.scope, call.action.value.revision,
                                  call.desired, call.snapshot, s.clock);
    if reply.Done? {
      assert Driver(s, c) && Current(s, c);
      TookKeepsExclusive(s, c, ledger, reply.action, Reconcile(reply.action));
    } else {
      GotoKeepsExclusive(s, c, Abandoned);
    }
  }

  lemma MoveKeepsExclusive(s: Sys, c: CallId, m: Move, pc: Pc)
    requires Exclusive(s) && c in s.calls && Live(s.calls[c])
    ensures Exclusive(MoveTo(s, c, m, pc))
  {
    var call := s.calls[c];
    var (ledger, reply) := Transition(s.db, s.ledger, call.fence, call.scope, m, s.clock);
    if reply.Done? {
      assert Driver(s, c) && Current(s, c);
      TookKeepsExclusive(s, c, ledger, reply.action, pc);
    } else {
      GotoKeepsExclusive(s, c, Abandoned);
    }
  }

  lemma HoldingKeepsExclusive(cfg: Config, s: Sys, c: CallId)
    requires Exclusive(s) && c in s.calls && s.calls[c].pc.HoldingOff? && s.calls[c].action.Some?
    ensures Exclusive(AdvanceCall(cfg, s, c))
  {
    GotoKeepsExclusive(s, c, AdvanceCall(cfg, s, c).calls[c].pc);
  }

  lemma AdvanceKeepsExclusive(cfg: Config, s: Sys, c: CallId)
    requires cfg.exclusive && Exclusive(s) && c in s.calls
    ensures Exclusive(AdvanceCall(cfg, s, c))
  {
    var call := s.calls[c];
    if call.pc.Reserving? {
      ReserveKeepsExclusive(cfg, s, c);
    } else if call.action.Some? {
      if MoveOf(cfg, call).Some? {
        var pc := AdvanceIsMove(cfg, s, c);
        MoveKeepsExclusive(s, c, MoveOf(cfg, call).value, pc);
      } else if call.pc.Revising? {
        ReviseKeepsExclusive(s, c);
      } else if call.pc.HoldingOff? {
        HoldingKeepsExclusive(cfg, s, c);
      }
    }
  }

  lemma ReadKeepsExclusive(s: Sys, c: CallId, read: Read)
    requires Exclusive(s) && c in s.calls && s.calls[c].action.Some?
    ensures Exclusive(ReadCall(s, c, read))
  {
    ReadMoves(s, c, read);
    MovesKeep(s, ReadCall(s, c, read), c);
  }

  lemma SendKeepsExclusive(s: Sys, c: CallId)
    requires Exclusive(s) && c in s.calls && s.calls[c].pc.Writing? && s.calls[c].action.Some?
    ensures Exclusive(SendCall(s, c))
  {
    MovesKeep(s, SendCall(s, c), c);
  }

  lemma AnswerKeepsExclusive(cfg: Config, s: Sys, c: CallId, e: Exchange)
    requires Exclusive(s) && c in s.calls && s.calls[c].action.Some?
    ensures Exclusive(AnswerCall(cfg, s, c, e))
  {
    AnswerMoves(cfg, s, c, e);
    MovesKeep(s, AnswerCall(cfg, s, c, e), c);
  }

  lemma CommentsKeepExclusive(s: Sys, comments: seq<Comment>, updates: seq<Update>)
    requires Exclusive(s)
    ensures Exclusive(s.(comments := comments, updates := updates))
  {
    QuietKeepsExclusive(s, s.(comments := comments, updates := updates));
  }

  lemma OtherKeepsExclusive(s: Sys, op: LedgerOp)
    requires Exclusive(s) && Foreign(s.ledger, op)
    ensures Exclusive(s.(ledger := Perform(s.db, s.ledger, op).0))
  {
    OtherRows(s.db, s.ledger, op);
    QuietKeepsExclusive(s, s.(ledger := Perform(s.db, s.ledger, op).0));
  }

  lemma TickKeepsExclusive(s: Sys, now: Time)
    requires Exclusive(s) && now >= s.clock
    ensures Exclusive(s.(clock := now))
  {
    QuietKeepsExclusive(s, s.(clock := now));
  }

  lemma StepKeepsExclusive(cfg: Config, s: Sys, ev: Event)
    requires cfg.exclusive && Exclusive(s)
    ensures Exclusive(Step(cfg, s, ev))
  {
    match ev
    case Tick(now) => if now >= s.clock { TickKeepsExclusive(s, now); }
    case StoreStep(txn) => if txn.now == s.clock { StoreKeeps(cfg, s, txn); }
    case OtherAction(op) => if Foreign(s.ledger, op) { OtherKeepsExclusive(s, op); }
    case Begin(_, _, _, _, _, _) => BeginKeepsExclusive(cfg, s, ev);
    case Crash(c) => if c in s.calls { GotoKeepsExclusive(s, c, Abandoned); }
    case Advance(c) => if c in s.calls { AdvanceKeepsExclusive(cfg, s, c); }
    case ReadComments(c, read) => if c in s.calls && s.calls[c].action.Some? { ReadKeepsExclusive(s, c, read); }
    case Send(c) =>
      if c in s.calls && s.calls[c].pc.Writing? && s.calls[c].action.Some? { SendKeepsExclusive(s, c); }
    case Answer(c, e) => if c in s.calls && s.calls[c].action.Some? { AnswerKeepsExclusive(cfg, s, c, e); }
    case _ =>
      var after := Step(cfg, s, ev);
      CommentsKeepExclusive(s, after.comments, after.updates);
      assert after == s.(comments := after.comments, updates := after.updates);
  }

  // ---------------------------------------------------------------- what exclusive runs guarantee

  /** Every accepted mark is made by a call that holds its fence, hence on its own row. */
  lemma {:induction false} ExclusiveRunsAreFresh(cfg: Config, s: Sys, events: seq<Event>)
    requires cfg.exclusive && Exclusive(s)
    ensures FreshRun(cfg, s, events)
    decreases |events|
  {
    if events != [] {
      if events[0].Advance? && Driver(s, events[0].call) { assert Current(s, events[0].call); }
      StepKeepsExclusive(cfg, s, events[0]);
      ExclusiveRunsAreFresh(cfg, Step(cfg, s, events[0]), events[1..]);
    }
  }

  /** One task at a time: at most one comment of a scope is ever created. */
  lemma AtMostOneComment(cfg: Config, events: seq<Event>, i: nat, j: nat)
    requires cfg.exclusive
    requires
      var s := RunEvents(cfg, EmptySys, events);
      && i < |s.comments| && j < |s.comments| && s.comments[i].scope == s.comments[j].scope
      && s.comments[i].fate.Landed? && s.comments[j].fate.Landed?
    ensures i == j
  {
    ExclusiveRunsAreFresh(cfg, EmptySys, events);
    FreshMarksMeanOneComment(cfg, events);
  }
}
