/**
 Facts about GitHubApply in every run, fresh or not: the schema's constraints are never violated, and a row that is
 left ready to execute can never be resumed.
 */
module GitHubLimits {
  import opened Wrappers
  import opened TaskStore
  import opened ActionLedger
  import opened ProviderHttp
  import opened GitHubApply
  import opened GitHubInvariant

  // ---------------------------------------------------------------- the schema's constraints

  predicate Sound(a: Action) {
    a.provider.GitHub? ==> ActionChecks(a) && (a.status.Executing? ==> a.writeStartedAt.Some?)
  }

  ghost predicate Checked(s: Sys) {
    && (forall o | o in s.ledger.actions :: Sound(s.ledger.actions[o]))
    && (forall c | c in s.calls :: Confirming(s, s.calls[c]))
  }

  /** A live call has a row, and one that reported success returns its evidence. */
  predicate Confirming(s: Sys, call: Call) {
    && (call.pc == Ended(Confirmed) || call.pc == Ended(Replayed) ==>
          call.action.Some? && call.action.value.resource.Some?)
    && (Live(call) ==> call.action.Some? && GitHubRow(s, call.scope))
  }

  /** The transition that opens reconciliation changes nothing that decides where to go on. */
  function StartPc(s: Sys, scope: Scope): Pc {
    if scope in s.ledger.actions then AfterStart(s.ledger.actions[scope]) else Abandoned
  }

  lemma StartIsMove(s: Sys, c: CallId)
    requires c in s.calls
    ensures StartCall(s, c) == MoveTo(s, c, StartMove, StartPc(s, s.calls[c].scope))
  {
  }

  /** The transition a call asks for at its present point. */
  function MoveOf(cfg: Config, call: Call): Option<Move> {
    match call.pc
    case StartingReconciliation => Some(StartMove)
    case FailingRead => Some(FailReadMove)
    case SendingToReview(mismatch) => Some(ReviewMove(mismatch))
    case Adopting(i) => Some(SuccessMove(call, i, Reconciling, "reconciled_succeeded"))
    case MarkingReady => Some(ReadyMove)
    case StartingWrite => Some(WriteMove(cfg))
    case Recording(outcome) => Some(OutcomeMove(call, outcome))
    case _ => None
  }

  /** What a call that asks for a transition becomes. */
  lemma AdvanceIsMove(cfg: Config, s: Sys, c: CallId) returns (pc: Pc)
    requires c in s.calls && MoveOf(cfg, s.calls[c]).Some? && s.calls[c].action.Some?
    ensures AdvanceCall(cfg, s, c) == MoveTo(s, c, MoveOf(cfg, s.calls[c]).value, pc)
    ensures pc == Ended(Confirmed) ==> MoveOf(cfg, s.calls[c]).value.status.ActionSucceeded?
    ensures pc != Ended(Replayed)
    ensures pc.StartingWrite? <==> s.calls[c].pc.MarkingReady?
    ensures s.calls[c].pc.StartingReconciliation? ==> pc == StartPc(s, s.calls[c].scope)
    ensures s.calls[c].pc.StartingWrite? ==> pc == Writing
  {
    match s.calls[c].pc
    case StartingReconciliation =>
      StartIsMove(s, c);
      pc := StartPc(s, s.calls[c].scope);
    case FailingRead => pc := Ended(Raised);
    case SendingToReview(_) => pc := Ended(Review);
    case Adopting(_) => pc := Ended(Confirmed);
    case MarkingReady => pc := StartingWrite;
    case StartingWrite => pc := Writing;
    case Recording(outcome) => pc := Ended(if outcome.Written? then Confirmed else Raised);
  }

  lemma AdvanceChecked(cfg: Config, s: Sys, c: CallId)
    requires Checked(s) && c in s.calls
    ensures Checked(AdvanceCall(cfg, s, c))
  {
    var call := s.calls[c];
    if call.pc.Reserving? {
      ReserveChecked(cfg, s, c);
    } else if call.action.Some? {
      if MoveOf(cfg, call).Some? {
        var pc := AdvanceIsMove(cfg, s, c);
        MoveChecked(cfg, s, c, pc);
      } else if call.pc.Revising? {
        ReviseChecked(s, c);
      }
    }
  }

  lemma TookChecked(s: Sys, c: CallId, ledger: Ledger, row: Action, pc: Pc)
    requires Checked(s) && c in s.calls && ledger.actions == s.ledger.actions[s.calls[c].scope := row]
    requires row.provider.GitHub? && Sound(row)
    requires pc == Ended(Confirmed) || pc == Ended(Replayed) ==> row.resource.Some?
    ensures Checked(Took(s, c, ledger, row, pc))
  {
  }

  lemma MovedRowSound(cfg: Config, s: Sys, c: CallId)
    requires Checked(s) && c in s.calls && MoveOf(cfg, s.calls[c]).Some?
    ensures
      var call := s.calls[c];
      var m := MoveOf(cfg, call).value;
      var (ledger, reply) := Transition(s.db, s.ledger, call.fence, call.scope, m, s.clock);
      reply.Done? ==>
        && ledger.actions == s.ledger.actions[call.scope := reply.action]
        && reply.action.provider.GitHub? && Sound(reply.action)
        && (m.status.ActionSucceeded? ==> reply.action.resource.Some?)
  {
    assert Confirming(s, s.calls[c]) && Sound(s.ledger.actions[s.calls[c].scope]);
  }

  lemma MoveChecked(cfg: Config, s: Sys, c: CallId, pc: Pc)
    requires Checked(s) && c in s.calls && MoveOf(cfg, s.calls[c]).Some? && pc != Ended(Replayed)
    requires pc == Ended(Confirmed) ==> MoveOf(cfg, s.calls[c]).value.status.ActionSucceeded?
    ensures Checked(MoveTo(s, c, MoveOf(cfg, s.calls[c]).value, pc))
  {
    var call := s.calls[c];
    var (ledger, reply) := Transition(s.db, s.ledger, call.fence, call.scope, MoveOf(cfg, call).value, s.clock);
    MovedRowSound(cfg, s, c);
    if reply.Done? { TookChecked(s, c, ledger, reply.action, pc); } else { GivenUpChecked(s, c); }
  }

  lemma GivenUpChecked(s: Sys, c: CallId)
    requires Checked(s) && c in s.calls
    ensures Checked(Goto(s, c, Abandoned))
  {
  }

  lemma ReserveChecked(cfg: Config, s: Sys, c: CallId)
    requires Checked(s) && c in s.calls
    ensures Checked(ReserveCall(cfg, s, c))
  {
    var call := s.calls[c];
    var (ledger, reply) :=
      Reserve(s.db, s.ledger, call.fence, GitHub, UpsertComment, call.scope, call.desired, call.snapshot, s.clock);
    if reply.Done? {
      TookChecked(s, c, ledger, reply.action, Dispatch(reply.kind, reply.action, call.mayUpdate));
    }
  }

  lemma ReviseChecked(s: Sys, c: CallId)
    requires Checked(s) && c in s.calls && s.calls[c].pc.Revising? && s.calls[c].action.Some?
    ensures Checked(ReviseCall(s, c))
  {
    var call := s.calls[c];
    var (ledger, reply) := Revise(s.db, s.ledger, call.fence, call.scope, call.action.value.revision,
                                  call.desired, call.snapshot, s.clock);
    if reply.Done? { TookChecked(s, c, ledger, reply.action, Reconcile(reply.action)); }
  }

  lemma StepChecked(cfg: Config, s: Sys, ev: Event)
    requires Checked(s)
    ensures Checked(Step(cfg, s, ev))
  {
    match ev
    case OtherAction(op) => if Foreign(s.ledger, op) { OtherRows(s.db, s.ledger, op); }
    case Advance(c) => if c in s.calls { AdvanceChecked(cfg, s, c); }
    case ReadComments(c, read) => if c in s.calls && s.calls[c].action.Some? { ReadChecked(s, c, read); }
    case Answer(c, e) => if c in s.calls && s.calls[c].action.Some? { AnswerChecked(cfg, s, c, e); }
    case _ => assert Step(cfg, s, ev).ledger == s.ledger;
  }

  lemma ReadChecked(s: Sys, c: CallId, read: Read)
    requires Checked(s) && c in s.calls && s.calls[c].action.Some?
    ensures Checked(ReadCall(s, c, read))
  {
  }

  lemma AnswerChecked(cfg: Config, s: Sys, c: CallId, e: Exchange)
    requires Checked(s) && c in s.calls && s.calls[c].action.Some?
    ensures Checked(AnswerCall(cfg, s, c, e))
  {
  }

  lemma {:induction false} RunChecked(cfg: Config, s: Sys, events: seq<Event>)
    requires Checked(s)
    ensures Checked(RunEvents(cfg, s, events))
    decreases |events|
  {
    if events != [] {
      StepChecked(cfg, s, events[0]);
      RunChecked(cfg, Step(cfg, s, events[0]), events[1..]);
    }
  }

  /** No call site of the workflow can break a CHECK constraint or pass bad delays, however many tasks interleave. */
  lemma WorkflowNeverViolatesChecks(cfg: Config, events: seq<Event>, c: CallId)
    requires cfg.settlement >= 0
    requires c in RunEvents(cfg, EmptySys, events).calls
    ensures
      var s := RunEvents(cfg, EmptySys, events);
      var call := s.calls[c];
      && (call.pc == Ended(Confirmed) || call.pc == Ended(Replayed) ==>
          call.action.Some? && call.action.value.resource.Some?)
      && (MoveOf(cfg, call).Some? ==>
            var reply := Transition(s.db, s.ledger, call.fence, call.scope, MoveOf(cfg, call).value, s.clock).1;
            !reply.CheckViolated? && !reply.BadArguments?)
  {
    RunChecked(cfg, EmptySys, events);
    var s := RunEvents(cfg, EmptySys, events);
    assert Confirming(s, s.calls[c]);
    if MoveOf(cfg, s.calls[c]).Some? { MoveIsLegal(cfg, s, c); }
  }

  lemma MoveIsLegal(cfg: Config, s: Sys, c: CallId)
    requires cfg.settlement >= 0 && c in s.calls && MoveOf(cfg, s.calls[c]).Some?
    requires GitHubRow(s, s.calls[c].scope) && Sound(s.ledger.actions[s.calls[c].scope])
    ensures
      var call := s.calls[c];
      var reply := Transition(s.db, s.ledger, call.fence, call.scope, MoveOf(cfg, call).value, s.clock).1;
      !reply.CheckViolated? && !reply.BadArguments?
  {
  }

  // ---------------------------------------------------------------- ready to execute

  predicate ReadyRow(s: Sys, scope: Scope) {
    GitHubRow(s, scope) && s.ledger.actions[scope].status.ReadyToExecute?
  }

  ghost predicate NobodyStarting(s: Sys, scope: Scope) {
    forall c | c in s.calls && s.calls[c].scope == scope :: !s.calls[c].pc.StartingWrite?
  }

  lemma MoveFromReady(s: Sys, c: CallId, m: Move, pc: Pc, scope: Scope)
    requires ReadyRow(s, scope) && c in s.calls
    requires s.calls[c].scope == scope ==> ReadyToExecute !in m.expected
    requires s.calls[c].scope != scope || pc != StartingWrite || ReadyToExecute !in m.expected
    requires NobodyStarting(s, scope)
    ensures ReadyRow(MoveTo(s, c, m, pc), scope) && NobodyStarting(MoveTo(s, c, m, pc), scope)
  {
    var call := s.calls[c];
    if call.scope == scope {
      RefusedMove(s, c, m, pc);
    } else {
      MoveElsewhere(s, c, m, pc, scope);
    }
  }

  /** A transition that does not expect the row's status abandons its call. */
  lemma RefusedMove(s: Sys, c: CallId, m: Move, pc: Pc)
    requires c in s.calls && GitHubRow(s, s.calls[c].scope) && s.ledger.actions[s.calls[c].scope].status !in m.expected
    ensures MoveTo(s, c, m, pc) == Goto(s, c, Abandoned)
  {
  }

  lemma MoveElsewhere(s: Sys, c: CallId, m: Move, pc: Pc, scope: Scope)
    requires c in s.calls && s.calls[c].scope != scope && ReadyRow(s, scope) && NobodyStarting(s, scope)
    ensures ReadyRow(MoveTo(s, c, m, pc), scope) && NobodyStarting(MoveTo(s, c, m, pc), scope)
  {
  }

  lemma ReserveFromReady(cfg: Config, s: Sys, c: CallId, scope: Scope)
    requires ReadyRow(s, scope) && NobodyStarting(s, scope) && c in s.calls
    ensures ReadyRow(ReserveCall(cfg, s, c), scope) && NobodyStarting(ReserveCall(cfg, s, c), scope)
  {
  }

  lemma ReviseFromReady(s: Sys, c: CallId, scope: Scope)
    requires ReadyRow(s, scope) && NobodyStarting(s, scope) && c in s.calls && s.calls[c].action.Some?
    ensures ReadyRow(ReviseCall(s, c), scope) && NobodyStarting(ReviseCall(s, c), scope)
  {
  }

  /** Reads, answers and everything else leave the row alone and start no write. */
  lemma StepFromReady(cfg: Config, s: Sys, ev: Event, scope: Scope)
    requires ReadyRow(s, scope) && NobodyStarting(s, scope)
    ensures ReadyRow(Step(cfg, s, ev), scope) && NobodyStarting(Step(cfg, s, ev), scope)
  {
    match ev
    case OtherAction(op) => if Foreign(s.ledger, op) { OtherRows(s.db, s.ledger, op); }
    case Advance(c) => if c in s.calls { AdvanceFromReady(cfg, s, c, scope); }
    case ReadComments(c, read) => if c in s.calls && s.calls[c].action.Some? { ReadFromReady(s, c, read, scope); }
    case _ => assert Step(cfg, s, ev).ledger == s.ledger;
  }

  lemma ReadFromReady(s: Sys, c: CallId, read: Read, scope: Scope)
    requires ReadyRow(s, scope) && NobodyStarting(s, scope) && c in s.calls && s.calls[c].action.Some?
    ensures ReadyRow(ReadCall(s, c, read), scope) && NobodyStarting(ReadCall(s, c, read), scope)
  {
  }

  lemma AdvanceFromReady(cfg: Config, s: Sys, c: CallId, scope: Scope)
    requires ReadyRow(s, scope) && NobodyStarting(s, scope) && c in s.calls
    ensures ReadyRow(AdvanceCall(cfg, s, c), scope) && NobodyStarting(AdvanceCall(cfg, s, c), scope)
  {
    var call := s.calls[c];
    if call.pc.Reserving? {
      ReserveFromReady(cfg, s, c, scope);
    } else if call.action.Some? {
      if MoveOf(cfg, call).Some? {
        var pc := AdvanceIsMove(cfg, s, c);
        MoveFromReady(s, c, MoveOf(cfg, call).value, pc, scope);
      } else if call.pc.Revising? {
        ReviseFromReady(s, c, scope);
      }
    }
  }

  /** A row left ready to execute with no call about to write stays so for ever: re-entry expects another status. */
  lemma {:induction false} ReadyIsNeverResumed(cfg: Config, s: Sys, events: seq<Event>, scope: Scope)
    requires ReadyRow(s, scope) && NobodyStarting(s, scope)
    ensures ReadyRow(RunEvents(cfg, s, events), scope)
    decreases |events|
  {
    if events != [] {
      StepFromReady(cfg, s, events[0], scope);
      ReadyIsNeverResumed(cfg, Step(cfg, s, events[0]), events[1..], scope);
    }
  }

  /** A replayed call gets its row to reconciling exactly when the status it found is not ready to execute. */
  lemma ResumableIff(cfg: Config, s: Sys, c: CallId)
    requires c in s.calls && s.calls[c].pc.Reserving? && GitHubRow(s, s.calls[c].scope)
    requires s.ledger.actions[s.calls[c].scope].operation.UpsertComment?
    requires Sound(s.ledger.actions[s.calls[c].scope]) && FenceHolds(s.db, s.calls[c].fence, s.clock)
    requires cfg.exclusive ==> NoRival(s, c)
    requires
      var a := s.ledger.actions[s.calls[c].scope];
      && KindOf(a, s.calls[c].desired, s.calls[c].snapshot).Replay?
      && !a.status.ActionSucceeded? && !a.status.NeedsHumanReview? && !a.status.PermanentFailure?
    ensures
      var reserved := AdvanceCall(cfg, s, c);
      var started := if reserved.calls[c].pc.StartingReconciliation? then AdvanceCall(cfg, reserved, c) else reserved;
      var scope := s.calls[c].scope;
      && scope in started.ledger.actions
      && (Live(started.calls[c]) && started.ledger.actions[scope].status.Reconciling?
          <==> !s.ledger.actions[scope].status.ReadyToExecute?)
  {
  }
}
