/**
 At most one comment per scope is ever created, in every run of GitHubApply in which no call marks a row that has
 moved on. Runs that drive each scope one task at a time are of that kind (GitHubExclusive).
 */
module GitHubNoDuplicate {
  import opened Wrappers
  import opened TaskStore
  import opened ActionLedger
  import opened ProviderHttp
  import opened GitHubApply
  import opened GitHubInvariant

  // ---------------------------------------------------------------- writes

  /** After a write a call knows its own row, and may continue wherever that row allows. */
  lemma WriterCallOk(s: Sys, c: CallId, ledger: Ledger, row: Action, pc: Pc)
    requires c in s.calls && row.provider.GitHub? && ledger.actions == s.ledger.actions[s.calls[c].scope := row]
    requires row.revision > 1 ==> row.resource.Some?
    requires row.resource.Some? ==> LandedHere(s, s.calls[c].scope, row.resource.value)
    requires Plainly(pc) || pc == AfterStart(row) || (pc.Writing? && row.reconcileNotBefore.Some?)
    ensures CallOk(Took(s, c, ledger, row, pc), c)
  {
  }

  lemma WriterRowOk(cfg: Config, s: Sys, c: CallId, ledger: Ledger, row: Action, pc: Pc)
    requires OneHot(s) && c in s.calls && ledger.actions == s.ledger.actions[s.calls[c].scope := row]
    requires row.revision > 1 ==> row.resource.Some?
    requires row.resource.Some? ==> LandedHere(s, s.calls[c].scope, row.resource.value)
    requires row.reconcileNotBefore.Some? ==> row.reconcileNotBefore.value <= s.clock + cfg.settlement
    requires row.status.ReadyToExecute? && row.resource.None? ==> Cold(s, s.calls[c].scope) && !pc.Writing?
    requires pc.Writing? && row.resource.None? ==> Cold(s, s.calls[c].scope)
    ensures RowOk(cfg, Took(s, c, ledger, row, pc), s.calls[c].scope)
  {
    TookHeat(s, c, ledger, row, pc);
  }

  /** Everything a write must respect, gathered: the row before, the row after, and where the call goes. */
  ghost predicate Writes(cfg: Config, s: Sys, c: CallId, ledger: Ledger, row: Action, pc: Pc)
    requires c in s.calls
  {
    var scope := s.calls[c].scope;
    && row.provider.GitHub? && ledger.actions == s.ledger.actions[scope := row]
    && (scope in s.ledger.actions ==> Follows(s.ledger.actions[scope], row))
    && (row.revision > 1 ==> row.resource.Some?)
    && (row.resource.Some? ==> LandedHere(s, scope, row.resource.value))
    && (row.reconcileNotBefore.Some? ==> row.reconcileNotBefore.value <= s.clock + cfg.settlement)
    && (row.status.ReadyToExecute? && row.resource.None? ==> Cold(s, scope) && !pc.Writing?)
    && (pc.Writing? && row.resource.None? ==> Cold(s, scope))
    && (Plainly(pc) || pc == AfterStart(row) || (pc.Writing? && row.reconcileNotBefore.Some?))
  }

  lemma WriteKeeps(cfg: Config, s: Sys, c: CallId, ledger: Ledger, row: Action, pc: Pc)
    requires Inv(cfg, s) && c in s.calls && Writes(cfg, s, c, ledger, row, pc)
    ensures Inv(cfg, Took(s, c, ledger, row, pc))
  {
    WriterCallOk(s, c, ledger, row, pc);
    WriterRowOk(cfg, s, c, ledger, row, pc);
    TookKeeps(cfg, s, c, ledger, row, pc);
  }

  lemma ReserveWrites(cfg: Config, s: Sys, c: CallId)
    requires c in s.calls && (s.calls[c].scope in s.ledger.actions ==> RowOk(cfg, s, s.calls[c].scope))
    ensures
      var call := s.calls[c];
      var (ledger, reply) :=
        Reserve(s.db, s.ledger, call.fence, GitHub, UpsertComment, call.scope, call.desired, call.snapshot, s.clock);
      reply.Done? ==> Writes(cfg, s, c, ledger, reply.action, Dispatch(reply.kind, reply.action, call.mayUpdate))
  {
  }

  lemma ReserveKeeps(cfg: Config, s: Sys, c: CallId)
    requires Inv(cfg, s) && c in s.calls
    ensures Inv(cfg, ReserveCall(cfg, s, c))
  {
    var call := s.calls[c];
    var (ledger, reply) :=
      Reserve(s.db, s.ledger, call.fence, GitHub, UpsertComment, call.scope, call.desired, call.snapshot, s.clock);
    if reply.Done? {
      ReserveWrites(cfg, s, c);
      WriteKeeps(cfg, s, c, ledger, reply.action, Dispatch(reply.kind, reply.action, call.mayUpdate));
    } else {
      GotoKeeps(cfg, s, c, Abandoned);
    }
  }

  lemma ReviseWrites(cfg: Config, s: Sys, c: CallId)
    requires c in s.calls && s.calls[c].action.Some? && GitHubRow(s, s.calls[c].scope)
    requires RowOk(cfg, s, s.calls[c].scope)
    ensures
      var call := s.calls[c];
      var (ledger, reply) := Revise(s.db, s.ledger, call.fence, call.scope, call.action.value.revision,
                                    call.desired, call.snapshot, s.clock);
      reply.Done? ==> Writes(cfg, s, c, ledger, reply.action, Reconcile(reply.action))
  {
  }

  lemma ReviseKeeps(cfg: Config, s: Sys, c: CallId)
    requires Inv(cfg, s) && c in s.calls && s.calls[c].pc.Revising? && s.calls[c].action.Some?
    ensures Inv(cfg, ReviseCall(s, c))
  {
    var call := s.calls[c];
    var (ledger, reply) := Revise(s.db, s.ledger, call.fence, call.scope, call.action.value.revision,
                                  call.desired, call.snapshot, s.clock);
    assert CallOk(s, c);
    if reply.Done? {
      ReviseWrites(cfg, s, c);
      WriteKeeps(cfg, s, c, ledger, reply.action, Reconcile(reply.action));
    } else {
      GotoKeeps(cfg, s, c, Abandoned);
    }
  }

  /** A transition that binds nothing and opens no write. */
  lemma PlainWrites(cfg: Config, s: Sys, c: CallId, m: Move, row: Action, pc: Pc)
    requires c in s.calls && GitHubRow(s, s.calls[c].scope) && RowOk(cfg, s, s.calls[c].scope)
    requires m == Plain(m.expected, m.status, m.name, m.errorCode) && (Plainly(pc) || pc == AfterStart(row))
    requires row == MovedRow(s.ledger.actions[s.calls[c].scope], s.calls[c].fence, m, s.clock)
    requires m.status.ReadyToExecute? && row.resource.None? ==> Cold(s, s.calls[c].scope)
    ensures forall ledger: Ledger | ledger.actions == s.ledger.actions[s.calls[c].scope := row] ::
              Writes(cfg, s, c, ledger, row, pc)
  {
  }

  lemma PlainMoveKeeps(cfg: Config, s: Sys, c: CallId, m: Move, pc: Pc)
    requires Inv(cfg, s) && c in s.calls && Live(s.calls[c]) && Plainly(pc)
    requires m == Plain(m.expected, m.status, m.name, m.errorCode) && !m.status.ReadyToExecute?
    ensures Inv(cfg, MoveTo(s, c, m, pc))
  {
    var call := s.calls[c];
    var (ledger, reply) := Transition(s.db, s.ledger, call.fence, call.scope, m, s.clock);
    assert CallOk(s, c);
    if reply.Done? {
      PlainWrites(cfg, s, c, m, reply.action, pc);
      WriteKeeps(cfg, s, c, ledger, reply.action, pc);
    } else {
      GotoKeeps(cfg, s, c, Abandoned);
    }
  }

  lemma StartKeeps(cfg: Config, s: Sys, c: CallId)
    requires Inv(cfg, s) && c in s.calls && Live(s.calls[c])
    ensures Inv(cfg, StartCall(s, c))
  {
    var call := s.calls[c];
    var (ledger, reply) := Transition(s.db, s.ledger, call.fence, call.scope, StartMove, s.clock);
    assert CallOk(s, c);
    if reply.Done? {
      PlainWrites(cfg, s, c, StartMove, reply.action, AfterStart(reply.action));
      WriteKeeps(cfg, s, c, ledger, reply.action, AfterStart(reply.action));
    } else {
      GotoKeeps(cfg, s, c, Abandoned);
    }
  }

  /** Marking "no match": the row is still the call's own, so what the search found out still holds. */
  lemma MarkKeeps(cfg: Config, s: Sys, c: CallId)
    requires Inv(cfg, s) && c in s.calls && s.calls[c].pc.MarkingReady? && s.calls[c].action.Some?
    requires MarksFresh(s, Advance(c))
    ensures Inv(cfg, MoveTo(s, c, ReadyMove, StartingWrite))
  {
    var call := s.calls[c];
    var (ledger, reply) := Transition(s.db, s.ledger, call.fence, call.scope, ReadyMove, s.clock);
    assert CallOk(s, c);
    if reply.Done? {
      assert s.ledger.actions[call.scope] == call.action.value && Knows(s, c);
      PlainWrites(cfg, s, c, ReadyMove, reply.action, StartingWrite);
      WriteKeeps(cfg, s, c, ledger, reply.action, StartingWrite);
    } else {
      GotoKeeps(cfg, s, c, Abandoned);
    }
  }

  lemma OpeningWrites(cfg: Config, s: Sys, c: CallId, row: Action)
    requires c in s.calls && GitHubRow(s, s.calls[c].scope) && RowOk(cfg, s, s.calls[c].scope)
    requires s.ledger.actions[s.calls[c].scope].status.ReadyToExecute? && cfg.settlement >= 0
    requires row == MovedRow(s.ledger.actions[s.calls[c].scope], s.calls[c].fence, WriteMove(cfg), s.clock)
    ensures forall ledger: Ledger | ledger.actions == s.ledger.actions[s.calls[c].scope := row] ::
              Writes(cfg, s, c, ledger, row, Writing)
  {
  }

  /** Opening a write: a row that is ready and unbound is cold, so the new create is the only one that can land. */
  lemma OpenKeeps(cfg: Config, s: Sys, c: CallId)
    requires Inv(cfg, s) && c in s.calls && s.calls[c].pc.StartingWrite?
    ensures Inv(cfg, MoveTo(s, c, WriteMove(cfg), Writing))
  {
    var call := s.calls[c];
    var (ledger, reply) := Transition(s.db, s.ledger, call.fence, call.scope, WriteMove(cfg), s.clock);
    assert CallOk(s, c);
    if reply.Done? {
      OpeningWrites(cfg, s, c, reply.action);
      WriteKeeps(cfg, s, c, ledger, reply.action, Writing);
    } else {
      GotoKeeps(cfg, s, c, Abandoned);
    }
  }

  lemma SuccessWrites(cfg: Config, s: Sys, c: CallId, m: Move, row: Action, i: Resource)
    requires c in s.calls && GitHubRow(s, s.calls[c].scope) && RowOk(cfg, s, s.calls[c].scope)
    requires m == SuccessMove(s.calls[c], i, if Reconciling in m.expected then Reconciling else Executing, m.name)
    requires LandedHere(s, s.calls[c].scope, i)
    requires row == MovedRow(s.ledger.actions[s.calls[c].scope], s.calls[c].fence, m, s.clock)
    ensures forall ledger: Ledger | ledger.actions == s.ledger.actions[s.calls[c].scope := row] ::
              Writes(cfg, s, c, ledger, row, Ended(Confirmed))
  {
  }

  /** Recording success binds the row to a landed comment of its scope. */
  lemma SuccessKeeps(cfg: Config, s: Sys, c: CallId, i: Resource, expected: ActionStatus, name: string)
    requires Inv(cfg, s) && c in s.calls && Live(s.calls[c]) && LandedHere(s, s.calls[c].scope, i)
    requires expected.Reconciling? || expected.Executing?
    ensures Inv(cfg, MoveTo(s, c, SuccessMove(s.calls[c], i, expected, name), Ended(Confirmed)))
  {
    var call := s.calls[c];
    var m := SuccessMove(call, i, expected, name);
    var (ledger, reply) := Transition(s.db, s.ledger, call.fence, call.scope, m, s.clock);
    assert CallOk(s, c);
    if reply.Done? {
      SuccessWrites(cfg, s, c, m, reply.action, i);
      WriteKeeps(cfg, s, c, ledger, reply.action, Ended(Confirmed));
    } else {
      GotoKeeps(cfg, s, c, Abandoned);
    }
  }

  lemma RecordKeeps(cfg: Config, s: Sys, c: CallId, outcome: WriteOutcome)
    requires Inv(cfg, s) && c in s.calls && s.calls[c].pc == Recording(outcome)
    ensures
      var end := Ended(if outcome.Written? then Confirmed else Raised);
      Inv(cfg, MoveTo(s, c, OutcomeMove(s.calls[c], outcome), end))
  {
    assert CallOk(s, c);
    if outcome.Written? {
      SuccessKeeps(cfg, s, c, outcome.comment, Executing, "write_succeeded");
    } else {
      PlainMoveKeeps(cfg, s, c, OutcomeMove(s.calls[c], outcome), Ended(Raised));
    }
  }

  lemma HoldoffOverCall(s: Sys, c: CallId)
    requires c in s.calls && CallOk(s, c) && s.calls[c].pc.HoldingOff?
    requires s.calls[c].scope in s.ledger.actions && HoldoffOver(s, s.ledger.actions[s.calls[c].scope])
    ensures CallOk(Goto(s, c, Searching), c)
  {
  }

  /** The holdoff is read from the row; if that is still the call's row, its own holdoff is over. */
  lemma HoldoffKeeps(cfg: Config, s: Sys, c: CallId)
    requires Inv(cfg, s) && c in s.calls && s.calls[c].pc.HoldingOff? && s.calls[c].action.Some?
    ensures Inv(cfg, AdvanceCall(cfg, s, c))
  {
    assert CallOk(s, c);
    if HoldoffOver(s, s.ledger.actions[s.calls[c].scope]) {
      HoldoffOverCall(s, c);
      CallMoves(cfg, s, c, s.calls[c].(pc := Searching));
    } else {
      GotoKeeps(cfg, s, c, FailingRead);
    }
  }

  lemma AdvanceKeeps(cfg: Config, s: Sys, c: CallId)
    requires Inv(cfg, s) && c in s.calls && MarksFresh(s, Advance(c))
    ensures Inv(cfg, AdvanceCall(cfg, s, c))
  {
    var call := s.calls[c];
    assert CallOk(s, c);
    if call.pc.Reserving? {
      ReserveKeeps(cfg, s, c);
    } else if call.action.Some? {
      match call.pc
      case Revising => ReviseKeeps(cfg, s, c);
      case StartingReconciliation => StartKeeps(cfg, s, c);
      case HoldingOff => HoldoffKeeps(cfg, s, c);
      case FailingRead => PlainMoveKeeps(cfg, s, c, FailReadMove, Ended(Raised));
      case SendingToReview(mismatch) => PlainMoveKeeps(cfg, s, c, ReviewMove(mismatch), Ended(Review));
      case Adopting(i) => SuccessKeeps(cfg, s, c, i, Reconciling, "reconciled_succeeded");
      case MarkingReady => MarkKeeps(cfg, s, c);
      case StartingWrite => OpenKeeps(cfg, s, c);
      case Recording(outcome) => RecordKeeps(cfg, s, c, outcome);
      case _ =>
    }
  }

  // ---------------------------------------------------------------- reads and answers

  /** The search after the holdoff: while the row stands, finding nothing proves that nothing can land any more. */
  lemma EmptySearchIsCold(cfg: Config, s: Sys, c: CallId)
    requires Inv(cfg, s) && c in s.calls && s.calls[c].pc.Searching?
    requires s.ledger.actions[s.calls[c].scope] == s.calls[c].action.value
    requires forall i: nat :: !Visible(s, s.calls[c].scope, i)
    ensures Cold(s, s.calls[c].scope)
  {
    var scope := s.calls[c].scope;
    assert CallOk(s, c) && Knows(s, c);
    forall i: nat ensures !HotComment(s, scope, i) {
      if i < |s.comments| && s.comments[i].scope == scope {
        assert CommentOk(s, i) && !Visible(s, scope, i);
      }
    }
    forall d ensures !HotCall(s, scope, d) {
      if d in s.calls { assert CallOk(s, d); }
    }
  }

  lemma ReadyCallOk(s: Sys, c: CallId)
    requires c in s.calls && CallOk(s, c) && s.calls[c].pc.Searching?
    requires s.ledger.actions[s.calls[c].scope] == s.calls[c].action.value ==>
               Cold(Goto(s, c, MarkingReady), s.calls[c].scope)
    ensures CallOk(Goto(s, c, MarkingReady), c)
  {
  }

  lemma ReadyKeeps(cfg: Config, s: Sys, c: CallId)
    requires Inv(cfg, s) && c in s.calls && s.calls[c].pc.Searching?
    requires forall i: nat :: !Visible(s, s.calls[c].scope, i)
    ensures Inv(cfg, Goto(s, c, MarkingReady))
  {
    var after := Goto(s, c, MarkingReady);
    assert CallOk(s, c);
    if s.ledger.actions[s.calls[c].scope] == s.calls[c].action.value {
      EmptySearchIsCold(cfg, s, c);
      assert Cools(s, after);
      CoolsHot(s, after);
    }
    ReadyCallOk(s, c);
    CallMoves(cfg, s, c, s.calls[c].(pc := MarkingReady));
  }

  lemma FoundCallOk(s: Sys, c: CallId, i: Resource)
    requires c in s.calls && CallOk(s, c) && Live(s.calls[c]) && LandedHere(s, s.calls[c].scope, i)
    ensures CallOk(Goto(s, c, Found(s.calls[c], s.calls[c].action.value, i, s.comments[i].body)), c)
  {
  }

  lemma FoundKeeps(cfg: Config, s: Sys, c: CallId, i: Resource)
    requires Inv(cfg, s) && c in s.calls && Live(s.calls[c]) && s.calls[c].action.Some?
    requires LandedHere(s, s.calls[c].scope, i)
    ensures Inv(cfg, Goto(s, c, Found(s.calls[c], s.calls[c].action.value, i, s.comments[i].body)))
  {
    var call := s.calls[c];
    assert CallOk(s, c);
    FoundCallOk(s, c, i);
    CallMoves(cfg, s, c, call.(pc := Found(call, call.action.value, i, s.comments[i].body)));
  }

  lemma ReadBoundKeeps(cfg: Config, s: Sys, c: CallId, read: Read)
    requires Inv(cfg, s) && c in s.calls && s.calls[c].action.Some? && s.calls[c].pc.ReadingBound?
    ensures Inv(cfg, ReadCall(s, c, read))
  {
    var resource := s.calls[c].action.value.resource;
    assert CallOk(s, c);
    if read.ReadRetryable? {
      GotoKeeps(cfg, s, c, FailingRead);
    } else if !read.ReadOk? {
      GotoKeeps(cfg, s, c, Abandoned);
    } else {
      GotoKeeps(cfg, s, c, SendingToReview(false));
      if resource.Some? { FoundKeeps(cfg, s, c, resource.value); }
    }
  }

  lemma SearchFinds(s: Sys, c: CallId)
    requires c in s.calls && s.calls[c].action.Some? && s.calls[c].pc.Searching?
    requires exists i: nat :: Visible(s, s.calls[c].scope, i)
    ensures
      var call := s.calls[c];
      || ReadCall(s, c, ReadOk) == Goto(s, c, SendingToReview(false))
      || exists i: nat :: Visible(s, call.scope, i)
           && ReadCall(s, c, ReadOk) == Goto(s, c, Found(call, call.action.value, i, s.comments[i].body))
  {
  }

  lemma SearchKeeps(cfg: Config, s: Sys, c: CallId, read: Read)
    requires Inv(cfg, s) && c in s.calls && s.calls[c].action.Some? && s.calls[c].pc.Searching?
    ensures Inv(cfg, ReadCall(s, c, read))
  {
    var call := s.calls[c];
    match read
    case ReadRetryable => GotoKeeps(cfg, s, c, FailingRead);
    case ReadIncomplete => GotoKeeps(cfg, s, c, SendingToReview(false));
    case ReadRejected => GotoKeeps(cfg, s, c, Abandoned);
    case ReadOk =>
      if exists i: nat :: Visible(s, call.scope, i) {
        SomethingFoundKeeps(cfg, s, c);
      } else {
        ReadyKeeps(cfg, s, c);
      }
  }

  lemma SomethingFoundKeeps(cfg: Config, s: Sys, c: CallId)
    requires Inv(cfg, s) && c in s.calls && s.calls[c].action.Some? && s.calls[c].pc.Searching?
    requires exists i: nat :: Visible(s, s.calls[c].scope, i)
    ensures Inv(cfg, ReadCall(s, c, ReadOk))
  {
    var call := s.calls[c];
    SearchFinds(s, c);
    if ReadCall(s, c, ReadOk) == Goto(s, c, SendingToReview(false)) {
      GotoKeeps(cfg, s, c, SendingToReview(false));
    } else {
      var i: nat :| Visible(s, call.scope, i)
        && ReadCall(s, c, ReadOk) == Goto(s, c, Found(call, call.action.value, i, s.comments[i].body));
      FoundKeeps(cfg, s, c, i);
    }
  }

  lemma CheckBoundKeeps(cfg: Config, s: Sys, c: CallId, read: Read)
    requires Inv(cfg, s) && c in s.calls && s.calls[c].action.Some? && s.calls[c].pc.CheckingBound?
    ensures Inv(cfg, ReadCall(s, c, read))
  {
    GotoKeeps(cfg, s, c, Abandoned);
    GotoKeeps(cfg, s, c, Revising);
    GotoKeeps(cfg, s, c, Ended(Review));
  }

  lemma ReadKeeps(cfg: Config, s: Sys, c: CallId, read: Read)
    requires Inv(cfg, s) && c in s.calls && s.calls[c].action.Some?
    ensures Inv(cfg, ReadCall(s, c, read))
  {
    match s.calls[c].pc
    case CheckingBound => CheckBoundKeeps(cfg, s, c, read);
    case ReadingBound => ReadBoundKeeps(cfg, s, c, read);
    case Searching => SearchKeeps(cfg, s, c, read);
    case _ =>
  }

  lemma RecordingCallOk(s: Sys, c: CallId, pc: Pc)
    requires c in s.calls && CallOk(s, c) && s.calls[c].pc.AwaitingReply?
    requires pc.Abandoned? || pc.Recording?
    requires pc.Recording? && pc.outcome.Written? ==> LandedHere(s, s.calls[c].scope, pc.outcome.comment)
    ensures CallOk(Goto(s, c, pc), c)
  {
  }

  lemma AnswerKeeps(cfg: Config, s: Sys, c: CallId, e: Exchange)
    requires Inv(cfg, s) && c in s.calls && s.calls[c].action.Some?
    ensures Inv(cfg, AnswerCall(cfg, s, c, e))
  {
    var call := s.calls[c];
    assert CallOk(s, c);
    var outcome := GitHubWrite(e, cfg.goodUrl, cfg.goodTime, cfg.maximumBytes, cfg.maximumRetry);
    if AnswerCall(cfg, s, c, e) != s {
      var next := if outcome.WriteUncaught? then Abandoned else Recording(outcome);
      RecordingCallOk(s, c, next);
      CallMoves(cfg, s, c, call.(pc := next));
    }
  }

  lemma BeginKeeps(cfg: Config, s: Sys, ev: Event)
    requires Inv(cfg, s) && ev.Begin?
    ensures Inv(cfg, Step(cfg, s, ev))
  {
    if Step(cfg, s, ev) != s {
      CallMoves(cfg, s, ev.call, Step(cfg, s, ev).calls[ev.call]);
    }
  }

  lemma StepKeeps(cfg: Config, s: Sys, ev: Event)
    requires Inv(cfg, s) && MarksFresh(s, ev)
    ensures Inv(cfg, Step(cfg, s, ev))
  {
    match ev
    case Tick(now) =>
      if now >= s.clock {
        QuietKeeps(cfg, s, s.db, now);
        assert s.(db := s.db, clock := now) == s.(clock := now);
      }
    case StoreStep(txn) =>
      QuietKeeps(cfg, s, Apply(s.db, txn), s.clock);
      assert s.(db := Apply(s.db, txn), clock := s.clock) == s.(db := Apply(s.db, txn));
    case OtherAction(op) =>
      if Foreign(s.ledger, op) {
        OtherRows(s.db, s.ledger, op);
        ForeignKeeps(cfg, s, Perform(s.db, s.ledger, op).0);
      }
    case Begin(_, _, _, _, _, _) => BeginKeeps(cfg, s, ev);
    case Crash(c) => if c in s.calls { GotoKeeps(cfg, s, c, Abandoned); }
    case Advance(c) => if c in s.calls { AdvanceKeeps(cfg, s, c); }
    case ReadComments(c, read) => if c in s.calls && s.calls[c].action.Some? { ReadKeeps(cfg, s, c, read); }
    case Send(c) => if c in s.calls && s.calls[c].pc.Writing? && s.calls[c].action.Some? { SendKeeps(cfg, s, c); }
    case Land(i) => LandKeeps(cfg, s, i);
    case LandUpdate(u) => LandUpdateKeeps(cfg, s, u);
    case Edit(i, body, marked) => EditKeeps(cfg, s, i, body, marked);
    case Answer(c, e) => if c in s.calls && s.calls[c].action.Some? { AnswerKeeps(cfg, s, c, e); }
  }

  lemma {:induction false} RunKeeps(cfg: Config, s: Sys, events: seq<Event>)
    requires Inv(cfg, s) && FreshRun(cfg, s, events)
    ensures Inv(cfg, RunEvents(cfg, s, events))
    decreases |events|
  {
    if events != [] {
      StepKeeps(cfg, s, events[0]);
      RunKeeps(cfg, Step(cfg, s, events[0]), events[1..]);
    }
  }

  // ---------------------------------------------------------------- what fresh runs guarantee

  ghost predicate OnePerScope(s: Sys) {
    forall i, j | 0 <= i < |s.comments| && 0 <= j < |s.comments| && s.comments[i].scope == s.comments[j].scope
                  && s.comments[i].fate.Landed? && s.comments[j].fate.Landed? :: i == j
  }

  lemma InvMeansOnePerScope(cfg: Config, s: Sys)
    requires Inv(cfg, s)
    ensures OnePerScope(s)
  {
    forall i, j | 0 <= i < |s.comments| && 0 <= j < |s.comments| && s.comments[i].scope == s.comments[j].scope
                  && s.comments[i].fate.Landed? && s.comments[j].fate.Landed?
      ensures i == j
    {
      assert HotComment(s, s.comments[i].scope, i) && HotComment(s, s.comments[i].scope, j);
    }
  }

  /** Any number of live tasks may share scopes: if no stale "no match" is accepted, no scope gets two comments. */
  lemma FreshMarksMeanOneComment(cfg: Config, events: seq<Event>)
    requires FreshRun(cfg, EmptySys, events)
    ensures OnePerScope(RunEvents(cfg, EmptySys, events))
  {
    RunKeeps(cfg, EmptySys, events);
    InvMeansOnePerScope(cfg, RunEvents(cfg, EmptySys, events));
  }

  /** One event never unbinds or rebinds a row. */
  lemma BindingStays(cfg: Config, s: Sys, ev: Event, scope: Scope)
    requires Inv(cfg, s) && MarksFresh(s, ev) && GitHubRow(s, scope) && s.ledger.actions[scope].resource.Some?
    ensures GitHubRow(Step(cfg, s, ev), scope)
    ensures Step(cfg, s, ev).ledger.actions[scope].resource == s.ledger.actions[scope].resource
  {
    StepKeeps(cfg, s, ev);
    var after := Step(cfg, s, ev);
    var i := s.ledger.actions[scope].resource.value;
    assert RowOk(cfg, s, scope) && HotComment(s, scope, i);
    RowSurvives(cfg, s, ev, scope);
    assert RowOk(cfg, after, scope);
    var j := after.ledger.actions[scope].resource.value;
    assert HotComment(after, scope, i) && HotComment(after, scope, j);
  }

  lemma RowSurvives(cfg: Config, s: Sys, ev: Event, scope: Scope)
    requires GitHubRow(s, scope) && s.ledger.actions[scope].resource.Some?
    ensures GitHubRow(Step(cfg, s, ev), scope)
    ensures Step(cfg, s, ev).ledger.actions[scope].resource.Some?
    ensures Grows(s, Step(cfg, s, ev))
  {
    match ev
    case OtherAction(op) => if Foreign(s.ledger, op) { OtherRows(s.db, s.ledger, op); }
    case Advance(c) => if c in s.calls { AdvanceSurvives(cfg, s, c, scope); }
    case _ => assert Step(cfg, s, ev).ledger == s.ledger;
  }

  lemma AdvanceSurvives(cfg: Config, s: Sys, c: CallId, scope: Scope)
    requires GitHubRow(s, scope) && s.ledger.actions[scope].resource.Some? && c in s.calls
    ensures GitHubRow(AdvanceCall(cfg, s, c), scope)
    ensures AdvanceCall(cfg, s, c).ledger.actions[scope].resource.Some?
    ensures AdvanceCall(cfg, s, c).comments == s.comments && AdvanceCall(cfg, s, c).clock == s.clock
  {
    MoveSurvives(s, c, scope);
  }

  lemma MoveSurvives(s: Sys, c: CallId, scope: Scope)
    requires GitHubRow(s, scope) && s.ledger.actions[scope].resource.Some? && c in s.calls
    ensures forall m, pc ::
              && GitHubRow(MoveTo(s, c, m, pc), scope)
              && MoveTo(s, c, m, pc).ledger.actions[scope].resource.Some?
              && MoveTo(s, c, m, pc).comments == s.comments
  {
  }

  /** Once bound, a scope keeps that comment for ever: it is only updated, and no other is ever created. */
  lemma {:induction false} BoundForever(cfg: Config, s: Sys, events: seq<Event>, scope: Scope)
    requires Inv(cfg, s) && FreshRun(cfg, s, events)
    requires GitHubRow(s, scope) && s.ledger.actions[scope].resource.Some?
    ensures
      var after := RunEvents(cfg, s, events);
      && GitHubRow(after, scope)
      && after.ledger.actions[scope].resource == s.ledger.actions[scope].resource
      && forall j | 0 <= j < |after.comments| && after.comments[j].scope == scope && after.comments[j].fate.Landed? ::
        s.ledger.actions[scope].resource == Some(j)
    decreases |events|
  {
    if events == [] {
      assert RowOk(cfg, s, scope) && HotComment(s, scope, s.ledger.actions[scope].resource.value);
      assert forall j: nat | j < |s.comments| && s.comments[j].scope == scope && s.comments[j].fate.Landed? ::
          HotComment(s, scope, j);
    } else {
      StepKeeps(cfg, s, events[0]);
      BindingStays(cfg, s, events[0], scope);
      BoundForever(cfg, Step(cfg, s, events[0]), events[1..], scope);
    }
  }
}
