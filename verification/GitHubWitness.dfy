/**
 Runs of GitHubApply from empty tables that show where the protocol stops short: one leaves a row ready to execute
 for ever, one creates two comments for a scope that several live tasks drive. With them, the condition under which
 duplicates are impossible is exact.
 */
module GitHubWitness {
  import opened Wrappers
  import opened TaskDomain
  import opened OrderedSelection
  import opened TaskStore
  import opened ActionLedger
  import opened ProviderHttp
  import opened GitHubApply
  import opened GitHubInvariant
  import opened GitHubNoDuplicate
  import opened GitHubExclusive
  import opened GitHubLimits

  // ---------------------------------------------------------------- three tasks are claimed

  const SomeScope := Scope("scope")

  const SyncType := "deployment_context_sync"

  function Token(n: int): string { if n == 1 then "one" else if n == 2 then "two" else "three" }

  function Holder(n: int): ExecutionFence { ExecutionFence(TaskId(n), 1, "worker", Token(n)) }

  function RunningTask(n: int): Task {
    Task(SyncType, Running, 1, 3, None, Some("worker"), Some(Token(n)), Some(100), Some(0),
         None, None, None, None, 0, 2)
  }

  function OpenAttempt(n: int): Attempt { Attempt("worker", Token(n), InProgress, 0, 0, None, None, None, None) }

  function WithRunning(db: Db, n: int): Db { Put(db, TaskId(n), RunningTask(n), 1, OpenAttempt(n)) }

  const ThreeTasks := WithRunning(WithRunning(WithRunning(EmptyDb, 1), 2), 3)

  function CreateOf(n: int): Txn { Create(TaskId(n), SyncType, 3, 0) }

  function ApprovalOf(n: int): Txn { Approval(TaskId(n), 0) }

  function ClaimOf(n: int): Txn { Claim({SyncType}, "worker", Token(n), 100, 0, 0) }

  function ApprovedTask(): Task {
    Task(SyncType, Approved, 0, 3, Some(0), None, None, None, None, None, None, None, None, 0, 1)
  }

  lemma ClaimTakes(db: Db, n: int)
    requires TaskId(n) in db.tasks && db.tasks[TaskId(n)] == ApprovedTask()
    requires AttemptKey(TaskId(n), 1) !in db.attempts
    requires forall o | o in db.tasks && o != TaskId(n) :: !db.tasks[o].status.Approved?
    ensures Apply(db, ClaimOf(n)) == WithRunning(db, n)
  {
    NextClaimIsFirst(db, {SyncType}, 0);
    assert TaskId(n) in ClaimableSet(db, {SyncType}, 0);
    assert FirstClaimable(db, {SyncType}, 0, TaskId(n));
  }

  /** Creating, approving and claiming one task, while no other is approved. */
  lemma TaskIsClaimed(db: Db, n: int)
    requires TaskId(n) !in db.tasks && AttemptKey(TaskId(n), 1) !in db.attempts
    requires forall o | o in db.tasks :: !db.tasks[o].status.Approved?
    ensures Apply(Apply(Apply(db, CreateOf(n)), ApprovalOf(n)), ClaimOf(n)) == WithRunning(db, n)
  {
    var approved := Apply(Apply(db, CreateOf(n)), ApprovalOf(n));
    assert approved == db.(tasks := db.tasks[TaskId(n) := ApprovedTask()]);
    ClaimTakes(approved, n);
    assert WithRunning(approved, n) == WithRunning(db, n);
  }

  function StartOf(n: nat): Event { Begin(CallId(n), Holder(n), SomeScope, 7, 9, false) }

  lemma RunThen(cfg: Config, s: Sys, events: seq<Event>, ev: Event)
    ensures RunEvents(cfg, s, events + [ev]) == Step(cfg, RunEvents(cfg, s, events), ev)
    decreases |events|
  {
    if events == [] {
      assert [ev][1..] == [];
    } else {
      assert (events + [ev])[1..] == events[1..] + [ev];
      RunThen(cfg, Step(cfg, s, events[0]), events[1..], ev);
    }
  }

  /** The row after a search found nothing and before any write. */
  predicate UnboundRow(s: Sys, status: ActionStatus) {
    && s.db == ThreeTasks && s.clock == 0
    && GitHubRow(s, SomeScope)
    && var a := s.ledger.actions[SomeScope];
    && a.operation.UpsertComment? && a.desired == 7 && a.snapshot == 9 && a.revision == 1
    && a.status == status && a.resource.None? && Sound(a)
  }

  predicate At(s: Sys, n: nat, pc: Pc) {
    && CallId(n) in s.calls
    && var call := s.calls[CallId(n)];
    && call.fence == Holder(n) && call.scope == SomeScope && call.desired == 7 && call.snapshot == 9
    && call.pc == pc && (Live(call) ==> call.action.Some? && call.action.value.resource.None?)
  }

  /** Call n moved and the other calls did not; every call belongs to the task of its number. */
  ghost predicate OnlyCall(s: Sys, after: Sys, n: nat) {
    && after.db == s.db && after.clock == s.clock
    && (forall c | c != CallId(n) :: c in after.calls <==> c in s.calls)
    && (forall c | c in s.calls && c != CallId(n) :: after.calls[c] == s.calls[c])
    && Owned(after)
  }

  ghost predicate Owned(s: Sys) {
    forall c | c in s.calls :: s.calls[c].fence == Holder(c.number)
  }

  lemma Extend(cfg: Config, events: seq<Event>, ev: Event) returns (longer: seq<Event>)
    ensures RunEvents(cfg, EmptySys, longer) == Step(cfg, RunEvents(cfg, EmptySys, events), ev)
  {
    longer := events + [ev];
    RunThen(cfg, EmptySys, events, ev);
  }

  /** One more running task, as three transactions of the run. */
  lemma ExtendByTask(cfg: Config, events: seq<Event>, n: int) returns (longer: seq<Event>)
    requires
      var s := RunEvents(cfg, EmptySys, events);
      && s.clock == 0 && TaskId(n) !in s.db.tasks && AttemptKey(TaskId(n), 1) !in s.db.attempts
      && forall o | o in s.db.tasks :: !s.db.tasks[o].status.Approved?
    ensures
      var s := RunEvents(cfg, EmptySys, events);
      RunEvents(cfg, EmptySys, longer) == s.(db := WithRunning(s.db, n))
  {
    TaskIsClaimed(RunEvents(cfg, EmptySys, events).db, n);
    longer := Extend(cfg, events, StoreStep(CreateOf(n)));
    longer := Extend(cfg, longer, StoreStep(ApprovalOf(n)));
    longer := Extend(cfg, longer, StoreStep(ClaimOf(n)));
  }

  lemma ThreeTasksRun(cfg: Config) returns (events: seq<Event>)
    ensures RunEvents(cfg, EmptySys, events) == EmptySys.(db := ThreeTasks)
  {
    events := ExtendByTask(cfg, [], 1);
    events := ExtendByTask(cfg, events, 2);
    events := ExtendByTask(cfg, events, 3);
  }

  lemma HoldersHold(n: int)
    requires 1 <= n <= 3
    ensures FenceHolds(ThreeTasks, Holder(n), 0) && Holder(n).Key() in ThreeTasks.attempts
  {
  }

  lemma StartStep(cfg: Config, s: Sys, n: nat)
    requires Owned(s) && s.db == ThreeTasks && 1 <= n <= 3 && CallId(n) !in s.calls
    ensures
      var after := Step(cfg, s, StartOf(n));
      OnlyCall(s, after, n) && At(after, n, Reserving) && after.ledger == s.ledger && after.comments == s.comments
  {
    HoldersHold(n);
    forall d | d in s.calls ensures s.calls[d].fence.Key() != Holder(n).Key() {
      assert d != CallId(n);
    }
  }

  lemma FirstReserve(cfg: Config, s: Sys, n: nat)
    requires (forall c | c in s.calls :: c == CallId(n)) && Owned(s) && 1 <= n <= 3 && At(s, n, Reserving)
    requires s.db == ThreeTasks && s.clock == 0 && s.ledger == EmptyLedger
    ensures
      var after := Step(cfg, s, Advance(CallId(n)));
      && OnlyCall(s, after, n) && after.comments == s.comments
      && UnboundRow(after, Reserved) && At(after, n, StartingReconciliation)
      && after.ledger.actions[SomeScope].reconcileNotBefore.None?
  {
    HoldersHold(n);
  }

  /** Reserving again under a live fence is a replay: only the row's owner and sequence change. */
  lemma ReplayTakesRow(cfg: Config, s: Sys, n: nat, st: ActionStatus)
    requires !cfg.exclusive && Owned(s) && 1 <= n <= 3 && At(s, n, Reserving) && UnboundRow(s, st)
    requires st.Executing? || st.Reconciling?
    ensures
      var old_ := s.ledger.actions[SomeScope];
      var row := old_.(taskId := TaskId(n), attemptNumber := 1, sequence := old_.sequence + 1, updatedAt := 0);
      exists ledger: Ledger :: ledger.actions == s.ledger.actions[SomeScope := row]
        && Step(cfg, s, Advance(CallId(n))) == Took(s, CallId(n), ledger, row, Reconcile(row))
  {
    HoldersHold(n);
    var call := s.calls[CallId(n)];
    var reserved :=
      Reserve(s.db, s.ledger, call.fence, GitHub, UpsertComment, call.scope, call.desired, call.snapshot, s.clock);
    assert reserved.1.Done? && reserved.1.kind.Replay?;
    assert ReserveCall(cfg, s, CallId(n))
      == Took(s, CallId(n), reserved.0, reserved.1.action, Reconcile(reserved.1.action));
  }

  lemma ReplayReserve(cfg: Config, s: Sys, n: nat, st: ActionStatus)
    requires !cfg.exclusive && Owned(s) && 1 <= n <= 3 && At(s, n, Reserving) && UnboundRow(s, st)
    requires st.Executing? || st.Reconciling?
    ensures
      var after := Step(cfg, s, Advance(CallId(n)));
      && OnlyCall(s, after, n) && after.comments == s.comments && UnboundRow(after, st)
      && (st.Executing? ==> At(after, n, StartingReconciliation))
      && (st.Reconciling? && s.ledger.actions[SomeScope].reconcileNotBefore.None? ==> At(after, n, Searching))
  {
    ReplayTakesRow(cfg, s, n, st);
  }

  lemma MoveStep(s: Sys, n: nat, m: Move, pc: Pc, was: Pc, st: ActionStatus)
    requires Owned(s) && 1 <= n <= 3 && At(s, n, was) && Live(s.calls[CallId(n)])
    requires UnboundRow(s, st) && st in m.expected
    requires m.evidence.None? && !m.clearWriteStarted && GoodDelays(m)
    requires !m.status.ActionSucceeded? && !m.status.OutcomeUnknown? && !st.ActionSucceeded?
    requires m.status.Executing? ==> m.settlement.Some?
    ensures
      var after := MoveTo(s, CallId(n), m, pc);
      && OnlyCall(s, after, n) && after.comments == s.comments
      && UnboundRow(after, m.status) && At(after, n, pc)
      && (m.settlement.None? && m.notBefore.None? && !m.clearNotBefore ==>
            after.ledger.actions[SomeScope].reconcileNotBefore == s.ledger.actions[SomeScope].reconcileNotBefore)
      && (m.settlement.Some? ==> after.calls[CallId(n)].action.value.reconcileNotBefore == Some(m.settlement.value))
  {
    HoldersHold(n);
  }

  /** The event by which call n opens reconciliation, marks its row ready or opens its write. */
  lemma AdvanceMoves(cfg: Config, s: Sys, n: nat, was: Pc, m: Move, pc: Pc)
    requires At(s, n, was) && Live(s.calls[CallId(n)])
    requires || (was.StartingReconciliation? && m == StartMove && pc == StartPc(s, SomeScope))
             || (was.MarkingReady? && m == ReadyMove && pc.StartingWrite?)
             || (was.StartingWrite? && m == WriteMove(cfg) && pc.Writing?)
    ensures Step(cfg, s, Advance(CallId(n))) == MoveTo(s, CallId(n), m, pc)
  {
    StartIsMove(s, CallId(n));
  }

  lemma StartsReconciling(cfg: Config, s: Sys, n: nat, st: ActionStatus)
    requires Owned(s) && 1 <= n <= 3 && At(s, n, StartingReconciliation) && UnboundRow(s, st)
    requires st.Reserved? || st.Executing?
    ensures
      var after := Step(cfg, s, Advance(CallId(n)));
      && OnlyCall(s, after, n) && after.comments == s.comments && UnboundRow(after, Reconciling)
      && after.ledger.actions[SomeScope].reconcileNotBefore == s.ledger.actions[SomeScope].reconcileNotBefore
      && (s.ledger.actions[SomeScope].reconcileNotBefore.None? ==> At(after, n, Searching))
  {
    AdvanceMoves(cfg, s, n, StartingReconciliation, StartMove, StartPc(s, SomeScope));
    MoveStep(s, n, StartMove, StartPc(s, SomeScope), StartingReconciliation, st);
  }

  lemma MarksReady(cfg: Config, s: Sys, n: nat)
    requires Owned(s) && 1 <= n <= 3 && At(s, n, MarkingReady) && UnboundRow(s, Reconciling)
    ensures
      var after := Step(cfg, s, Advance(CallId(n)));
      && OnlyCall(s, after, n) && after.comments == s.comments
      && UnboundRow(after, ReadyToExecute) && At(after, n, StartingWrite)
  {
    AdvanceMoves(cfg, s, n, MarkingReady, ReadyMove, StartingWrite);
    MoveStep(s, n, ReadyMove, StartingWrite, MarkingReady, Reconciling);
  }

  lemma StartsWrite(cfg: Config, s: Sys, n: nat)
    requires cfg.settlement > 0
    requires Owned(s) && 1 <= n <= 3 && At(s, n, StartingWrite) && UnboundRow(s, ReadyToExecute)
    ensures
      var after := Step(cfg, s, Advance(CallId(n)));
      && OnlyCall(s, after, n) && after.comments == s.comments
      && UnboundRow(after, Executing) && At(after, n, Writing)
      && after.calls[CallId(n)].action.value.reconcileNotBefore == Some(cfg.settlement)
  {
    AdvanceMoves(cfg, s, n, StartingWrite, WriteMove(cfg), Writing);
    MoveStep(s, n, WriteMove(cfg), Writing, StartingWrite, ReadyToExecute);
  }

  lemma SendAndLand(cfg: Config, s: Sys, n: nat, deadline: Time)
    requires 1 <= n <= 3 && Owned(s) && UnboundRow(s, Executing) && At(s, n, Writing) && deadline > 0
    requires s.calls[CallId(n)].action.value.reconcileNotBefore == Some(deadline)
    ensures
      var after := Step(cfg, Step(cfg, s, Send(CallId(n))), Land(|s.comments|));
      && OnlyCall(s, after, n) && UnboundRow(after, Executing)
      && after.comments == s.comments + [Comment(SomeScope, deadline, Landed, 7, true, [7])]
  {
    var sent := Step(cfg, s, Send(CallId(n)));
    assert sent.comments == s.comments + [Comment(SomeScope, deadline, InFlight, 7, true, [7])];
    assert OnlyCall(s, sent, n) && UnboundRow(sent, Executing);
  }

  /** A call that found nothing opens its write, sends its create, and the create lands in time. */
  lemma WriteSteps(cfg: Config, before: seq<Event>, n: nat) returns (events: seq<Event>)
    requires cfg.settlement > 0 && 1 <= n <= 3
    requires
      var s := RunEvents(cfg, EmptySys, before);
      Owned(s) && UnboundRow(s, Reconciling) && At(s, n, MarkingReady)
    ensures
      var s := RunEvents(cfg, EmptySys, before);
      var after := RunEvents(cfg, EmptySys, events);
      && OnlyCall(s, after, n) && UnboundRow(after, Executing)
      && after.comments == s.comments + [Comment(SomeScope, cfg.settlement, Landed, 7, true, [7])]
  {
    events := OpenWrite(cfg, before, n);
    var writing := RunEvents(cfg, EmptySys, events);
    SendAndLand(cfg, writing, n, cfg.settlement);
    events := Extend(cfg, events, Send(CallId(n)));
    events := Extend(cfg, events, Land(|writing.comments|));
  }

  lemma OpenWrite(cfg: Config, before: seq<Event>, n: nat) returns (events: seq<Event>)
    requires cfg.settlement > 0 && 1 <= n <= 3
    requires
      var s := RunEvents(cfg, EmptySys, before);
      Owned(s) && UnboundRow(s, Reconciling) && At(s, n, MarkingReady)
    ensures
      var s := RunEvents(cfg, EmptySys, before);
      var after := RunEvents(cfg, EmptySys, events);
      && OnlyCall(s, after, n) && UnboundRow(after, Executing) && At(after, n, Writing)
      && after.comments == s.comments
      && after.calls[CallId(n)].action.value.reconcileNotBefore == Some(cfg.settlement)
  {
    MarksReady(cfg, RunEvents(cfg, EmptySys, before), n);
    events := Extend(cfg, before, Advance(CallId(n)));
    StartsWrite(cfg, RunEvents(cfg, EmptySys, events), n);
    events := Extend(cfg, events, Advance(CallId(n)));
  }

  /** Two tasks search and find nothing; the second opens its write while the first still trusts its search. */
  lemma BothFindNothing(cfg: Config) returns (events: seq<Event>)
    requires !cfg.exclusive
    ensures
      var s := RunEvents(cfg, EmptySys, events);
      && Owned(s) && UnboundRow(s, Reconciling) && At(s, 1, MarkingReady) && At(s, 2, MarkingReady)
      && CallId(3) !in s.calls && s.comments == []
  {
    events := FirstFindsNothing(cfg);
    var found := RunEvents(cfg, EmptySys, events);
    StartStep(cfg, found, 2);
    events := Extend(cfg, events, StartOf(2));
    ReplayReserve(cfg, RunEvents(cfg, EmptySys, events), 2, Reconciling);
    events := Extend(cfg, events, Advance(CallId(2)));
    SearchStep(cfg, RunEvents(cfg, EmptySys, events), 2);
    events := Extend(cfg, events, ReadComments(CallId(2), ReadOk));
  }

  lemma SearchStep(cfg: Config, s: Sys, n: nat)
    requires Owned(s) && At(s, n, Searching) && s.comments == []
    ensures
      var after := Step(cfg, s, ReadComments(CallId(n), ReadOk));
      OnlyCall(s, after, n) && At(after, n, MarkingReady) && after.ledger == s.ledger && after.comments == []
  {
  }

  lemma FirstReserves(cfg: Config) returns (events: seq<Event>)
    ensures
      var s := RunEvents(cfg, EmptySys, events);
      && OnlyCall(EmptySys.(db := ThreeTasks), s, 1) && s.comments == []
      && UnboundRow(s, Reserved) && At(s, 1, StartingReconciliation)
      && s.ledger.actions[SomeScope].reconcileNotBefore.None?
  {
    events := ThreeTasksRun(cfg);
    StartStep(cfg, RunEvents(cfg, EmptySys, events), 1);
    events := Extend(cfg, events, StartOf(1));
    FirstReserve(cfg, RunEvents(cfg, EmptySys, events), 1);
    events := Extend(cfg, events, Advance(CallId(1)));
  }

  lemma FirstFindsNothing(cfg: Config) returns (events: seq<Event>)
    ensures
      var s := RunEvents(cfg, EmptySys, events);
      && Owned(s) && UnboundRow(s, Reconciling) && At(s, 1, MarkingReady)
      && (forall c | c in s.calls :: c == CallId(1)) && s.comments == []
      && s.ledger.actions[SomeScope].reconcileNotBefore.None?
  {
    events := FirstReserves(cfg);
    FirstFinds(cfg, RunEvents(cfg, EmptySys, events));
    events := Extend(cfg, events, Advance(CallId(1)));
    events := Extend(cfg, events, ReadComments(CallId(1), ReadOk));
  }

  lemma FirstFinds(cfg: Config, s: Sys)
    requires Owned(s) && s.comments == [] && UnboundRow(s, Reserved) && At(s, 1, StartingReconciliation)
    requires s.ledger.actions[SomeScope].reconcileNotBefore.None?
    ensures
      var after := Step(cfg, Step(cfg, s, Advance(CallId(1))), ReadComments(CallId(1), ReadOk));
      && OnlyCall(s, after, 1) && UnboundRow(after, Reconciling) && At(after, 1, MarkingReady) && after.comments == []
      && after.ledger.actions[SomeScope].reconcileNotBefore.None?
  {
    StartsReconciling(cfg, s, 1, Reserved);
    SearchStep(cfg, Step(cfg, s, Advance(CallId(1))), 1);
  }

  /** A call that marks its row ready and then dies leaves the row stuck, with or without exclusivity. */
  lemma ReadyCanBeLeft(cfg: Config) returns (events: seq<Event>)
    ensures
      var s := RunEvents(cfg, EmptySys, events);
      ReadyRow(s, SomeScope) && NobodyStarting(s, SomeScope)
  {
    events := FirstFindsNothing(cfg);
    MarksReady(cfg, RunEvents(cfg, EmptySys, events), 1);
    events := Extend(cfg, events, Advance(CallId(1)));
    events := Extend(cfg, events, Crash(CallId(1)));
  }

  /** A third task finds the second one's write open and puts the row back to reconciling. */
  lemma ThirdReconciles(cfg: Config, before: seq<Event>) returns (events: seq<Event>)
    requires !cfg.exclusive
    requires
      var s := RunEvents(cfg, EmptySys, before);
      Owned(s) && UnboundRow(s, Executing) && CallId(3) !in s.calls
    ensures
      var s := RunEvents(cfg, EmptySys, before);
      var after := RunEvents(cfg, EmptySys, events);
      OnlyCall(s, after, 3) && UnboundRow(after, Reconciling) && after.comments == s.comments
  {
    StartStep(cfg, RunEvents(cfg, EmptySys, before), 3);
    events := Extend(cfg, before, StartOf(3));
    ReplayReserve(cfg, RunEvents(cfg, EmptySys, events), 3, Executing);
    events := Extend(cfg, events, Advance(CallId(3)));
    StartsReconciling(cfg, RunEvents(cfg, EmptySys, events), 3, Executing);
    events := Extend(cfg, events, Advance(CallId(3)));
  }

  /** Without exclusivity, three live tasks on one scope can create the comment twice, each create on time. */
  lemma LiveTasksCanDuplicate(cfg: Config) returns (events: seq<Event>)
    requires !cfg.exclusive && cfg.settlement > 0
    ensures
      var s := RunEvents(cfg, EmptySys, events);
      && |s.comments| == 2 && s.comments[0].scope == s.comments[1].scope
      && s.comments[0].fate.Landed? && s.comments[1].fate.Landed?
  {
    events := SecondWrites(cfg);
    events := ThirdReconciles(cfg, events);
    events := WriteSteps(cfg, events, 1);
  }

  lemma SecondWrites(cfg: Config) returns (events: seq<Event>)
    requires !cfg.exclusive && cfg.settlement > 0
    ensures
      var s := RunEvents(cfg, EmptySys, events);
      && Owned(s) && UnboundRow(s, Executing) && At(s, 1, MarkingReady) && CallId(3) !in s.calls
      && s.comments == [Comment(SomeScope, cfg.settlement, Landed, 7, true, [7])]
  {
    events := BothFindNothing(cfg);
    events := WriteSteps(cfg, events, 2);
  }

  // ---------------------------------------------------------------- exactly when duplicates are impossible

  ghost predicate NeverTwice(cfg: Config) {
    forall events :: OnePerScope(RunEvents(cfg, EmptySys, events))
  }

  /** With a real settlement delay, duplicates are impossible exactly when one task at a time may drive a scope. */
  lemma ExclusivityIsExact(cfg: Config)
    requires cfg.settlement > 0
    ensures NeverTwice(cfg) <==> cfg.exclusive
  {
    if cfg.exclusive {
      forall events ensures OnePerScope(RunEvents(cfg, EmptySys, events)) {
        ExclusiveRunsAreFresh(cfg, EmptySys, events);
        FreshMarksMeanOneComment(cfg, events);
      }
    } else {
      var events := LiveTasksCanDuplicate(cfg);
      assert !OnePerScope(RunEvents(cfg, EmptySys, events));
    }
  }
}
