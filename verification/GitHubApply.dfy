/**
 The GitHub comment as a state machine: reserve, reconcile, and create or update. Every await is one event; calls
 may be abandoned between events; create requests may land late. Two assumptions are explicit guards:
   - a create request takes effect before its write's settlement deadline or never (Land);
   - with `exclusive` set, a task reserves a scope only while no call of another task on it still holds an active
     fence (Reserving).
 Clock readings are those of one clock that never goes back (Tick).
 */
module GitHubApply {
  import opened Wrappers
  import opened TaskStore
  import opened ActionLedger
  import opened ProviderHttp

  datatype CallId = CallId(number: nat)

  /** Confirmed by this call's own evidence; Replayed when the row was already succeeded. */
  datatype Result = Confirmed | Replayed | Review | Raised

  datatype Pc =
    | Reserving
    | CheckingBound
    | Revising
    | StartingReconciliation
    | ReadingBound
    | HoldingOff
    | Searching
    | FailingRead
    | SendingToReview(mismatch: bool)
    | Adopting(comment: Resource)
    | MarkingReady
    | StartingWrite
    | Writing
    | AwaitingReply
    | Recording(outcome: WriteOutcome)
    | Ended(result: Result)
    | Abandoned

  /** `action` is the call's own copy of the row; `request` the create or update request it sent. */
  datatype Call = Call(
    fence: ExecutionFence, scope: Scope, desired: Fingerprint, snapshot: Fingerprint, mayUpdate: bool, pc: Pc,
    action: Option<Action>, request: nat)

  /** A request in flight past its deadline will never land. */
  datatype Fate = InFlight | Landed

  /**
   One create request and, once landed, the comment. `marked` says it exists and still carries its marker; `held` are
   all the contents it was ever given, the present ones last.
   */
  datatype Comment = Comment(
    scope: Scope, deadline: Time, fate: Fate, body: Fingerprint, marked: bool, held: seq<Fingerprint>)

  /** One update request; it takes effect at any later time, or never. */
  datatype Update = Update(comment: nat, body: Fingerprint, fate: Fate)

  datatype Sys = Sys(
    db: Db, ledger: Ledger, clock: Time, calls: map<CallId, Call>, comments: seq<Comment>, updates: seq<Update>)

  datatype Config = Config(
    settlement: Time, exclusive: bool, goodUrl: string -> bool, goodTime: string -> bool,
    maximumBytes: nat, maximumRetry: real)

  datatype Read = ReadOk | ReadRetryable | ReadIncomplete | ReadRejected

  datatype Event =
    | Tick(now: Time)
    | StoreStep(txn: Txn)
    | OtherAction(op: LedgerOp)
    | Begin(call: CallId, fence: ExecutionFence, scope: Scope, desired: Fingerprint, snapshot: Fingerprint,
            mayUpdate: bool)
    | Crash(call: CallId)
    | Advance(call: CallId)
    | ReadComments(call: CallId, read: Read)
    | Send(call: CallId)
    | Land(comment: nat)
    | LandUpdate(update: nat)
    | Edit(comment: nat, body: Fingerprint, marked: bool)
    | Answer(call: CallId, exchange: Exchange)

  const EmptySys := Sys(EmptyDb, EmptyLedger, 0, map[], [], [])

  predicate Foreign(ledger: Ledger, op: LedgerOp) {
    if op.ReserveOp? then !op.provider.GitHub?
    else op.scope in ledger.actions && !ledger.actions[op.scope].provider.GitHub?
  }

  /** Past its reservation and still able to act. */
  predicate Live(call: Call) { !call.pc.Reserving? && !call.pc.Ended? && !call.pc.Abandoned? }

  predicate Holds(s: Sys, c: CallId)
    requires c in s.calls
  {
    ActiveFence(s.db, s.calls[c].fence, s.clock)
  }

  predicate Driver(s: Sys, c: CallId) { c in s.calls && Live(s.calls[c]) && Holds(s, c) }

  /** No call of another task still drives the scope. */
  predicate NoRival(s: Sys, c: CallId)
    requires c in s.calls
  {
    forall d | d in s.calls && s.calls[d].scope == s.calls[c].scope
               && s.calls[d].fence.taskId != s.calls[c].fence.taskId :: !Driver(s, d)
  }

  predicate Bound(s: Sys, i: nat) {
    && i < |s.comments|
    && s.comments[i].scope in s.ledger.actions
    && s.ledger.actions[s.comments[i].scope].resource == Some(i)
  }

  /** The marker search of a scope finds exactly these. */
  predicate Visible(s: Sys, scope: Scope, i: nat) {
    i < |s.comments| && s.comments[i].scope == scope && s.comments[i].fate.Landed? && s.comments[i].marked
  }

  // ---------------------------------------------------------------- decisions

  function AfterStart(a: Action): Pc {
    if a.resource.Some? then ReadingBound else if a.reconcileNotBefore.Some? then HoldingOff else Searching
  }

  function Reconcile(a: Action): Pc {
    if a.status.Reconciling? || a.status.ReadyToExecute? then AfterStart(a) else StartingReconciliation
  }

  function Dispatch(kind: ReservationKind, a: Action, mayUpdate: bool): Pc {
    match kind
    case SourceDrift => Ended(Review)
    case Changed =>
      if !mayUpdate || !a.status.ActionSucceeded? || a.resource.None? then Ended(Review) else CheckingBound
    case Replay =>
      if a.status.ActionSucceeded? then Ended(Replayed)
      else if a.status.NeedsHumanReview? || a.status.PermanentFailure? then Ended(Review)
      else Reconcile(a)
    case Created => Reconcile(a)
  }

  /** What to do with the one comment that carries the marker. */
  function Found(call: Call, a: Action, i: Resource, body: Fingerprint): Pc {
    if body == call.desired then Adopting(i)
    else if a.revision > 1 && a.applied.Some? && a.applied.value != call.desired then MarkingReady
    else SendingToReview(true)
  }

  const StartMove :=
    Plain({Reserved, RetryableFailure, OutcomeUnknown, Executing}, Reconciling, "reconciliation_started", None)

  const FailReadMove :=
    Plain({Reconciling}, RetryableFailure, "reconciliation_retryable_failure", Some("provider_read_retryable"))

  /** `mismatch` is the transition for a matching comment with other contents. */
  function ReviewMove(mismatch: bool): Move {
    Plain({Reconciling}, NeedsHumanReview,
          if mismatch then "reconciled_content_mismatch" else "reconciliation_needs_human_review",
          Some("reconciliation_inconclusive"))
  }

  const ReadyMove := Plain({Reconciling}, ReadyToExecute, "reconciliation_completed_no_match", None)

  function WriteMove(cfg: Config): Move {
    Move({ReadyToExecute}, Executing, "write_started", false, false, None, None, Some(cfg.settlement), None)
  }

  function SuccessMove(call: Call, i: Resource, expected: ActionStatus, name: string): Move {
    Move({expected}, ActionSucceeded, name, false, false, Some(Evidence(i, None, i, call.desired)), None, None, None)
  }

  function OutcomeMove(call: Call, outcome: WriteOutcome): Move {
    match outcome
    case Written(i) => SuccessMove(call, i, Executing, "write_succeeded")
    case WriteRetryable(_) =>
      Plain({Executing}, RetryableFailure, "write_retryable_failure", Some("github_rate_limited"))
    case WritePermanent =>
      Plain({Executing}, PermanentFailure, "write_permanent_failure", Some("github_write_rejected"))
    case _ => Plain({Executing}, OutcomeUnknown, "write_outcome_unknown", Some("github_write_outcome_unknown"))
  }

  // ---------------------------------------------------------------- events

  function Goto(s: Sys, c: CallId, pc: Pc): Sys
    requires c in s.calls
  {
    s.(calls := s.calls[c := s.calls[c].(pc := pc)])
  }

  function Took(s: Sys, c: CallId, ledger: Ledger, row: Action, pc: Pc): Sys
    requires c in s.calls
  {
    s.(ledger := ledger, calls := s.calls[c := s.calls[c].(pc := pc, action := Some(row))])
  }

  function MoveTo(s: Sys, c: CallId, m: Move, pc: Pc): Sys
    requires c in s.calls
  {
    var call := s.calls[c];
    var (ledger, reply) := Transition(s.db, s.ledger, call.fence, call.scope, m, s.clock);
    if reply.Done? then Took(s, c, ledger, reply.action, pc) else Goto(s, c, Abandoned)
  }

  function ReserveCall(cfg: Config, s: Sys, c: CallId): Sys
    requires c in s.calls
  {
    var call := s.calls[c];
    var (ledger, reply) :=
      Reserve(s.db, s.ledger, call.fence, GitHub, UpsertComment, call.scope, call.desired, call.snapshot, s.clock);
    if cfg.exclusive && !NoRival(s, c) then s
    else if reply.Done? then Took(s, c, ledger, reply.action, Dispatch(reply.kind, reply.action, call.mayUpdate))
    else Goto(s, c, Abandoned)
  }

  function ReviseCall(s: Sys, c: CallId): Sys
    requires c in s.calls && s.calls[c].action.Some?
  {
    var call := s.calls[c];
    var (ledger, reply) := Revise(s.db, s.ledger, call.fence, call.scope, call.action.value.revision,
                                  call.desired, call.snapshot, s.clock);
    if reply.Done? then Took(s, c, ledger, reply.action, Reconcile(reply.action)) else Goto(s, c, Abandoned)
  }

  /** Reconciliation goes on with the row that its opening transition returned. */
  function StartCall(s: Sys, c: CallId): Sys
    requires c in s.calls
  {
    var call := s.calls[c];
    var (ledger, reply) := Transition(s.db, s.ledger, call.fence, call.scope, StartMove, s.clock);
    if reply.Done? then Took(s, c, ledger, reply.action, AfterStart(reply.action)) else Goto(s, c, Abandoned)
  }

  function AdvanceCall(cfg: Config, s: Sys, c: CallId): Sys
    requires c in s.calls
  {
    var call := s.calls[c];
    if call.pc.Reserving? then ReserveCall(cfg, s, c)
    else if call.action.None? then s
    else
      match call.pc
      case Revising => ReviseCall(s, c)
      case StartingReconciliation => StartCall(s, c)
      case HoldingOff =>
        var notBefore :=
          if call.scope in s.ledger.actions then s.ledger.actions[call.scope].reconcileNotBefore else None;
        Goto(s, c, if notBefore.Some? && notBefore.value > s.clock then FailingRead else Searching)
      case FailingRead => MoveTo(s, c, FailReadMove, Ended(Raised))
      case SendingToReview(mismatch) => MoveTo(s, c, ReviewMove(mismatch), Ended(Review))
      case Adopting(i) => MoveTo(s, c, SuccessMove(call, i, Reconciling, "reconciled_succeeded"), Ended(Confirmed))
      case MarkingReady => MoveTo(s, c, ReadyMove, StartingWrite)
      case StartingWrite => MoveTo(s, c, WriteMove(cfg), Writing)
      case Recording(outcome) =>
        MoveTo(s, c, OutcomeMove(call, outcome), Ended(if outcome.Written? then Confirmed else Raised))
      case _ => s
  }

  /** The reads of the provider: the bound comment, or the marker search. */
  ghost function ReadCall(s: Sys, c: CallId, read: Read): Sys
    requires c in s.calls && s.calls[c].action.Some?
  {
    var call := s.calls[c];
    var a := call.action.value;
    match call.pc
    case CheckingBound =>
      if !read.ReadOk? then Goto(s, c, Abandoned)
      else if a.resource.Some? && 0 <= a.resource.value < |s.comments| && s.comments[a.resource.value].marked then
        Goto(s, c, Revising)
      else Goto(s, c, Ended(Review))
    case ReadingBound =>
      if read.ReadRetryable? then Goto(s, c, FailingRead)
      else if !read.ReadOk? then Goto(s, c, Abandoned)
      else if a.resource.Some? && 0 <= a.resource.value < |s.comments| && s.comments[a.resource.value].marked then
        Goto(s, c, Found(call, a, a.resource.value, s.comments[a.resource.value].body))
      else Goto(s, c, SendingToReview(false))
    case Searching =>
      if read.ReadRetryable? then Goto(s, c, FailingRead)
      else if read.ReadIncomplete? then Goto(s, c, SendingToReview(false))
      else if read.ReadRejected? then Goto(s, c, Abandoned)
      else if exists i: nat :: Visible(s, call.scope, i) then
        var i: nat :| Visible(s, call.scope, i);
        if exists j: nat :: j != i && Visible(s, call.scope, j) then Goto(s, c, SendingToReview(false))
        else Goto(s, c, Found(call, a, i, s.comments[i].body))
      else Goto(s, c, MarkingReady)
    case _ => s
  }

  /** A create goes out with the deadline of the write this call started; an update names the bound comment. */
  function SendCall(s: Sys, c: CallId): Sys
    requires c in s.calls && s.calls[c].pc.Writing? && s.calls[c].action.Some?
  {
    var call := s.calls[c];
    var a := call.action.value;
    if a.resource.Some? then
      if a.resource.value < 0 then s
      else
        s.(updates := s.updates + [Update(a.resource.value, call.desired, InFlight)],
        calls := s.calls[c := call.(pc := AwaitingReply, request := |s.updates|)])
    else if a.reconcileNotBefore.Some? then
      var request := Comment(call.scope, a.reconcileNotBefore.value, InFlight, call.desired, true, [call.desired]);
      s.(comments := s.comments + [request], calls := s.calls[c := call.(pc := AwaitingReply, request := |s.comments|)])
    else s
  }

  /** A comment with new contents. */
  function Rewritten(m: Comment, body: Fingerprint, marked: bool): Comment {
    m.(body := body, marked := marked, held := m.held + [body])
  }

  /** A confirmed write has taken effect, and names the comment it made or changed; refusals mean nothing. */
  predicate Confirms(s: Sys, call: Call, comment: int)
    requires call.action.Some?
  {
    if call.action.value.resource.Some? then
      && comment == call.action.value.resource.value
      && call.request < |s.updates| && s.updates[call.request].fate.Landed?
    else comment == call.request && call.request < |s.comments| && s.comments[call.request].fate.Landed?
  }

  function AnswerCall(cfg: Config, s: Sys, c: CallId, e: Exchange): Sys
    requires c in s.calls && s.calls[c].action.Some?
  {
    var call := s.calls[c];
    var outcome := GitHubWrite(e, cfg.goodUrl, cfg.goodTime, cfg.maximumBytes, cfg.maximumRetry);
    if !call.pc.AwaitingReply? || (outcome.Written? && !Confirms(s, call, outcome.comment)) then s
    else Goto(s, c, if outcome.WriteUncaught? then Abandoned else Recording(outcome))
  }

  ghost function Step(cfg: Config, s: Sys, ev: Event): Sys {
    match ev
    case Tick(now) => if now >= s.clock then s.(clock := now) else s
    case StoreStep(txn) => if txn.now == s.clock then s.(db := Apply(s.db, txn)) else s
    case OtherAction(op) => if Foreign(s.ledger, op) then s.(ledger := Perform(s.db, s.ledger, op).0) else s
    case Begin(c, fence, scope, desired, snapshot, mayUpdate) =>
      if c in s.calls || fence.Key() !in s.db.attempts
         || (exists d :: d in s.calls && s.calls[d].fence.Key() == fence.Key())
      then s
      else s.(calls := s.calls[c := Call(fence, scope, desired, snapshot, mayUpdate, Reserving, None, 0)])
    case Crash(c) => if c in s.calls then Goto(s, c, Abandoned) else s
    case Advance(c) => if c in s.calls then AdvanceCall(cfg, s, c) else s
    case ReadComments(c, read) => if c in s.calls && s.calls[c].action.Some? then ReadCall(s, c, read) else s
    case Send(c) => if c in s.calls && s.calls[c].pc.Writing? && s.calls[c].action.Some? then SendCall(s, c) else s
    case Land(i) =>
      if i < |s.comments| && s.comments[i].fate.InFlight? && s.clock < s.comments[i].deadline then
        s.(comments := s.comments[i := s.comments[i].(fate := Landed)])
      else s
    case LandUpdate(u) =>
      if u < |s.updates| && s.updates[u].fate.InFlight? && s.updates[u].comment < |s.comments|
         && s.comments[s.updates[u].comment].fate.Landed? then
        s.(updates := s.updates[u := s.updates[u].(fate := Landed)],
        comments := s.comments[s.updates[u].comment :=
                                 Rewritten(s.comments[s.updates[u].comment], s.updates[u].body, true)])
      else s
    case Edit(i, body, marked) =>
      if i < |s.comments| && s.comments[i].fate.Landed? && (marked || Bound(s, i)) then
        s.(comments := s.comments[i := Rewritten(s.comments[i], body, marked)])
      else s
    case Answer(c, e) => if c in s.calls && s.calls[c].action.Some? then AnswerCall(cfg, s, c, e) else s
  }

  /** The row is still the one that the call last wrote, whenever its mark "no match" would be accepted. */
  ghost predicate MarksFresh(s: Sys, ev: Event) {
    ev.Advance? && ev.call in s.calls && s.calls[ev.call].pc.MarkingReady? && s.calls[ev.call].action.Some?
    && Holds(s, ev.call) && s.calls[ev.call].scope in s.ledger.actions
    && s.ledger.actions[s.calls[ev.call].scope].status in ReadyMove.expected ==>
      s.ledger.actions[s.calls[ev.call].scope] == s.calls[ev.call].action.value
  }

  ghost predicate FreshRun(cfg: Config, s: Sys, events: seq<Event>)
    decreases |events|
  {
    events == [] || (MarksFresh(s, events[0]) && FreshRun(cfg, Step(cfg, s, events[0]), events[1..]))
  }

  ghost function RunEvents(cfg: Config, s: Sys, events: seq<Event>): Sys
    decreases |events|
  {
    if events == [] then s else RunEvents(cfg, Step(cfg, s, events[0]), events[1..])
  }
}
