/**
 What a confirmed comment says. In every run, fresh or not, a call that confirms by its own evidence names a landed
 comment of its scope that was given the contents the call asked for; with one task at a time on a scope the same
 holds of a call that only replays what another call had done.
 */
module GitHubContents {
  import opened Wrappers
  import opened TaskDomain
  import opened TaskStore
  import opened TaskInvariants
  import opened ActionLedger
  import opened ProviderHttp
  import opened GitHubApply
  import opened GitHubInvariant
  import opened GitHubExclusive
  import opened GitHubLimits

  /** The comment has landed on the scope, and at some time had these contents. */
  predicate Had(s: Sys, scope: Scope, i: Resource, body: Fingerprint) {
    LandedHere(s, scope, i) && body in s.comments[i].held
  }

  predicate RowSeen(s: Sys, scope: Scope)
    requires scope in s.ledger.actions
  {
    var a := s.ledger.actions[scope];
    a.provider.GitHub? ==>
      && (a.resource.Some? ==> LandedHere(s, scope, a.resource.value))
      && (a.status.ActionSucceeded? ==>
            a.resource.Some? && a.applied.Some? && Had(s, scope, a.resource.value, a.applied.value))
  }

  /** The request that a waiting call sent is for what it asked, on its scope. */
  predicate Requested(s: Sys, call: Call)
    requires call.action.Some?
  {
    match call.action.value.resource
    case Some(i) =>
      call.request < |s.updates| && s.updates[call.request].comment == i && s.updates[call.request].body == call.desired
    case None =>
      && call.request < |s.comments| && s.comments[call.request].scope == call.scope
      && call.desired in s.comments[call.request].held
  }

  predicate CallSeen(s: Sys, c: CallId)
    requires c in s.calls
  {
    var call := s.calls[c];
    && (Live(call) ==>
          && call.action.Some? && GitHubRow(s, call.scope)
          && (call.action.value.resource.Some? ==> LandedHere(s, call.scope, call.action.value.resource.value)))
    && (call.pc.Adopting? ==> Had(s, call.scope, call.pc.comment, call.desired))
    && (call.pc.AwaitingReply? && call.action.Some? ==> Requested(s, call))
    && (call.pc.Recording? && call.pc.outcome.Written? ==> Had(s, call.scope, call.pc.outcome.comment, call.desired))
    && (call.pc == Ended(Confirmed) ==>
          && call.action.Some? && call.action.value.resource.Some?
          && call.action.value.applied == Some(call.desired)
          && Had(s, call.scope, call.action.value.resource.value, call.desired))
    && (call.pc == Ended(Replayed) ==>
          && call.action.Some? && call.action.value.resource.Some? && call.action.value.applied.Some?
          && Had(s, call.scope, call.action.value.resource.value, call.action.value.applied.value))
  }

  predicate CommentSeen(s: Sys, i: nat)
    requires i < |s.comments|
  {
    GitHubRow(s, s.comments[i].scope) && s.comments[i].body in s.comments[i].held
  }

  predicate UpdateSeen(s: Sys, u: nat)
    requires u < |s.updates|
  {
    s.updates[u].fate.Landed? ==>
      s.updates[u].comment < |s.comments| && s.updates[u].body in s.comments[s.updates[u].comment].held
  }

  ghost predicate Seen(s: Sys) {
    && (forall o | o in s.ledger.actions :: RowSeen(s, o))
    && (forall i: nat {:trigger CommentSeen(s, i)} | i < |s.comments| :: CommentSeen(s, i))
    && (forall u: nat {:trigger UpdateSeen(s, u)} | u < |s.updates| :: UpdateSeen(s, u))
    && (forall c | c in s.calls :: CallSeen(s, c))
  }

  // ---------------------------------------------------------------- frames

  /** Comments and updates only gain: contents are remembered, what has landed stays. */
  ghost predicate Gains(s: Sys, after: Sys) {
    && |s.comments| <= |after.comments| && |s.updates| <= |after.updates|
    && (forall i: nat | i < |s.comments| ::
          && after.comments[i].scope == s.comments[i].scope
          && (s.comments[i].fate.Landed? ==> after.comments[i].fate.Landed?)
          && (forall x | x in s.comments[i].held :: x in after.comments[i].held))
    && (forall u: nat | u < |s.updates| ::
          && after.updates[u].comment == s.updates[u].comment && after.updates[u].body == s.updates[u].body)
  }

  lemma RowGains(s: Sys, after: Sys, scope: Scope)
    requires Gains(s, after) && scope in s.ledger.actions && RowSeen(s, scope)
    requires scope in after.ledger.actions && after.ledger.actions[scope] == s.ledger.actions[scope]
    ensures RowSeen(after, scope)
  {
  }

  lemma CallGains(s: Sys, after: Sys, c: CallId)
    requires Gains(s, after) && c in s.calls && CallSeen(s, c)
    requires c in after.calls && after.calls[c] == s.calls[c]
    requires GitHubRow(s, s.calls[c].scope) ==> GitHubRow(after, s.calls[c].scope)
    ensures CallSeen(after, c)
  {
  }

  lemma RowsGain(s: Sys, after: Sys)
    requires Gains(s, after) && after.ledger == s.ledger && forall o | o in s.ledger.actions :: RowSeen(s, o)
    ensures forall o | o in after.ledger.actions :: RowSeen(after, o)
  {
    forall o | o in after.ledger.actions ensures RowSeen(after, o) { RowGains(s, after, o); }
  }

  lemma CallsGain(s: Sys, after: Sys)
    requires Gains(s, after) && forall c | c in s.calls :: CallSeen(s, c)
    requires forall o | GitHubRow(s, o) :: GitHubRow(after, o)
    ensures forall c | c in s.calls && c in after.calls && after.calls[c] == s.calls[c] :: CallSeen(after, c)
  {
    forall c | c in s.calls && c in after.calls && after.calls[c] == s.calls[c] ensures CallSeen(after, c) {
      assert CallSeen(s, c);
      CallGains(s, after, c);
    }
  }

  /** Nothing is requested or landed. */
  lemma ProviderRests(s: Sys, after: Sys)
    requires Seen(s) && after.comments == s.comments && after.updates == s.updates
    requires forall o | GitHubRow(s, o) :: GitHubRow(after, o)
    ensures Gains(s, after)
    ensures forall i: nat | i < |after.comments| :: CommentSeen(after, i)
    ensures forall u: nat | u < |after.updates| :: UpdateSeen(after, u)
  {
    forall i: nat | i < |after.comments| ensures CommentSeen(after, i) { assert CommentSeen(s, i); }
    forall u: nat | u < |after.updates| ensures UpdateSeen(after, u) { assert UpdateSeen(s, u); }
  }

  // ---------------------------------------------------------------- events

  /** One call moves, or begins, without a write of the ledger. */
  lemma CallMovesSeen(s: Sys, c: CallId, call: Call)
    requires Seen(s) && CallSeen(s.(calls := s.calls[c := call]), c)
    ensures Seen(s.(calls := s.calls[c := call]))
  {
    var after := s.(calls := s.calls[c := call]);
    ProviderRests(s, after);
    RowsGain(s, after);
    CallsGain(s, after);
  }

  lemma GotoSeen(s: Sys, c: CallId, pc: Pc)
    requires Seen(s) && c in s.calls
    requires pc.Abandoned? || pc == Ended(Review) || pc == Ended(Raised) || Live(s.calls[c])
    requires !pc.Adopting? && !pc.AwaitingReply? && !pc.Recording? && pc != Ended(Confirmed) && pc != Ended(Replayed)
    ensures Seen(Goto(s, c, pc))
  {
    assert CallSeen(s, c);
    GotoCallSeen(s, c, pc);
    CallMovesSeen(s, c, s.calls[c].(pc := pc));
  }

  lemma GotoCallSeen(s: Sys, c: CallId, pc: Pc)
    requires c in s.calls && CallSeen(s, c)
    requires pc.Abandoned? || pc == Ended(Review) || pc == Ended(Raised) || Live(s.calls[c])
    requires !pc.Adopting? && !pc.AwaitingReply? && !pc.Recording? && pc != Ended(Confirmed) && pc != Ended(Replayed)
    ensures CallSeen(Goto(s, c, pc), c)
  {
  }

  /** What a write must show: the new row, and the point the writer goes to. */
  lemma TookSeen(s: Sys, c: CallId, ledger: Ledger, row: Action, pc: Pc)
    requires Seen(s) && c in s.calls && row.provider.GitHub?
    requires ledger.actions == s.ledger.actions[s.calls[c].scope := row]
    requires RowSeen(Took(s, c, ledger, row, pc), s.calls[c].scope) && CallSeen(Took(s, c, ledger, row, pc), c)
    ensures Seen(Took(s, c, ledger, row, pc))
  {
    var after := Took(s, c, ledger, row, pc);
    ProviderRests(s, after);
    CallsGain(s, after);
    forall o | o in after.ledger.actions && o != s.calls[c].scope ensures RowSeen(after, o) { RowGains(s, after, o); }
  }

  /** Points that promise nothing about contents. */
  predicate Silent(pc: Pc) {
    !pc.Adopting? && !pc.AwaitingReply? && !pc.Recording? && pc != Ended(Confirmed) && pc != Ended(Replayed)
  }

  lemma QuietTookSeen(s: Sys, c: CallId, ledger: Ledger, row: Action, pc: Pc)
    requires Seen(s) && c in s.calls && row.provider.GitHub? && Silent(pc)
    requires ledger.actions == s.ledger.actions[s.calls[c].scope := row]
    requires row.resource.Some? ==> LandedHere(s, s.calls[c].scope, row.resource.value)
    requires row.status.ActionSucceeded? ==>
               && row.resource.Some? && row.applied.Some?
               && Had(s, s.calls[c].scope, row.resource.value, row.applied.value)
    ensures Seen(Took(s, c, ledger, row, pc))
  {
    TookSeen(s, c, ledger, row, pc);
  }

  lemma ReserveSeen(cfg: Config, s: Sys, c: CallId)
    requires Seen(s) && c in s.calls
    ensures Seen(ReserveCall(cfg, s, c))
  {
    var call := s.calls[c];
    var (ledger, reply) :=
      Reserve(s.db, s.ledger, call.fence, GitHub, UpsertComment, call.scope, call.desired, call.snapshot, s.clock);
    if reply.Done? {
      if call.scope in s.ledger.actions { assert RowSeen(s, call.scope); }
      var pc := Dispatch(reply.kind, reply.action, call.mayUpdate);
      if Silent(pc) {
        QuietTookSeen(s, c, ledger, reply.action, pc);
      } else {
        assert pc == Ended(Replayed) && reply.action.status.ActionSucceeded?;
        TookSeen(s, c, ledger, reply.action, pc);
      }
    } else {
      GotoSeen(s, c, Abandoned);
    }
  }

  lemma ReviseSeen(s: Sys, c: CallId)
    requires Seen(s) && c in s.calls && Live(s.calls[c]) && s.calls[c].action.Some?
    ensures Seen(ReviseCall(s, c))
  {
    var call := s.calls[c];
    var (ledger, reply) := Revise(s.db, s.ledger, call.fence, call.scope, call.action.value.revision,
                                  call.desired, call.snapshot, s.clock);
    assert CallSeen(s, c);
    if reply.Done? {
      assert RowSeen(s, call.scope);
      QuietTookSeen(s, c, ledger, reply.action, Reconcile(reply.action));
    } else {
      GotoSeen(s, c, Abandoned);
    }
  }

  /** A transition that records no success leaves the evidence of the row as it is. */
  lemma MoveSeen(s: Sys, c: CallId, m: Move, pc: Pc)
    requires Seen(s) && c in s.calls && Live(s.calls[c]) && Silent(pc)
    requires !m.status.ActionSucceeded? && m.evidence.None?
    ensures Seen(MoveTo(s, c, m, pc))
  {
    var call := s.calls[c];
    var (ledger, reply) := Transition(s.db, s.ledger, call.fence, call.scope, m, s.clock);
    assert CallSeen(s, c);
    if reply.Done? {
      assert RowSeen(s, call.scope);
      QuietTookSeen(s, c, ledger, reply.action, pc);
    } else {
      GotoSeen(s, c, Abandoned);
    }
  }

  /** Recording success on a comment that had the contents the call asked for. */
  lemma SuccessSeen(s: Sys, c: CallId, i: Resource, expected: ActionStatus, name: string)
    requires Seen(s) && c in s.calls && Live(s.calls[c]) && Had(s, s.calls[c].scope, i, s.calls[c].desired)
    ensures Seen(MoveTo(s, c, SuccessMove(s.calls[c], i, expected, name), Ended(Confirmed)))
  {
    var call := s.calls[c];
    var m := SuccessMove(call, i, expected, name);
    var (ledger, reply) := Transition(s.db, s.ledger, call.fence, call.scope, m, s.clock);
    assert CallSeen(s, c);
    if reply.Done? {
      TookSeen(s, c, ledger, reply.action, Ended(Confirmed));
    } else {
      GotoSeen(s, c, Abandoned);
    }
  }

  lemma RecordSeen(s: Sys, c: CallId, outcome: WriteOutcome)
    requires Seen(s) && c in s.calls && s.calls[c].pc == Recording(outcome)
    ensures
      var end := Ended(if outcome.Written? then Confirmed else Raised);
      Seen(MoveTo(s, c, OutcomeMove(s.calls[c], outcome), end))
  {
    assert CallSeen(s, c);
    if outcome.Written? {
      SuccessSeen(s, c, outcome.comment, Executing, "write_succeeded");
    } else {
      MoveSeen(s, c, OutcomeMove(s.calls[c], outcome), Ended(Raised));
    }
  }

  lemma AdvanceSeen(cfg: Config, s: Sys, c: CallId)
    requires Seen(s) && c in s.calls
    ensures Seen(AdvanceCall(cfg, s, c))
  {
    var call := s.calls[c];
    assert CallSeen(s, c);
    if call.pc.Reserving? {
      ReserveSeen(cfg, s, c);
    } else if call.action.Some? {
      match call.pc
      case Revising => ReviseSeen(s, c);
      case StartingReconciliation =>
        StartIsMove(s, c);
        MoveSeen(s, c, StartMove, StartPc(s, call.scope));
      case HoldingOff => GotoSeen(s, c, AdvanceCall(cfg, s, c).calls[c].pc);
      case FailingRead => MoveSeen(s, c, FailReadMove, Ended(Raised));
      case SendingToReview(mismatch) => MoveSeen(s, c, ReviewMove(mismatch), Ended(Review));
      case Adopting(i) => SuccessSeen(s, c, i, Reconciling, "reconciled_succeeded");
      case MarkingReady => MoveSeen(s, c, ReadyMove, StartingWrite);
      case StartingWrite => MoveSeen(s, c, WriteMove(cfg), Writing);
      case Recording(outcome) => RecordSeen(s, c, outcome);
      case _ =>
    }
  }

  /** A comment is adopted only for contents it has as it is read. */
  lemma FoundSeen(s: Sys, c: CallId, i: Resource)
    requires Seen(s) && c in s.calls && Live(s.calls[c]) && s.calls[c].action.Some?
    requires LandedHere(s, s.calls[c].scope, i)
    ensures Seen(Goto(s, c, Found(s.calls[c], s.calls[c].action.value, i, s.comments[i].body)))
  {
    var call := s.calls[c];
    var pc := Found(call, call.action.value, i, s.comments[i].body);
    assert CallSeen(s, c) && CommentSeen(s, i);
    if pc.Adopting? {
      CallMovesSeen(s, c, call.(pc := pc));
    } else {
      GotoSeen(s, c, pc);
    }
  }

  lemma ReadSeen(s: Sys, c: CallId, read: Read)
    requires Seen(s) && c in s.calls && s.calls[c].action.Some?
    ensures Seen(ReadCall(s, c, read))
  {
    var call := s.calls[c];
    var after := ReadCall(s, c, read);
    assert CallSeen(s, c);
    if call.pc.ReadingBound? && call.action.value.resource.Some? { FoundSeen(s, c, call.action.value.resource.value); }
    if call.pc.Searching? {
      forall i: nat | Visible(s, call.scope, i)
        ensures Seen(Goto(s, c, Found(call, call.action.value, i, s.comments[i].body)))
      {
        FoundSeen(s, c, i);
      }
    }
    ReadGoes(s, c, read);
    if after.calls[c].pc != call.pc && Silent(after.calls[c].pc) && Live(call) { GotoSeen(s, c, after.calls[c].pc); }
  }

  /** A read moves its call to a point that promises nothing, to what it found, or nowhere. */
  lemma ReadGoes(s: Sys, c: CallId, read: Read)
    requires c in s.calls && s.calls[c].action.Some?
    ensures
      var call := s.calls[c];
      var after := ReadCall(s, c, read);
      && c in after.calls && after == Goto(s, c, after.calls[c].pc)
      && (|| after == s
          || (Live(call) && after.calls[c].pc != call.pc && Silent(after.calls[c].pc))
          || (call.pc.ReadingBound? && call.action.value.resource.Some?
              && var i := call.action.value.resource.value;
              0 <= i < |s.comments| && after.calls[c].pc == Found(call, call.action.value, i, s.comments[i].body))
          || (call.pc.Searching?
              && exists i: nat ::
                (Visible(s, call.scope, i)
                 && after.calls[c].pc == Found(call, call.action.value, i, s.comments[i].body))))
  {
  }

  lemma SendSeen(s: Sys, c: CallId)
    requires Seen(s) && c in s.calls && s.calls[c].pc.Writing? && s.calls[c].action.Some?
    ensures Seen(SendCall(s, c))
  {
    var after := SendCall(s, c);
    assert CallSeen(s, c);
    assert Gains(s, after);
    RowsGain(s, after);
    CallsGain(s, after);
    forall i: nat | i < |after.comments| ensures CommentSeen(after, i) {
      if i < |s.comments| { assert CommentSeen(s, i); }
    }
    forall u: nat | u < |after.updates| ensures UpdateSeen(after, u) {
      if u < |s.updates| { assert UpdateSeen(s, u); }
    }
  }

  lemma AnswerSeen(cfg: Config, s: Sys, c: CallId, e: Exchange)
    requires Seen(s) && c in s.calls && s.calls[c].action.Some?
    ensures Seen(AnswerCall(cfg, s, c, e))
  {
    var call := s.calls[c];
    var after := AnswerCall(cfg, s, c, e);
    assert CallSeen(s, c);
    if after != s {
      if call.action.value.resource.Some? { assert UpdateSeen(s, call.request); }
      AnsweredCallSeen(cfg, s, c, e);
      CallMovesSeen(s, c, after.calls[c]);
    }
  }

  lemma AnsweredCallSeen(cfg: Config, s: Sys, c: CallId, e: Exchange)
    requires c in s.calls && s.calls[c].action.Some? && CallSeen(s, c) && AnswerCall(cfg, s, c, e) != s
    requires s.calls[c].action.value.resource.Some? && s.calls[c].request < |s.updates| ==>
               UpdateSeen(s, s.calls[c].request)
    ensures c in AnswerCall(cfg, s, c, e).calls && CallSeen(AnswerCall(cfg, s, c, e), c)
    ensures AnswerCall(cfg, s, c, e) == s.(calls := s.calls[c := AnswerCall(cfg, s, c, e).calls[c]])
  {
  }

  /** Comments land or get new contents; updates land. */
  lemma ProviderSeen(s: Sys, after: Sys)
    requires Seen(s) && after == s.(comments := after.comments, updates := after.updates) && Gains(s, after)
    requires |after.comments| == |s.comments| && |after.updates| == |s.updates|
    requires forall i: nat | i < |after.comments| :: after.comments[i].body in after.comments[i].held
    requires forall u: nat | u < |after.updates| :: UpdateSeen(after, u)
    ensures Seen(after)
  {
    RowsGain(s, after);
    CallsGain(s, after);
    forall i: nat | i < |after.comments| ensures CommentSeen(after, i) { assert CommentSeen(s, i); }
  }

  lemma LandSeen(cfg: Config, s: Sys, i: nat)
    requires Seen(s)
    ensures Seen(Step(cfg, s, Land(i)))
  {
    var after := Step(cfg, s, Land(i));
    forall j: nat | j < |s.comments| ensures after.comments[j].body in after.comments[j].held {
      assert CommentSeen(s, j);
    }
    forall u: nat | u < |s.updates| ensures UpdateSeen(after, u) { assert UpdateSeen(s, u); }
    ProviderSeen(s, after);
  }

  lemma EditSeen(cfg: Config, s: Sys, i: nat, body: Fingerprint, marked: bool)
    requires Seen(s)
    ensures Seen(Step(cfg, s, Edit(i, body, marked)))
  {
    var after := Step(cfg, s, Edit(i, body, marked));
    forall j: nat | j < |s.comments| ensures after.comments[j].body in after.comments[j].held {
      assert CommentSeen(s, j);
    }
    forall u: nat | u < |s.updates| ensures UpdateSeen(after, u) { assert UpdateSeen(s, u); }
    ProviderSeen(s, after);
  }

  lemma LandUpdateSeen(cfg: Config, s: Sys, v: nat)
    requires Seen(s)
    ensures Seen(Step(cfg, s, LandUpdate(v)))
  {
    var after := Step(cfg, s, LandUpdate(v));
    forall j: nat | j < |s.comments| ensures after.comments[j].body in after.comments[j].held {
      assert CommentSeen(s, j);
    }
    forall u: nat | u < |s.updates| ensures UpdateSeen(after, u) { assert UpdateSeen(s, u); }
    ProviderSeen(s, after);
  }

  lemma OtherSeen(s: Sys, op: LedgerOp)
    requires Seen(s) && Foreign(s.ledger, op)
    ensures Seen(s.(ledger := Perform(s.db, s.ledger, op).0))
  {
    var after := s.(ledger := Perform(s.db, s.ledger, op).0);
    OtherRows(s.db, s.ledger, op);
    ProviderRests(s, after);
    CallsGain(s, after);
    forall o | o in after.ledger.actions ensures RowSeen(after, o) {
      if after.ledger.actions[o].provider.GitHub? { RowGains(s, after, o); }
    }
  }

  lemma QuietSeen(s: Sys, db: Db, clock: Time)
    requires Seen(s)
    ensures Seen(s.(db := db, clock := clock))
  {
    var after := s.(db := db, clock := clock);
    ProviderRests(s, after);
    RowsGain(s, after);
    CallsGain(s, after);
  }

  lemma StepSeen(cfg: Config, s: Sys, ev: Event)
    requires Seen(s)
    ensures Seen(Step(cfg, s, ev))
  {
    match ev
    case Tick(now) =>
      QuietSeen(s, s.db, now);
      assert s.(db := s.db, clock := now) == s.(clock := now);
    case StoreStep(txn) =>
      QuietSeen(s, Apply(s.db, txn), s.clock);
      assert s.(db := Apply(s.db, txn), clock := s.clock) == s.(db := Apply(s.db, txn));
    case OtherAction(op) => if Foreign(s.ledger, op) { OtherSeen(s, op); }
    case Begin(c, _, _, _, _, _) =>
      if Step(cfg, s, ev) != s { CallMovesSeen(s, c, Step(cfg, s, ev).calls[c]); }
    case Crash(c) => if c in s.calls { GotoSeen(s, c, Abandoned); }
    case Advance(c) => if c in s.calls { AdvanceSeen(cfg, s, c); }
    case ReadComments(c, read) => if c in s.calls && s.calls[c].action.Some? { ReadSeen(s, c, read); }
    case Send(c) => if c in s.calls && s.calls[c].pc.Writing? && s.calls[c].action.Some? { SendSeen(s, c); }
    case Land(i) => LandSeen(cfg, s, i);
    case LandUpdate(u) => LandUpdateSeen(cfg, s, u);
    case Edit(i, body, marked) => EditSeen(cfg, s, i, body, marked);
    case Answer(c, e) => if c in s.calls && s.calls[c].action.Some? { AnswerSeen(cfg, s, c, e); }
  }

  lemma {:induction false} RunSeen(cfg: Config, s: Sys, events: seq<Event>)
    requires Seen(s)
    ensures Seen(RunEvents(cfg, s, events))
    decreases |events|
  {
    if events != [] {
      StepSeen(cfg, s, events[0]);
      RunSeen(cfg, Step(cfg, s, events[0]), events[1..]);
    }
  }

  /**
   A call that confirms, whether by adopting what it read or by its own write, names a landed comment of its scope
   that was given exactly the contents it asked for. No exclusivity and no freshness is needed.
   */
  lemma ConfirmedContents(cfg: Config, events: seq<Event>, c: CallId)
    requires c in RunEvents(cfg, EmptySys, events).calls
    requires RunEvents(cfg, EmptySys, events).calls[c].pc == Ended(Confirmed)
    ensures
      var s := RunEvents(cfg, EmptySys, events);
      var call := s.calls[c];
      && call.action.Some? && call.action.value.resource.Some? && call.action.value.applied == Some(call.desired)
      && var i := call.action.value.resource.value;
      && 0 <= i < |s.comments| && s.comments[i].scope == call.scope && s.comments[i].fate.Landed?
      && call.desired in s.comments[i].held
  {
    RunSeen(cfg, EmptySys, events);
    assert CallSeen(RunEvents(cfg, EmptySys, events), c);
  }

  // ---------------------------------------------------------------- replayed success, one task at a time

  /** A driver's copy of the row asks for what the call asks for, once any revision is made. */
  predicate Asks(s: Sys, c: CallId)
    requires c in s.calls
  {
    var call := s.calls[c];
    && (Driver(s, c) && !call.pc.CheckingBound? && !call.pc.Revising? ==>
          call.action.Some? && call.action.value.desired == call.desired)
    && (call.pc == Ended(Replayed) ==>
          call.action.Some? && call.action.value.applied == Some(call.desired))
  }

  /** A succeeded row has applied what it stands for. */
  predicate Fulfilled(a: Action) { a.provider.GitHub? && a.status.ActionSucceeded? ==> a.applied == Some(a.desired) }

  ghost predicate AllAsk(s: Sys) {
    && (forall c | c in s.calls :: Asks(s, c))
    && (forall o | o in s.ledger.actions :: Fulfilled(s.ledger.actions[o]))
  }

  lemma StillAsks(s: Sys, after: Sys, c: CallId)
    requires c in s.calls && Asks(s, c) && c in after.calls
    requires after.calls[c].desired == s.calls[c].desired && after.calls[c].action == s.calls[c].action
    requires Driver(after, c) ==> Driver(s, c)
    requires s.calls[c].pc.CheckingBound? || s.calls[c].pc.Revising? ==>
               after.calls[c].pc.CheckingBound? || after.calls[c].pc.Revising? || !Live(after.calls[c])
    requires after.calls[c].pc == Ended(Replayed) ==> s.calls[c].pc == Ended(Replayed)
    ensures Asks(after, c)
  {
  }

  lemma TookAsks(s: Sys, c: CallId, ledger: Ledger, row: Action, pc: Pc)
    requires AllAsk(s) && c in s.calls && ledger.actions == s.ledger.actions[s.calls[c].scope := row]
    requires Fulfilled(row) && Asks(Took(s, c, ledger, row, pc), c)
    ensures AllAsk(Took(s, c, ledger, row, pc))
  {
    var after := Took(s, c, ledger, row, pc);
    forall d | d in after.calls && d != c ensures Asks(after, d) { StillAsks(s, after, d); }
  }

  lemma MovesAsk(s: Sys, after: Sys, c: CallId)
    requires AllAsk(s) && Moves(s, after, c) && after.calls[c].desired == s.calls[c].desired
    requires s.calls[c].pc.CheckingBound? || s.calls[c].pc.Revising? ==>
               after.calls[c].pc.CheckingBound? || after.calls[c].pc.Revising? || !Live(after.calls[c])
    requires after.calls[c].pc == Ended(Replayed) ==> s.calls[c].pc == Ended(Replayed)
    ensures AllAsk(after)
  {
    forall d | d in after.calls ensures Asks(after, d) { StillAsks(s, after, d); }
  }

  lemma ReserveAsks(cfg: Config, s: Sys, c: CallId)
    requires AllAsk(s) && c in s.calls && s.calls[c].pc.Reserving?
    ensures AllAsk(ReserveCall(cfg, s, c))
  {
    var call := s.calls[c];
    var (ledger, reply) :=
      Reserve(s.db, s.ledger, call.fence, GitHub, UpsertComment, call.scope, call.desired, call.snapshot, s.clock);
    if !(cfg.exclusive && !NoRival(s, c)) {
      if reply.Done? {
        TookAsks(s, c, ledger, reply.action, Dispatch(reply.kind, reply.action, call.mayUpdate));
      } else {
        MovesAsk(s, Goto(s, c, Abandoned), c);
      }
    }
  }

  lemma ReviseAsks(s: Sys, c: CallId)
    requires AllAsk(s) && c in s.calls && Live(s.calls[c]) && s.calls[c].action.Some?
    ensures AllAsk(ReviseCall(s, c))
  {
    var call := s.calls[c];
    var (ledger, reply) := Revise(s.db, s.ledger, call.fence, call.scope, call.action.value.revision,
                                  call.desired, call.snapshot, s.clock);
    if reply.Done? {
      TookAsks(s, c, ledger, reply.action, Reconcile(reply.action));
    } else {
      MovesAsk(s, Goto(s, c, Abandoned), c);
    }
  }

  lemma MoveAsks(cfg: Config, s: Sys, c: CallId, pc: Pc)
    requires Exclusive(s) && AllAsk(s) && c in s.calls && MoveOf(cfg, s.calls[c]).Some? && pc != Ended(Replayed)
    ensures AllAsk(MoveTo(s, c, MoveOf(cfg, s.calls[c]).value, pc))
  {
    var call := s.calls[c];
    var m := MoveOf(cfg, call).value;
    var (ledger, reply) := Transition(s.db, s.ledger, call.fence, call.scope, m, s.clock);
    if reply.Done? {
      assert Driver(s, c) && Current(s, c) && Asks(s, c);
      MovedRowAsks(cfg, s, c);
      TookAsks(s, c, ledger, reply.action, pc);
    } else {
      MovesAsk(s, Goto(s, c, Abandoned), c);
    }
  }

  lemma MovedRowAsks(cfg: Config, s: Sys, c: CallId)
    requires c in s.calls && MoveOf(cfg, s.calls[c]).Some? && Current(s, c)
    requires s.calls[c].action.value.desired == s.calls[c].desired
    ensures
      var call := s.calls[c];
      var m := MoveOf(cfg, call).value;
      var reply := Transition(s.db, s.ledger, call.fence, call.scope, m, s.clock).1;
      reply.Done? ==> reply.action.desired == call.desired && Fulfilled(reply.action)
  {
  }

  lemma AdvanceAsks(cfg: Config, s: Sys, c: CallId)
    requires Exclusive(s) && AllAsk(s) && c in s.calls
    ensures AllAsk(AdvanceCall(cfg, s, c))
  {
    var call := s.calls[c];
    if call.pc.Reserving? {
      ReserveAsks(cfg, s, c);
    } else if call.action.Some? {
      if MoveOf(cfg, call).Some? {
        var pc := AdvanceIsMove(cfg, s, c);
        MoveAsks(cfg, s, c, pc);
      } else if call.pc.Revising? {
        ReviseAsks(s, c);
      } else if call.pc.HoldingOff? {
        MovesAsk(s, AdvanceCall(cfg, s, c), c);
      }
    }
  }

  lemma CallAsks(cfg: Config, s: Sys, ev: Event)
    requires AllAsk(s) && (ev.ReadComments? || ev.Send? || ev.Answer?)
    ensures AllAsk(Step(cfg, s, ev))
  {
    var c := ev.call;
    if c in s.calls && s.calls[c].action.Some? && Step(cfg, s, ev) != s {
      if ev.ReadComments? {
        ReadAsks(s, c, ev.read);
      } else if ev.Send? {
        MovesAsk(s, SendCall(s, c), c);
      } else {
        AnswerAsks(cfg, s, c, ev.exchange);
      }
    }
  }

  lemma ReadAsks(s: Sys, c: CallId, read: Read)
    requires AllAsk(s) && c in s.calls && s.calls[c].action.Some?
    ensures AllAsk(ReadCall(s, c, read))
  {
    ReadMoves(s, c, read);
    ReadStaysAsking(s, c, read);
    MovesAsk(s, ReadCall(s, c, read), c);
  }

  lemma ReadStaysAsking(s: Sys, c: CallId, read: Read)
    requires c in s.calls && s.calls[c].action.Some?
    ensures
      var after := ReadCall(s, c, read);
      && c in after.calls && after.calls[c].desired == s.calls[c].desired
      && (s.calls[c].pc.CheckingBound? || s.calls[c].pc.Revising? ==>
            after.calls[c].pc.CheckingBound? || after.calls[c].pc.Revising? || !Live(after.calls[c]))
      && (after.calls[c].pc == Ended(Replayed) ==> s.calls[c].pc == Ended(Replayed))
  {
  }

  lemma AnswerAsks(cfg: Config, s: Sys, c: CallId, e: Exchange)
    requires AllAsk(s) && c in s.calls && s.calls[c].action.Some?
    ensures AllAsk(AnswerCall(cfg, s, c, e))
  {
    AnswerMoves(cfg, s, c, e);
    MovesAsk(s, AnswerCall(cfg, s, c, e), c);
  }

  lemma QuietAsks(s: Sys, after: Sys)
    requires AllAsk(s) && after.calls == s.calls && forall c | Driver(after, c) :: Driver(s, c)
    requires forall o | o in after.ledger.actions && after.ledger.actions[o].provider.GitHub? ::
               o in s.ledger.actions && after.ledger.actions[o] == s.ledger.actions[o]
    ensures AllAsk(after)
  {
    forall c | c in after.calls ensures Asks(after, c) { StillAsks(s, after, c); }
  }

  lemma StoreAsks(s: Sys, txn: Txn)
    requires Exclusive(s) && AllAsk(s) && txn.now == s.clock
    ensures AllAsk(s.(db := Apply(s.db, txn)))
  {
    var after := s.(db := Apply(s.db, txn));
    ApplyOk(s.db, txn);
    forall c | Driver(after, c) ensures Driver(s, c) { FenceIsNotRevived(s.db, txn, s.calls[c].fence); }
    QuietAsks(s, after);
  }

  lemma OtherAsks(s: Sys, op: LedgerOp)
    requires AllAsk(s) && Foreign(s.ledger, op)
    ensures AllAsk(s.(ledger := Perform(s.db, s.ledger, op).0))
  {
    OtherRows(s.db, s.ledger, op);
    QuietAsks(s, s.(ledger := Perform(s.db, s.ledger, op).0));
  }

  lemma BeginAsks(cfg: Config, s: Sys, ev: Event)
    requires AllAsk(s) && ev.Begin?
    ensures AllAsk(Step(cfg, s, ev))
  {
    var after := Step(cfg, s, ev);
    forall c | c in after.calls ensures Asks(after, c) { if c in s.calls { StillAsks(s, after, c); } }
  }

  lemma StepAsks(cfg: Config, s: Sys, ev: Event)
    requires Exclusive(s) && AllAsk(s)
    ensures AllAsk(Step(cfg, s, ev))
  {
    match ev
    case Tick(now) => if now >= s.clock { QuietAsks(s, s.(clock := now)); }
    case StoreStep(txn) => if txn.now == s.clock { StoreAsks(s, txn); }
    case OtherAction(op) => if Foreign(s.ledger, op) { OtherAsks(s, op); }
    case Begin(_, _, _, _, _, _) => BeginAsks(cfg, s, ev);
    case Crash(c) => if c in s.calls { MovesAsk(s, Goto(s, c, Abandoned), c); }
    case Advance(c) => if c in s.calls { AdvanceAsks(cfg, s, c); }
    case Land(_) => QuietAsks(s, Step(cfg, s, ev));
    case LandUpdate(_) => QuietAsks(s, Step(cfg, s, ev));
    case Edit(_, _, _) => QuietAsks(s, Step(cfg, s, ev));
    case _ => CallAsks(cfg, s, ev);
  }

  lemma {:induction false} RunAsks(cfg: Config, s: Sys, events: seq<Event>)
    requires cfg.exclusive && Exclusive(s) && AllAsk(s)
    ensures AllAsk(RunEvents(cfg, s, events))
    decreases |events|
  {
    if events != [] {
      StepAsks(cfg, s, events[0]);
      StepKeepsExclusive(cfg, s, events[0]);
      RunAsks(cfg, Step(cfg, s, events[0]), events[1..]);
    }
  }

  /** One task at a time on a scope: a replayed success, too, names a comment that was given these contents. */
  lemma ReplayedContents(cfg: Config, events: seq<Event>, c: CallId)
    requires cfg.exclusive && c in RunEvents(cfg, EmptySys, events).calls
    requires RunEvents(cfg, EmptySys, events).calls[c].pc == Ended(Replayed)
    ensures
      var s := RunEvents(cfg, EmptySys, events);
      var call := s.calls[c];
      && call.action.Some? && call.action.value.resource.Some?
      && var i := call.action.value.resource.value;
      && 0 <= i < |s.comments| && s.comments[i].scope == call.scope && s.comments[i].fate.Landed?
      && call.desired in s.comments[i].held
  {
    RunSeen(cfg, EmptySys, events);
    RunAsks(cfg, EmptySys, events);
    var s := RunEvents(cfg, EmptySys, events);
    assert CallSeen(s, c) && Asks(s, c);
  }
}
