/** At most one Slack message per scope ever takes effect, in every run of SlackDelivery. */
module SlackAtMostOnce {
  import opened Wrappers
  import opened TaskStore
  import opened ActionLedger
  import opened ProviderHttp
  import opened SlackDelivery

  /** Between the start of its write and the record of its outcome. */
  predicate InWrite(call: Call) { call.pc.Posting? || call.pc.AwaitingReply? || call.pc.Recording? }

  /** The call knows that no message of its write can exist. */
  predicate KnowsUnsent(call: Call) {
    call.pc.Posting? || (call.pc.Recording? && call.pc.outcome.PostRetryable?)
  }

  predicate SlackRow(s: Sys, scope: Scope) { scope in s.ledger.actions && s.ledger.actions[scope].provider.Slack? }

  /** A write has begun on the scope and its row has not come back to a status that would allow another. */
  predicate Closed(s: Sys, scope: Scope) { SlackRow(s, scope) && s.ledger.actions[scope].status !in Startable }

  /** The message may exist or may still come to exist. */
  predicate Possible(s: Sys, i: nat) { i < |s.posts| && !s.posts[i].fate.NeverSent? }

  ghost predicate CallOk(s: Sys, c: CallId)
    requires c in s.calls
  {
    var call := s.calls[c];
    && (!call.pc.Reserving? && !call.pc.Ended? && !call.pc.Abandoned? ==> SlackRow(s, call.scope))
    && (InWrite(call) ==>
          && Closed(s, call.scope)
          && call.scope in s.owner && s.owner[call.scope] == c)
    && (call.pc == Ended(Delivered) ==>
          && SlackRow(s, call.scope) && s.ledger.actions[call.scope].status.ActionSucceeded?
          && call.action.Some? && call.action.value.resource.Some?)
    && (call.pc.AwaitingReply? ==>
          call.post < |s.posts| && s.posts[call.post].scope == call.scope)
    && (call.pc.Recording? && call.pc.outcome.Receipt? ==>
          call.post < |s.posts| && s.posts[call.post] == Post(s.posts[call.post].call, call.scope, TookEffect))
  }

  ghost predicate PostOk(s: Sys, i: nat)
    requires i < |s.posts|
  {
    Possible(s, i) ==>
      && Closed(s, s.posts[i].scope)
      && (forall c | c in s.calls && InWrite(s.calls[c]) && s.calls[c].scope == s.posts[i].scope ::
            !KnowsUnsent(s.calls[c]) && s.calls[c].post == i)
  }

  ghost predicate RowOk(s: Sys, scope: Scope)
    requires scope in s.ledger.actions
  {
    var a := s.ledger.actions[scope];
    a.provider.Slack? ==>
      && ActionChecks(a)
      && (a.status.Executing? ==> a.writeStartedAt.Some?)
      && (a.status.ActionSucceeded? ==>
            && 0 <= a.resource.value < |s.posts|
            && s.posts[a.resource.value].scope == scope && s.posts[a.resource.value].fate.TookEffect?)
  }

  ghost predicate OnePossible(s: Sys) {
    forall i, j | 0 <= i < |s.posts| && 0 <= j < |s.posts| && s.posts[i].scope == s.posts[j].scope
                  && Possible(s, i) && Possible(s, j) :: i == j
  }

  ghost predicate Inv(s: Sys) {
    && (forall c | c in s.calls :: CallOk(s, c))
    && (forall i | 0 <= i < |s.posts| :: PostOk(s, i))
    && (forall scope | scope in s.ledger.actions :: RowOk(s, scope))
    && OnePossible(s)
  }

  // ---------------------------------------------------------------- one event at a time

  /** A call leaves for a point outside its write; nothing else changes. */
  lemma GotoKeeps(s: Sys, c: CallId, pc: Pc)
    requires Inv(s) && c in s.calls
    requires !pc.Posting? && !pc.AwaitingReply? && !pc.Recording? && pc != Ended(Delivered)
    requires pc.Reserving? || pc.Ended? || pc.Abandoned? || SlackRow(s, s.calls[c].scope)
    ensures Inv(Goto(s, c, pc))
  {
    var after := Goto(s, c, pc);
    forall d | d in after.calls ensures CallOk(after, d) { assert CallOk(s, d); }
    forall i | 0 <= i < |after.posts| ensures PostOk(after, i) { assert PostOk(s, i); }
    forall scope | scope in after.ledger.actions ensures RowOk(after, scope) { assert RowOk(s, scope); }
  }

  /** The ledger changes on one Slack scope, with one call moving outside its write. */
  lemma LedgerKeeps(s: Sys, c: CallId, row: Action, log: seq<Entry>, pc: Pc)
    requires Inv(s) && c in s.calls
    requires !pc.Posting? && !pc.AwaitingReply? && !pc.Recording?
    requires
      var scope := s.calls[c].scope;
      && row.provider.Slack?
      && (scope in s.ledger.actions ==> s.ledger.actions[scope].provider.Slack?)
      && (scope in s.ledger.actions && s.ledger.actions[scope].status.ActionSucceeded? ==> row.status.ActionSucceeded?)
      && (pc == Ended(Delivered) ==> row.status.ActionSucceeded?)
      && (row.status in Startable ==> !Closed(s, scope) || (InWrite(s.calls[c]) && KnowsUnsent(s.calls[c])))
    requires ActionChecks(row) && (row.status.Executing? ==> row.writeStartedAt.Some?)
    requires row.status.ActionSucceeded? ==>
               && 0 <= row.resource.value < |s.posts|
               && s.posts[row.resource.value].scope == s.calls[c].scope
               && s.posts[row.resource.value].fate.TookEffect?
    ensures
      var call := s.calls[c];
      Inv(s.(ledger := Ledger(s.ledger.actions[call.scope := row], log),
             calls := s.calls[c := call.(pc := pc, action := Some(row))]))
  {
    var call := s.calls[c];
    var after := s.(ledger := Ledger(s.ledger.actions[call.scope := row], log),
                    calls := s.calls[c := call.(pc := pc, action := Some(row))]);
    forall d | d in after.calls ensures CallOk(after, d) {
      assert CallOk(s, d) && CallOk(s, c);
    }
    forall i | 0 <= i < |after.posts| ensures PostOk(after, i) {
      assert PostOk(s, i);
    }
    forall o | o in after.ledger.actions ensures RowOk(after, o) {
      if o != call.scope { assert RowOk(s, o); }
    }
  }

  lemma ReserveKeeps(s: Sys, c: CallId, now: Time)
    requires Inv(s) && c in s.calls && s.calls[c].pc.Reserving?
    ensures forall cfg :: Inv(AdvanceCall(cfg, s, c, now))
  {
    var call := s.calls[c];
    var (ledger, reply) :=
      Reserve(s.db, s.ledger, call.fence, Slack, PostNotification, call.scope, call.desired, call.snapshot, now);
    if reply.Done? {
      if call.scope in s.ledger.actions { assert RowOk(s, call.scope); }
      LedgerKeeps(s, c, reply.action, ledger.log, Dispatch(reply.kind, reply.action.status));
    } else {
      GotoKeeps(s, c, Abandoned);
    }
  }

  lemma MoveKeeps(s: Sys, c: CallId, m: Move, now: Time, pc: Pc)
    requires Inv(s) && c in s.calls && SlackRow(s, s.calls[c].scope)
    requires !pc.Posting? && !pc.AwaitingReply? && !pc.Recording?
    requires !m.status.Executing? && ActionSucceeded !in m.expected
    requires pc == Ended(Delivered) ==> m.status.ActionSucceeded?
    requires m.status in Startable ==>
               m.expected == Startable || (InWrite(s.calls[c]) && KnowsUnsent(s.calls[c]))
    requires m.status.ActionSucceeded? ==>
               && s.calls[c].pc.Recording? && s.calls[c].pc.outcome.Receipt?
               && m.evidence.Some? && m.evidence.value.resource == s.calls[c].post
    ensures Inv(MoveTo(s, c, m, now, pc))
  {
    var call := s.calls[c];
    var (ledger, reply) := Transition(s.db, s.ledger, call.fence, call.scope, m, now);
    if reply.Done? {
      assert RowOk(s, call.scope) && CallOk(s, c);
      LedgerKeeps(s, c, reply.action, ledger.log, pc);
    } else {
      GotoKeeps(s, c, Abandoned);
    }
  }

  /** Opening a write: the status allowed it, so every earlier message is known never to exist. */
  lemma StartKeeps(cfg: Config, s: Sys, c: CallId, now: Time)
    requires Inv(s) && c in s.calls && s.calls[c].pc.StartingWrite?
    ensures Inv(AdvanceCall(cfg, s, c, now))
  {
    var call := s.calls[c];
    assert CallOk(s, c) && RowOk(s, call.scope);
    var (ledger, reply) := Transition(s.db, s.ledger, call.fence, call.scope, StartMove(cfg), now);
    if reply.Done? {
      OpenedKeeps(s, c, reply.action, ledger.log);
    } else {
      GotoKeeps(s, c, Abandoned);
    }
  }

  lemma OpenedKeeps(s: Sys, c: CallId, row: Action, log: seq<Entry>)
    requires Inv(s) && c in s.calls && SlackRow(s, s.calls[c].scope) && !Closed(s, s.calls[c].scope)
    requires row.provider.Slack? && row.status.Executing? && row.writeStartedAt.Some? && ActionChecks(row)
    ensures
      var call := s.calls[c];
      Inv(s.(ledger := Ledger(s.ledger.actions[call.scope := row], log),
             calls := s.calls[c := call.(pc := Posting, action := Some(row))],
             owner := s.owner[call.scope := c]))
  {
    var call := s.calls[c];
    var after := s.(ledger := Ledger(s.ledger.actions[call.scope := row], log),
                    calls := s.calls[c := call.(pc := Posting, action := Some(row))],
                    owner := s.owner[call.scope := c]);
    forall d | d in after.calls ensures CallOk(after, d) { assert CallOk(s, d); }
    forall i | 0 <= i < |after.posts| ensures PostOk(after, i) { assert PostOk(s, i); }
    forall o | o in after.ledger.actions ensures RowOk(after, o) {
      if o != call.scope { assert RowOk(s, o); }
    }
  }

  lemma DelayKeeps(cfg: Config, s: Sys, c: CallId, now: Time)
    requires Inv(s) && c in s.calls && s.calls[c].pc.CheckingDelay?
    ensures Inv(AdvanceCall(cfg, s, c, now))
  {
    assert CallOk(s, c);
    GotoKeeps(s, c, AdvanceCall(cfg, s, c, now).calls[c].pc);
  }

  lemma AdvanceKeeps(cfg: Config, s: Sys, c: CallId, now: Time)
    requires Inv(s) && c in s.calls
    ensures Inv(AdvanceCall(cfg, s, c, now))
  {
    var call := s.calls[c];
    assert CallOk(s, c);
    match call.pc
    case Reserving => ReserveKeeps(s, c, now);
    case ResolvingPrevious => MoveKeeps(s, c, ResolveMove, now, Ended(DeliveryUnknown));
    case CheckingDelay => DelayKeeps(cfg, s, c, now);
    case RefusingIdentity(identity) => MoveKeeps(s, c, IdentityMove(identity), now, Ended(IdentityEnd(identity)));
    case StartingWrite => StartKeeps(cfg, s, c, now);
    case Recording(outcome) => MoveKeeps(s, c, OutcomeMove(outcome, call), now, Ended(OutcomeEnd(outcome)));
    case _ =>
  }

  lemma OtherRows(db: Db, ledger: Ledger, op: LedgerOp)
    requires Foreign(ledger, op)
    ensures
      var after := Perform(db, ledger, op).0;
      && (forall o | o in ledger.actions && ledger.actions[o].provider.Slack? ::
            o in after.actions && after.actions[o] == ledger.actions[o])
      && (forall o | o in after.actions && after.actions[o].provider.Slack? ::
            o in ledger.actions && ledger.actions[o].provider.Slack?)
  {
  }

  /** Rows of other providers may change in any way. */
  lemma ForeignKeeps(s: Sys, ledger: Ledger)
    requires Inv(s)
    requires forall o | o in s.ledger.actions && s.ledger.actions[o].provider.Slack? ::
               o in ledger.actions && ledger.actions[o] == s.ledger.actions[o]
    requires forall o | o in ledger.actions && ledger.actions[o].provider.Slack? ::
               o in s.ledger.actions && s.ledger.actions[o].provider.Slack?
    ensures Inv(s.(ledger := ledger))
  {
    var after := s.(ledger := ledger);
    forall d | d in after.calls ensures CallOk(after, d) { assert CallOk(s, d); }
    forall i | 0 <= i < |after.posts| ensures PostOk(after, i) { assert PostOk(s, i); }
    forall o | o in after.ledger.actions ensures RowOk(after, o) { if o in s.ledger.actions { assert RowOk(s, o); } }
  }

  lemma OtherKeeps(s: Sys, op: LedgerOp)
    requires Inv(s) && Foreign(s.ledger, op)
    ensures Inv(s.(ledger := Perform(s.db, s.ledger, op).0))
  {
    OtherRows(s.db, s.ledger, op);
    ForeignKeeps(s, Perform(s.db, s.ledger, op).0);
  }

  lemma SendKeeps(cfg: Config, s: Sys, c: CallId)
    requires Inv(s) && c in s.calls && s.calls[c].pc.Posting?
    ensures Inv(Step(cfg, s, Send(c)))
  {
    var after := Step(cfg, s, Send(c));
    assert CallOk(s, c) && KnowsUnsent(s.calls[c]);
    forall i | 0 <= i < |s.posts| && s.posts[i].scope == s.calls[c].scope ensures !Possible(s, i) {
      assert PostOk(s, i);
    }
    assert forall i | 0 <= i < |s.posts| :: after.posts[i] == s.posts[i] && (Possible(after, i) <==> Possible(s, i));
    forall d | d in after.calls ensures CallOk(after, d) { assert CallOk(s, d); }
    forall i | 0 <= i < |after.posts| ensures PostOk(after, i) {
      if i < |s.posts| { assert PostOk(s, i); }
      assert forall d | d in s.calls && InWrite(s.calls[d]) :: CallOk(s, d);
    }
    forall o | o in after.ledger.actions ensures RowOk(after, o) { assert RowOk(s, o); }
  }

  lemma LandKeeps(cfg: Config, s: Sys, i: nat)
    requires Inv(s)
    ensures Inv(Step(cfg, s, Land(i)))
  {
    var after := Step(cfg, s, Land(i));
    forall d | d in after.calls ensures CallOk(after, d) { assert CallOk(s, d); }
    forall j | 0 <= j < |after.posts| ensures PostOk(after, j) { assert PostOk(s, j); }
    forall o | o in after.ledger.actions ensures RowOk(after, o) { assert RowOk(s, o); }
  }

  /** The call learns an outcome that settles nothing about messages, or a receipt. */
  lemma HearsKeeps(s: Sys, c: CallId, pc: Pc)
    requires Inv(s) && c in s.calls && s.calls[c].pc.AwaitingReply?
    requires pc.Abandoned? || (pc.Recording? && !pc.outcome.PostRetryable?)
    requires pc.Recording? && pc.outcome.Receipt? ==> s.posts[s.calls[c].post].fate.TookEffect?
    ensures Inv(Goto(s, c, pc))
  {
    var after := Goto(s, c, pc);
    assert CallOk(s, c);
    forall d | d in after.calls ensures CallOk(after, d) { assert CallOk(s, d); }
    forall j | 0 <= j < |after.posts| ensures PostOk(after, j) { assert PostOk(s, j); }
    forall o | o in after.ledger.actions ensures RowOk(after, o) { assert RowOk(s, o); }
  }

  /** The call learns that its message was not accepted. */
  lemma UnsentKeeps(s: Sys, c: CallId, outcome: PostOutcome)
    requires Inv(s) && c in s.calls && s.calls[c].pc.AwaitingReply? && outcome.PostRetryable?
    requires s.calls[c].post < |s.posts| && s.posts[s.calls[c].post].fate.InFlight?
    ensures
      var i := s.calls[c].post;
      Inv(Goto(s, c, Recording(outcome)).(posts := s.posts[i := s.posts[i].(fate := NeverSent)]))
  {
    var i := s.calls[c].post;
    var after := Goto(s, c, Recording(outcome)).(posts := s.posts[i := s.posts[i].(fate := NeverSent)]);
    assert CallOk(s, c);
    forall d | d in after.calls ensures CallOk(after, d) { assert CallOk(s, d); }
    forall j | 0 <= j < |after.posts| ensures PostOk(after, j) { assert PostOk(s, j); }
    forall o | o in after.ledger.actions ensures RowOk(after, o) { assert RowOk(s, o); }
  }

  lemma AnswerKeeps(cfg: Config, s: Sys, c: CallId, e: Exchange)
    requires Inv(s) && c in s.calls
    ensures Inv(AnswerCall(cfg, s, c, e))
  {
    var outcome := SlackPost(e, cfg.channel, cfg.goodTimestamp, cfg.maximumBytes, cfg.maximumRetry);
    if AnswerCall(cfg, s, c, e) != s {
      if outcome.PostRetryable? {
        UnsentKeeps(s, c, outcome);
      } else {
        HearsKeeps(s, c, if outcome.PostUncaught? then Abandoned else Recording(outcome));
      }
    }
  }

  lemma RefuseKeeps(cfg: Config, s: Sys, c: CallId, permanent: bool)
    requires Inv(s) && c in s.calls && s.calls[c].pc.Posting?
    ensures Inv(Step(cfg, s, RefuseToSend(c, permanent)))
  {
    var after := Step(cfg, s, RefuseToSend(c, permanent));
    forall d | d in after.calls ensures CallOk(after, d) { assert CallOk(s, d); }
    forall j | 0 <= j < |after.posts| ensures PostOk(after, j) { assert PostOk(s, j); }
    forall o | o in after.ledger.actions ensures RowOk(after, o) { assert RowOk(s, o); }
  }

  lemma StepKeeps(cfg: Config, s: Sys, ev: Event)
    requires Inv(s)
    ensures Inv(Step(cfg, s, ev))
  {
    match ev
    case StoreStep(txn) => StoreKeeps(s, Apply(s.db, txn));
    case OtherAction(op) => if Foreign(s.ledger, op) { OtherKeeps(s, op); }
    case Begin(c, fence, scope, desired, snapshot) => if c !in s.calls { BeginKeeps(cfg, s, ev); }
    case Crash(c) => if c in s.calls { GotoKeeps(s, c, Abandoned); }
    case Advance(c, now) => if c in s.calls { AdvanceKeeps(cfg, s, c, now); }
    case IdentityChecked(c, identity) =>
      if c in s.calls && s.calls[c].pc.VerifyingIdentity? {
        assert CallOk(s, c);
        GotoKeeps(s, c, if identity.Verified? then StartingWrite else RefusingIdentity(identity));
      }
    case Send(c) => if c in s.calls && s.calls[c].pc.Posting? { SendKeeps(cfg, s, c); }
    case RefuseToSend(c, permanent) => if c in s.calls && s.calls[c].pc.Posting? { RefuseKeeps(cfg, s, c, permanent); }
    case Land(i) => LandKeeps(cfg, s, i);
    case Answer(c, e) => if c in s.calls { AnswerKeeps(cfg, s, c, e); }
  }

  lemma StoreKeeps(s: Sys, db: Db)
    requires Inv(s)
    ensures Inv(s.(db := db))
  {
    var after := s.(db := db);
    forall d | d in after.calls ensures CallOk(after, d) { assert CallOk(s, d); }
    forall i | 0 <= i < |after.posts| ensures PostOk(after, i) { assert PostOk(s, i); }
    forall o | o in after.ledger.actions ensures RowOk(after, o) { assert RowOk(s, o); }
  }

  lemma BeginKeeps(cfg: Config, s: Sys, ev: Event)
    requires Inv(s) && ev.Begin? && ev.call !in s.calls
    ensures Inv(Step(cfg, s, ev))
  {
    var after := Step(cfg, s, ev);
    forall d | d in after.calls ensures CallOk(after, d) { if d in s.calls { assert CallOk(s, d); } }
    forall i | 0 <= i < |after.posts| ensures PostOk(after, i) { assert PostOk(s, i); }
    forall o | o in after.ledger.actions ensures RowOk(after, o) { assert RowOk(s, o); }
  }

  lemma {:induction false} RunKeeps(cfg: Config, s: Sys, events: seq<Event>)
    requires Inv(s)
    ensures Inv(RunEvents(cfg, s, events))
    decreases |events|
  {
    if events != [] {
      StepKeeps(cfg, s, events[0]);
      RunKeeps(cfg, Step(cfg, s, events[0]), events[1..]);
    }
  }

  // ---------------------------------------------------------------- what every run guarantees

  /** At most one message per scope has taken effect or ever may, whatever the calls, crashes and clock readings. */
  lemma AtMostOneMessage(cfg: Config, events: seq<Event>, i: nat, j: nat)
    requires
      var s := RunEvents(cfg, EmptySys, events);
      && i < |s.posts| && j < |s.posts| && s.posts[i].scope == s.posts[j].scope
      && !s.posts[i].fate.NeverSent? && !s.posts[j].fate.NeverSent?
    ensures i == j
  {
    RunKeeps(cfg, EmptySys, events);
  }

  /** A message is sent only when every earlier one on its scope is known never to exist. */
  lemma SentOnlyAfterKnownUnsent(cfg: Config, events: seq<Event>, c: CallId, i: nat)
    requires
      var s := RunEvents(cfg, EmptySys, events);
      && c in s.calls && Step(cfg, s, Send(c)) != s
      && i < |s.posts| && s.posts[i].scope == s.calls[c].scope
    ensures RunEvents(cfg, EmptySys, events).posts[i].fate.NeverSent?
  {
    RunKeeps(cfg, EmptySys, events);
    var s := RunEvents(cfg, EmptySys, events);
    assert CallOk(s, c) && PostOk(s, i);
  }

  /** A call that reports delivery has its evidence, and exactly one message of its scope exists. */
  lemma DeliveredMeansOneMessage(cfg: Config, events: seq<Event>, c: CallId)
    requires
      var s := RunEvents(cfg, EmptySys, events);
      c in s.calls && s.calls[c].pc == Ended(Delivered)
    ensures
      var s := RunEvents(cfg, EmptySys, events);
      && s.calls[c].action.Some? && s.calls[c].action.value.resource.Some?
      && exists i | 0 <= i < |s.posts| ::
        && s.posts[i] == Post(s.posts[i].call, s.calls[c].scope, TookEffect)
        && forall j | 0 <= j < |s.posts| && s.posts[j].scope == s.calls[c].scope && j != i :: s.posts[j].fate.NeverSent?
  {
    RunKeeps(cfg, EmptySys, events);
    var s := RunEvents(cfg, EmptySys, events);
    assert CallOk(s, c);
    SuccessNamesTheMessage(cfg, events, s.calls[c].scope);
    var i := s.ledger.actions[s.calls[c].scope].resource.value;
    assert s.posts[i] == Post(s.posts[i].call, s.calls[c].scope, TookEffect);
  }

  /** A recorded success names the one message that exists. */
  lemma SuccessNamesTheMessage(cfg: Config, events: seq<Event>, scope: Scope)
    requires
      var s := RunEvents(cfg, EmptySys, events);
      SlackRow(s, scope) && s.ledger.actions[scope].status.ActionSucceeded?
    ensures
      var s := RunEvents(cfg, EmptySys, events);
      var a := s.ledger.actions[scope];
      && a.resource.Some? && 0 <= a.resource.value < |s.posts|
      && s.posts[a.resource.value].scope == scope && s.posts[a.resource.value].fate.TookEffect?
      && forall i | 0 <= i < |s.posts| && s.posts[i].scope == scope && i != a.resource.value ::
        s.posts[i].fate.NeverSent?
  {
    RunKeeps(cfg, EmptySys, events);
    var s := RunEvents(cfg, EmptySys, events);
    assert RowOk(s, scope);
    forall i | 0 <= i < |s.posts| && s.posts[i].scope == scope && i != s.ledger.actions[scope].resource.value
      ensures s.posts[i].fate.NeverSent?
    {
      assert Possible(s, s.ledger.actions[scope].resource.value);
      if Possible(s, i) { assert false; }
    }
  }

  // ---------------------------------------------------------------- write epochs

  predicate Final(status: ActionStatus) {
    status.OutcomeUnknown? || status.ActionSucceeded? || status.PermanentFailure? || status.NeedsHumanReview?
  }

  ghost function StatusOf(s: Sys, scope: Scope): ActionStatus
    requires scope in s.ledger.actions
  {
    s.ledger.actions[scope].status
  }

  lemma MoveToStatus(s: Sys, c: CallId, m: Move, now: Time, pc: Pc, scope: Scope)
    requires c in s.calls && SlackRow(s, scope)
    ensures SlackRow(MoveTo(s, c, m, now, pc), scope)
    ensures StatusOf(MoveTo(s, c, m, now, pc), scope) == StatusOf(s, scope)
            || (scope == s.calls[c].scope && StatusOf(s, scope) in m.expected
                && StatusOf(MoveTo(s, c, m, now, pc), scope) == m.status)
  {
  }

  ghost predicate EpochStep(s: Sys, after: Sys, ev: Event, scope: Scope)
    requires SlackRow(s, scope)
  {
    && SlackRow(after, scope)
    && (Final(StatusOf(s, scope)) ==> StatusOf(after, scope) == StatusOf(s, scope))
    && (StatusOf(s, scope).Executing? && !StatusOf(after, scope).Executing? ==>
          || StatusOf(after, scope).OutcomeUnknown?
          || (ev.Advance? && scope in s.owner && ev.call == s.owner[scope] && ev.call in s.calls
              && s.calls[ev.call].pc.Recording? && s.calls[ev.call].scope == scope))
  }

  lemma AdvanceEpoch(cfg: Config, s: Sys, c: CallId, now: Time, scope: Scope)
    requires Inv(s) && SlackRow(s, scope) && c in s.calls
    ensures EpochStep(s, AdvanceCall(cfg, s, c, now), Advance(c, now), scope)
  {
    var call := s.calls[c];
    assert CallOk(s, c);
    match call.pc
    case ResolvingPrevious => MoveToStatus(s, c, ResolveMove, now, Ended(DeliveryUnknown), scope);
    case RefusingIdentity(identity) =>
      MoveToStatus(s, c, IdentityMove(identity), now, Ended(IdentityEnd(identity)), scope);
    case StartingWrite => MoveToStatus(s, c, StartMove(cfg), now, Posting, scope);
    case Recording(outcome) => MoveToStatus(s, c, OutcomeMove(outcome, call), now, Ended(OutcomeEnd(outcome)), scope);
    case _ =>
  }

  /** An open write is left only by the call that opened it or into the final outcome-unknown; final statuses stay. */
  lemma EpochHasOneOwner(cfg: Config, s: Sys, ev: Event, scope: Scope)
    requires Inv(s) && SlackRow(s, scope)
    ensures EpochStep(s, Step(cfg, s, ev), ev, scope)
  {
    match ev
    case Advance(c, now) => if c in s.calls { AdvanceEpoch(cfg, s, c, now, scope); }
    case OtherAction(op) =>
    case _ => assert Step(cfg, s, ev).ledger == s.ledger;
  }

  lemma {:induction false} FinalIsForever(cfg: Config, s: Sys, events: seq<Event>, scope: Scope)
    requires Inv(s) && SlackRow(s, scope) && Final(StatusOf(s, scope))
    ensures SlackRow(RunEvents(cfg, s, events), scope)
    ensures StatusOf(RunEvents(cfg, s, events), scope) == StatusOf(s, scope)
    decreases |events|
  {
    if events != [] {
      EpochHasOneOwner(cfg, s, events[0], scope);
      StepKeeps(cfg, s, events[0]);
      FinalIsForever(cfg, Step(cfg, s, events[0]), events[1..], scope);
    }
  }

  // ---------------------------------------------------------------- the schema's constraints

  /** The transition a call asks for at its present point. */
  function MoveOf(cfg: Config, call: Call): Option<Move> {
    match call.pc
    case ResolvingPrevious => Some(ResolveMove)
    case RefusingIdentity(identity) => Some(IdentityMove(identity))
    case StartingWrite => Some(StartMove(cfg))
    case Recording(outcome) => Some(OutcomeMove(outcome, call))
    case _ => None
  }

  /** No call site of delivery can break a CHECK constraint of the action table or pass bad delays. */
  lemma DeliveryNeverViolatesChecks(cfg: Config, events: seq<Event>, c: CallId, now: Time)
    requires cfg.settlement >= 0
    requires
      var s := RunEvents(cfg, EmptySys, events);
      c in s.calls && MoveOf(cfg, s.calls[c]).Some?
    ensures
      var s := RunEvents(cfg, EmptySys, events);
      var call := s.calls[c];
      var reply := Transition(s.db, s.ledger, call.fence, call.scope, MoveOf(cfg, call).value, now).1;
      !reply.CheckViolated? && !reply.BadArguments?
  {
    RunKeeps(cfg, EmptySys, events);
    var s := RunEvents(cfg, EmptySys, events);
    assert CallOk(s, c);
    assert RowOk(s, s.calls[c].scope);
    MoveIsLegal(cfg, s, c, now);
  }

  lemma MoveIsLegal(cfg: Config, s: Sys, c: CallId, now: Time)
    requires cfg.settlement >= 0 && c in s.calls && MoveOf(cfg, s.calls[c]).Some?
    requires SlackRow(s, s.calls[c].scope) && RowOk(s, s.calls[c].scope)
    ensures
      var call := s.calls[c];
      var reply := Transition(s.db, s.ledger, call.fence, call.scope, MoveOf(cfg, call).value, now).1;
      !reply.CheckViolated? && !reply.BadArguments?
  {
  }
}
