/**
 What a delivery does, event by event, said of the columns of its row; and that undisturbed it does deliver: the
 safety of SlackAtMostOnce is not bought by never sending.
 */
module SlackOutcomes {
  import opened Wrappers
  import opened TaskDomain
  import opened TaskStore
  import opened ActionLedger
  import opened LedgerOutcomes
  import opened ProviderHttp
  import opened SlackDelivery
  import opened SlackAtMostOnce

  // ---------------------------------------------------------------- after the reservation

  /** Where a reserved call goes, by the columns of the row it found. */
  lemma ReservationLeadsTo(cfg: Config, s: Sys, c: CallId, now: Time)
    requires c in s.calls && s.calls[c].pc.Reserving?
    ensures
      var call := s.calls[c];
      var after := Step(cfg, s, Advance(c, now));
      && c in after.calls && after.posts == s.posts && after.db == s.db
      && var pc := after.calls[c].pc;
      && if !FenceOpen(s.db, call.fence, now) then pc.Abandoned? && after.ledger == s.ledger
         else if call.scope !in s.ledger.actions then
           && pc.VerifyingIdentity? && call.scope in after.ledger.actions
           && Fresh(after.ledger.actions[call.scope], Slack, PostNotification, call.desired, call.snapshot, now)
         else
           var a := s.ledger.actions[call.scope];
           if !a.provider.Slack? || !a.operation.PostNotification? then pc.Abandoned? && after.ledger == s.ledger
           else if a.desired != call.desired || a.snapshot != call.snapshot then pc == Ended(DeliveryReview)
           else
             match a.status
             case Reserved => pc.VerifyingIdentity?
             case ReadyToExecute => pc.VerifyingIdentity?
             case Reconciling => pc.VerifyingIdentity?
             case RetryableFailure => pc.CheckingDelay?
             case Executing => pc.ResolvingPrevious?
             case ActionSucceeded => pc == Ended(Delivered)
             case OutcomeUnknown => pc == Ended(DeliveryUnknown)
             case PermanentFailure => pc == Ended(DeliveryPermanent)
             case NeedsHumanReview => pc == Ended(DeliveryReview)
  {
    var call := s.calls[c];
    ReservationMeans(s.db, s.ledger, call.fence, Slack, PostNotification, call.scope, call.desired, call.snapshot, now);
  }

  /** A transition of the call: under an open fence and one of the statuses the row moves; else the call raises. */
  ghost predicate Moves(s: Sys, after: Sys, c: CallId, now: Time, from: set<ActionStatus>, to: ActionStatus,
                        error: Option<string>, pc: Pc)
    requires c in s.calls
  {
    var call := s.calls[c];
    && c in after.calls && after.posts == s.posts && after.db == s.db
    && if FenceOpen(s.db, call.fence, now) && call.scope in s.ledger.actions
          && s.ledger.actions[call.scope].status in from
       then
         && call.scope in after.ledger.actions && after.calls[c].pc == pc
         && after.calls[c].action == Some(after.ledger.actions[call.scope])
         && var a, row := s.ledger.actions[call.scope], after.ledger.actions[call.scope];
         && row.status == to && row.errorCode == error && row.updatedAt == now
         && row.desired == a.desired && row.snapshot == a.snapshot && row.revision == a.revision
         && row.provider == a.provider && row.operation == a.operation && row.sequence == a.sequence + 1
       else after.calls[c].pc.Abandoned? && after.ledger == s.ledger
  }

  /** The row of the call's scope satisfies the schema, and an open write has its start. */
  ghost predicate GoodRow(s: Sys, c: CallId)
    requires c in s.calls
  {
    SlackRow(s, s.calls[c].scope) && RowOk(s, s.calls[c].scope)
  }

  /** A transition that cannot break a constraint moves the row exactly as it says. */
  lemma MoveMeans(s: Sys, c: CallId, m: Move, now: Time, pc: Pc)
    requires c in s.calls && GoodRow(s, c) && GoodDelays(m) && !pc.Abandoned?
    requires ActionSucceeded !in m.expected && (m.status.ActionSucceeded? ==> m.evidence.Some?)
    requires m.status.OutcomeUnknown? ==> m.expected == {Executing} && !m.clearWriteStarted
    ensures
      var after := MoveTo(s, c, m, now, pc);
      var scope := s.calls[c].scope;
      && Moves(s, after, c, now, m.expected, m.status, m.errorCode, pc)
      && (after.calls[c].pc == pc ==> MovedTo(s.ledger.actions[scope], after.ledger.actions[scope], m, now))
  {
    var call := s.calls[c];
    TransitionMeans(s.db, s.ledger, call.fence, call.scope, m, now);
    NothingViolated(s, c, m, now);
    var (ledger, reply) := Transition(s.db, s.ledger, call.fence, call.scope, m, now);
    if reply.Done? { DoneMoves(s, c, m, now, pc, ledger, reply.action); }
  }

  lemma NothingViolated(s: Sys, c: CallId, m: Move, now: Time)
    requires c in s.calls && GoodRow(s, c)
    requires ActionSucceeded !in m.expected && (m.status.ActionSucceeded? ==> m.evidence.Some?)
    requires m.status.OutcomeUnknown? ==> m.expected == {Executing} && !m.clearWriteStarted
    ensures !Transition(s.db, s.ledger, s.calls[c].fence, s.calls[c].scope, m, now).1.CheckViolated?
  {
  }

  lemma DoneMoves(s: Sys, c: CallId, m: Move, now: Time, pc: Pc, ledger: Ledger, row: Action)
    requires c in s.calls && s.calls[c].scope in s.ledger.actions && !pc.Abandoned?
    requires FenceOpen(s.db, s.calls[c].fence, now) && s.ledger.actions[s.calls[c].scope].status in m.expected
    requires MovedTo(s.ledger.actions[s.calls[c].scope], row, m, now)
    requires ledger.actions == s.ledger.actions[s.calls[c].scope := row]
    requires row.sequence == s.ledger.actions[s.calls[c].scope].sequence + 1
    ensures Moves(s, s.(ledger := ledger, calls := s.calls[c := s.calls[c].(pc := pc, action := Some(row))]), c, now,
                  m.expected, m.status, m.errorCode, pc)
  {
  }

  /** An unresolved write of an earlier call becomes outcome-unknown. */
  lemma ResolvingMeans(cfg: Config, s: Sys, c: CallId, now: Time)
    requires c in s.calls && s.calls[c].pc.ResolvingPrevious? && GoodRow(s, c)
    ensures Moves(s, Step(cfg, s, Advance(c, now)), c, now, {Executing}, OutcomeUnknown,
                  Some("slack_manual_reconciliation_required"), Ended(DeliveryUnknown))
  {
    MoveMeans(s, c, ResolveMove, now, Ended(DeliveryUnknown));
  }

  /** A known-unsent action is retried exactly from its not-before time on. */
  lemma DelayMeans(cfg: Config, s: Sys, c: CallId, now: Time)
    requires c in s.calls && s.calls[c].pc.CheckingDelay? && GoodRow(s, c)
    ensures
      var after := Step(cfg, s, Advance(c, now));
      var notBefore := s.ledger.actions[s.calls[c].scope].reconcileNotBefore;
      && c in after.calls && after.ledger == s.ledger && after.posts == s.posts
      && after.calls[c].pc
         == (if notBefore.Some? && now < notBefore.value then Ended(DeliveryRetryable) else VerifyingIdentity)
  {
  }

  const MayStart: set<ActionStatus> := {Reserved, ReadyToExecute, RetryableFailure}

  /** A verified identity opens the write, with the settlement delay counted from its start. */
  lemma StartMeans(cfg: Config, s: Sys, c: CallId, now: Time)
    requires c in s.calls && s.calls[c].pc.StartingWrite? && GoodRow(s, c) && cfg.settlement >= 0
    ensures
      var after := Step(cfg, s, Advance(c, now));
      && Moves(s, after, c, now, MayStart, Executing, None, Posting)
      && (after.calls[c].pc.Posting? ==>
            && after.ledger.actions[s.calls[c].scope].writeStartedAt == Some(now)
            && after.ledger.actions[s.calls[c].scope].reconcileNotBefore == Some(now + cfg.settlement))
  {
    MoveMeans(s, c, StartMove(cfg), now, Posting);
  }

  /** Another identity than the configured one sends to review; a failed check is retryable after a delay, or final. */
  lemma IdentityMeans(cfg: Config, s: Sys, c: CallId, identity: Identity, now: Time)
    requires c in s.calls && s.calls[c].pc == RefusingIdentity(identity) && !identity.Verified? && GoodRow(s, c)
    ensures
      var after := Step(cfg, s, Advance(c, now));
      && (identity.Mismatch? ==>
            Moves(s, after, c, now, MayStart, NeedsHumanReview, Some("slack_identity_mismatch"), Ended(DeliveryReview)))
      && (identity.IdentityPermanent? ==>
            Moves(s, after, c, now, MayStart, PermanentFailure, Some("slack_auth_rejected"), Ended(DeliveryPermanent)))
      && (identity.IdentityRetryable? ==>
            && Moves(s, after, c, now, MayStart, RetryableFailure, Some("slack_identity_unavailable"),
                     Ended(DeliveryRetryable))
            && (after.calls[c].pc.Ended? ==>
                  after.ledger.actions[s.calls[c].scope].reconcileNotBefore == Some(now + Wait(identity.retryAfter))))
      && (after.calls[c].pc.Ended? ==> after.ledger.actions[s.calls[c].scope].writeStartedAt.None?)
  {
    WaitIsBounded(if identity.IdentityRetryable? then identity.retryAfter else None);
    MoveMeans(s, c, IdentityMove(identity), now, Ended(IdentityEnd(identity)));
  }

  /** Five seconds without advice; the advised delay, but at least one second, with it; in whole microseconds. */
  function Wait(retryAfter: Option<real>): Time {
    match retryAfter
    case None => 5_000_000
    case Some(seconds) => if seconds < 1.0 then 1_000_000 else (seconds * 1_000_000.0).Floor
  }

  lemma WaitIsBounded(retryAfter: Option<real>)
    ensures Wait(retryAfter) == Micros(KnownUnsentDelay(retryAfter)) >= 1_000_000
  {
    match retryAfter
    case None =>
    case Some(seconds) => if seconds >= 1.0 { assert seconds * 1_000_000.0 >= 1_000_000.0; }
  }

  /** Verified goes on, everything else is refused. */
  lemma IdentityLeadsTo(cfg: Config, s: Sys, c: CallId, identity: Identity)
    requires c in s.calls && s.calls[c].pc.VerifyingIdentity?
    ensures
      var after := Step(cfg, s, IdentityChecked(c, identity));
      && c in after.calls && after.ledger == s.ledger && after.posts == s.posts && after.db == s.db
      && (identity.Verified? ==> after.calls[c] == s.calls[c].(pc := StartingWrite))
      && (!identity.Verified? ==> after.calls[c] == s.calls[c].(pc := RefusingIdentity(identity)))
  {
  }

  /** Sending, refusing to send, and hearing the answer. */
  lemma PostingMeans(cfg: Config, s: Sys, c: CallId, permanent: bool)
    requires c in s.calls && s.calls[c].pc.Posting?
    ensures
      var call := s.calls[c];
      var sent := Step(cfg, s, Send(c));
      var refused := Step(cfg, s, RefuseToSend(c, permanent));
      && sent.posts == s.posts + [Post(c, call.scope, InFlight)] && sent.ledger == s.ledger
      && sent.calls == s.calls[c := call.(pc := AwaitingReply, post := |s.posts|)]
      && refused.posts == s.posts && refused.ledger == s.ledger
      && refused.calls
         == s.calls[c := call.(pc := Recording(if permanent then PostPermanent else PostRetryable(None)))]
  {
  }

  /** An answer that the provider can give moves the call to its outcome; an uncaught failure abandons it. */
  lemma AnswerMeans(cfg: Config, s: Sys, c: CallId, e: Exchange)
    requires c in s.calls && s.calls[c].pc.AwaitingReply? && s.calls[c].post < |s.posts|
    requires
      var outcome := SlackPost(e, cfg.channel, cfg.goodTimestamp, cfg.maximumBytes, cfg.maximumRetry);
      && (outcome.PostRetryable? ==> s.posts[s.calls[c].post].fate.InFlight?)
      && (outcome.Receipt? ==> s.posts[s.calls[c].post].fate.TookEffect?)
    ensures
      var outcome := SlackPost(e, cfg.channel, cfg.goodTimestamp, cfg.maximumBytes, cfg.maximumRetry);
      var after := Step(cfg, s, Answer(c, e));
      && c in after.calls && after.ledger == s.ledger
      && after.calls[c].pc == (if e.OtherFailure? then Abandoned else Recording(outcome))
      && after.posts == (if outcome.PostRetryable? then
                           s.posts[s.calls[c].post := s.posts[s.calls[c].post].(fate := NeverSent)]
                         else s.posts)
  {
  }

  /** What is recorded for each outcome of the post. */
  lemma RecordingMeans(cfg: Config, s: Sys, c: CallId, outcome: PostOutcome, now: Time)
    requires c in s.calls && s.calls[c].pc == Recording(outcome) && !outcome.PostUncaught? && GoodRow(s, c)
    ensures
      var call := s.calls[c];
      var after := Step(cfg, s, Advance(c, now));
      match outcome
      case Receipt(_, _) =>
        && Moves(s, after, c, now, {Executing}, ActionSucceeded, None, Ended(Delivered))
        && (after.calls[c].pc.Ended? ==>
              && after.ledger.actions[call.scope].resource == Some(call.post)
              && after.ledger.actions[call.scope].applied == Some(call.desired)
              && after.ledger.actions[call.scope].completedAt == Some(now))
      case PostRetryable(retryAfter) =>
        && Moves(s, after, c, now, {Executing}, RetryableFailure, Some("slack_rate_limited"), Ended(DeliveryRetryable))
        && (after.calls[c].pc.Ended? ==>
              && after.ledger.actions[call.scope].reconcileNotBefore == Some(now + Wait(retryAfter))
              && after.ledger.actions[call.scope].writeStartedAt.None?)
      case PostPermanent =>
        Moves(s, after, c, now, {Executing}, PermanentFailure, Some("slack_write_rejected"), Ended(DeliveryPermanent))
      case _ =>
        Moves(s, after, c, now, {Executing}, OutcomeUnknown, Some("slack_write_outcome_unknown"),
              Ended(DeliveryUnknown))
  {
    WaitIsBounded(if outcome.PostRetryable? then outcome.retryAfter else None);
    MoveMeans(s, c, OutcomeMove(outcome, s.calls[c]), now, Ended(OutcomeEnd(outcome)));
  }

  // ---------------------------------------------------------------- progress

  /** The call stands at `pc`, its row has this status, and these are the messages. */
  ghost predicate Stands(s: Sys, c: CallId, f: ExecutionFence, scope: Scope, desired: Fingerprint, pc: Pc,
                         status: ActionStatus, posts: seq<Post>)
  {
    && c in s.calls && s.calls[c].fence == f && s.calls[c].scope == scope && s.calls[c].desired == desired
    && s.calls[c].pc == pc && SlackRow(s, scope) && s.ledger.actions[scope].status == status && s.posts == posts
  }

  lemma StepTo(cfg: Config, s: Sys, ev: Event) returns (after: Sys)
    requires Inv(s)
    ensures after == Step(cfg, s, ev) && Inv(after)
  {
    StepKeeps(cfg, s, ev);
    after := Step(cfg, s, ev);
  }

  lemma Unroll(cfg: Config, s: Sys, ev: Event, rest: seq<Event>)
    ensures RunEvents(cfg, s, [ev] + rest) == RunEvents(cfg, Step(cfg, s, ev), rest)
  {
    assert ([ev] + rest)[1..] == rest;
  }

  lemma Two(cfg: Config, s: Sys, e1: Event, e2: Event)
    ensures RunEvents(cfg, s, [e1, e2]) == Step(cfg, Step(cfg, s, e1), e2)
  {
    Unroll(cfg, s, e1, [e2]);
    Unroll(cfg, Step(cfg, s, e1), e2, []);
    assert [e1, e2] == [e1] + [e2] && [e2] == [e2] + [];
  }

  /** A verified identity opens the write. */
  lemma Opens(cfg: Config, s: Sys, c: CallId, f: ExecutionFence, scope: Scope, desired: Fingerprint,
              status: ActionStatus, started: Time)
    requires Inv(s) && Stands(s, c, f, scope, desired, VerifyingIdentity, status, s.posts) && status in MayStart
    requires FenceOpen(s.db, f, started) && cfg.settlement >= 0
    ensures
      var after := RunEvents(cfg, s, [IdentityChecked(c, Verified), Advance(c, started)]);
      && Inv(after) && after.db == s.db && Stands(after, c, f, scope, desired, Posting, Executing, s.posts)
  {
    IdentityLeadsTo(cfg, s, c, Verified);
    var s1 := StepTo(cfg, s, IdentityChecked(c, Verified));
    StartMeans(cfg, s1, c, started);
    var s2 := StepTo(cfg, s1, Advance(c, started));
    StartKeepsCall(cfg, s1, c, started);
    Two(cfg, s, IdentityChecked(c, Verified), Advance(c, started));
  }

  /** A verified identity opens the write and the message goes out. */
  lemma OpensAndSends(cfg: Config, s: Sys, c: CallId, f: ExecutionFence, scope: Scope, desired: Fingerprint,
                      status: ActionStatus, started: Time) returns (q: seq<Event>)
    requires Inv(s) && Stands(s, c, f, scope, desired, VerifyingIdentity, status, s.posts) && status in MayStart
    requires FenceOpen(s.db, f, started) && cfg.settlement >= 0
    ensures q == [IdentityChecked(c, Verified), Advance(c, started)] + [Send(c)]
    ensures
      var sent := RunEvents(cfg, s, q);
      && Inv(sent) && sent.db == s.db
      && Stands(sent, c, f, scope, desired, AwaitingReply, Executing, s.posts + [Post(c, scope, InFlight)])
      && sent.calls[c].post == |s.posts|
  {
    var p := [IdentityChecked(c, Verified), Advance(c, started)];
    Opens(cfg, s, c, f, scope, desired, status, started);
    var posting := RunEvents(cfg, s, p);
    var sent := StepTo(cfg, posting, Send(c));
    PostingMeans(cfg, posting, c, false);
    q := p + [Send(c)];
    RunAppends(cfg, s, p, [Send(c)]);
    Unroll(cfg, posting, Send(c), []);
    assert [Send(c)] == [Send(c)] + [];
  }

  lemma StartKeepsCall(cfg: Config, s: Sys, c: CallId, now: Time)
    requires c in s.calls && s.calls[c].pc.StartingWrite?
    ensures
      var after := Step(cfg, s, Advance(c, now));
      && c in after.calls && after.calls[c].fence == s.calls[c].fence && after.calls[c].scope == s.calls[c].scope
      && after.calls[c].desired == s.calls[c].desired
  {
  }

  /** The message lands, and its receipt is recorded. */
  lemma LandsAndRecords(cfg: Config, s: Sys, c: CallId, f: ExecutionFence, scope: Scope, desired: Fingerprint,
                        earlier: seq<Post>, e: Exchange, recorded: Time)
    requires Inv(s)
    requires Stands(s, c, f, scope, desired, AwaitingReply, Executing, earlier + [Post(c, scope, InFlight)])
    requires s.calls[c].post == |earlier| && FenceOpen(s.db, f, recorded)
    requires SlackPost(e, cfg.channel, cfg.goodTimestamp, cfg.maximumBytes, cfg.maximumRetry).Receipt?
    ensures
      var n := |earlier|;
      var end := RunEvents(cfg, s, [Land(n), Answer(c, e), Advance(c, recorded)]);
      && Stands(end, c, f, scope, desired, Ended(Delivered), ActionSucceeded, earlier + [Post(c, scope, TookEffect)])
      && end.ledger.actions[scope].resource == Some(n) && end.ledger.actions[scope].applied == Some(desired)
  {
    var n := |earlier|;
    var outcome := SlackPost(e, cfg.channel, cfg.goodTimestamp, cfg.maximumBytes, cfg.maximumRetry);
    var e1, e2, e3 := Land(n), Answer(c, e), Advance(c, recorded);
    var s1 := StepTo(cfg, s, e1);
    assert s1.posts == earlier + [Post(c, scope, TookEffect)];
    var s2 := StepTo(cfg, s1, e2);
    assert s2 == s1.(calls := s1.calls[c := s1.calls[c].(pc := Recording(outcome))]);
    RecordingMeans(cfg, s2, c, outcome, recorded);
    RecordKeepsCall(cfg, s2, c, recorded);
    Unroll(cfg, s, e1, [e2, e3]);
    Unroll(cfg, s1, e2, [e3]);
    Unroll(cfg, s2, e3, []);
    assert [e1, e2, e3] == [e1] + [e2, e3] && [e2, e3] == [e2] + [e3] && [e3] == [e3] + [];
  }

  lemma RecordKeepsCall(cfg: Config, s: Sys, c: CallId, now: Time)
    requires c in s.calls && s.calls[c].pc.Recording? && GoodRow(s, c)
    ensures
      var after := Step(cfg, s, Advance(c, now));
      && c in after.calls && after.calls[c].fence == s.calls[c].fence && after.calls[c].scope == s.calls[c].scope
      && after.calls[c].desired == s.calls[c].desired && SlackRow(after, s.calls[c].scope)
  {
  }

  /** What the row of a scope must be for a delivery to go out: absent, or known unsent with its time come. */
  predicate Eligible(ledger: Ledger, scope: Scope, desired: Fingerprint, snapshot: Fingerprint, checked: Time) {
    scope in ledger.actions ==>
      var a := ledger.actions[scope];
      && a.provider.Slack? && a.operation.PostNotification? && a.desired == desired && a.snapshot == snapshot
      && a.status in MayStart
      && (a.status.RetryableFailure? && a.reconcileNotBefore.Some? ==> a.reconcileNotBefore.value <= checked)
  }

  /** A call begins and reserves. */
  lemma Reserves(cfg: Config, s: Sys, c: CallId, f: ExecutionFence, scope: Scope, desired: Fingerprint,
                 snapshot: Fingerprint, reserved: Time, checked: Time)
    requires Inv(s) && c !in s.calls && FenceOpen(s.db, f, reserved)
    requires Eligible(s.ledger, scope, desired, snapshot, checked)
    ensures
      var after := RunEvents(cfg, s, [Begin(c, f, scope, desired, snapshot), Advance(c, reserved)]);
      var retried := scope in s.ledger.actions && s.ledger.actions[scope].status.RetryableFailure?;
      && Inv(after) && after.db == s.db && SlackRow(after, scope) && after.ledger.actions[scope].status in MayStart
      && Stands(after, c, f, scope, desired, if retried then CheckingDelay else VerifyingIdentity,
                after.ledger.actions[scope].status, s.posts)
      && (retried ==>
            after.ledger.actions[scope].reconcileNotBefore == s.ledger.actions[scope].reconcileNotBefore)
  {
    var begin := Begin(c, f, scope, desired, snapshot);
    var s1 := StepTo(cfg, s, begin);
    assert s1 == s.(calls := s.calls[c := Call(f, scope, desired, snapshot, Reserving, None, 0)]);
    ReservationLeadsTo(cfg, s1, c, reserved);
    ReservationKeeps(cfg, s1, c, reserved);
    var s2 := StepTo(cfg, s1, Advance(c, reserved));
    Two(cfg, s, begin, Advance(c, reserved));
  }

  /** A call that finds its row known unsent waits for its time. */
  lemma Waits(cfg: Config, s: Sys, c: CallId, f: ExecutionFence, scope: Scope, desired: Fingerprint,
              status: ActionStatus, checked: Time)
    requires Inv(s) && Stands(s, c, f, scope, desired, CheckingDelay, status, s.posts)
    requires
      s.ledger.actions[scope].reconcileNotBefore.Some? ==> s.ledger.actions[scope].reconcileNotBefore.value <= checked
    ensures
      var after := RunEvents(cfg, s, [Advance(c, checked)]);
      && Inv(after) && after.db == s.db && after.ledger == s.ledger
      && Stands(after, c, f, scope, desired, VerifyingIdentity, status, s.posts)
  {
    var after := StepTo(cfg, s, Advance(c, checked));
    DelayMeans(cfg, s, c, checked);
    Unroll(cfg, s, Advance(c, checked), []);
    assert [Advance(c, checked)] == [Advance(c, checked)] + [];
  }

  /** A call begins and gets to the identity check. */
  lemma BeginsAndReserves(cfg: Config, s: Sys, c: CallId, f: ExecutionFence, scope: Scope, desired: Fingerprint,
                          snapshot: Fingerprint, reserved: Time, checked: Time) returns (start: seq<Event>)
    requires Inv(s) && c !in s.calls && FenceOpen(s.db, f, reserved)
    requires Eligible(s.ledger, scope, desired, snapshot, checked)
    ensures
      start == [Begin(c, f, scope, desired, snapshot), Advance(c, reserved)]
               + (if scope in s.ledger.actions && s.ledger.actions[scope].status.RetryableFailure?
                  then [Advance(c, checked)] else [])
    ensures
      var ready := RunEvents(cfg, s, start);
      && Inv(ready) && ready.db == s.db && SlackRow(ready, scope) && ready.ledger.actions[scope].status in MayStart
      && Stands(ready, c, f, scope, desired, VerifyingIdentity, ready.ledger.actions[scope].status, s.posts)
  {
    var p := [Begin(c, f, scope, desired, snapshot), Advance(c, reserved)];
    Reserves(cfg, s, c, f, scope, desired, snapshot, reserved, checked);
    var s2 := RunEvents(cfg, s, p);
    if scope in s.ledger.actions && s.ledger.actions[scope].status.RetryableFailure? {
      Waits(cfg, s2, c, f, scope, desired, s2.ledger.actions[scope].status, checked);
      RunAppends(cfg, s, p, [Advance(c, checked)]);
      start := p + [Advance(c, checked)];
    } else {
      start := p + [];
      assert start == p;
    }
  }

  /** A reservation under an open fence leaves a Slack row, with the status and the not-before time it had. */
  lemma ReservationKeeps(cfg: Config, s: Sys, c: CallId, now: Time)
    requires c in s.calls && s.calls[c].pc.Reserving? && FenceOpen(s.db, s.calls[c].fence, now)
    requires s.calls[c].scope in s.ledger.actions ==>
               s.ledger.actions[s.calls[c].scope].provider.Slack?
               && s.ledger.actions[s.calls[c].scope].operation.PostNotification?
    ensures
      var after := Step(cfg, s, Advance(c, now));
      var scope := s.calls[c].scope;
      && c in after.calls && after.calls[c].fence == s.calls[c].fence && after.calls[c].scope == scope
      && after.calls[c].desired == s.calls[c].desired
      && SlackRow(after, scope)
      && (if scope in s.ledger.actions then
            && after.ledger.actions[scope].status == s.ledger.actions[scope].status
            && after.ledger.actions[scope].reconcileNotBefore == s.ledger.actions[scope].reconcileNotBefore
          else after.ledger.actions[scope].status == Reserved)
  {
  }

  lemma {:induction false} RunAppends(cfg: Config, s: Sys, first: seq<Event>, rest: seq<Event>)
    ensures RunEvents(cfg, s, first + rest) == RunEvents(cfg, RunEvents(cfg, s, first), rest)
    decreases |first|
  {
    if first == [] {
      assert first + rest == rest;
    } else {
      assert (first + rest)[1..] == first[1..] + rest;
      RunAppends(cfg, Step(cfg, s, first[0]), first[1..], rest);
    }
  }

  /**
   From every reachable state: undisturbed, the first delivery of a scope posts exactly one message and ends
   delivered; so does a later one whose row is known unsent, once its not-before time has come.
   */
  lemma Delivers(cfg: Config, events: seq<Event>, s: Sys, c: CallId, f: ExecutionFence, scope: Scope,
                 desired: Fingerprint, snapshot: Fingerprint, reserved: Time, checked: Time, started: Time,
                 e: Exchange, recorded: Time)
    returns (delivery: seq<Event>)
    requires s == RunEvents(cfg, EmptySys, events) && c !in s.calls && cfg.settlement >= 0
    requires FenceOpen(s.db, f, reserved) && FenceOpen(s.db, f, started) && FenceOpen(s.db, f, recorded)
    requires Eligible(s.ledger, scope, desired, snapshot, checked)
    requires SlackPost(e, cfg.channel, cfg.goodTimestamp, cfg.maximumBytes, cfg.maximumRetry).Receipt?
    ensures
      var retried := scope in s.ledger.actions && s.ledger.actions[scope].status.RetryableFailure?;
      delivery == [Begin(c, f, scope, desired, snapshot), Advance(c, reserved)]
                  + (if retried then [Advance(c, checked)] else [])
                  + ([IdentityChecked(c, Verified), Advance(c, started)] + [Send(c)])
                  + [Land(|s.posts|), Answer(c, e), Advance(c, recorded)]
    ensures
      var end := RunEvents(cfg, s, delivery);
      && Stands(end, c, f, scope, desired, Ended(Delivered), ActionSucceeded, s.posts + [Post(c, scope, TookEffect)])
      && end.ledger.actions[scope].resource == Some(|s.posts|) && end.ledger.actions[scope].applied == Some(desired)
  {
    RunKeeps(cfg, EmptySys, events);
    var start := BeginsAndReserves(cfg, s, c, f, scope, desired, snapshot, reserved, checked);
    var ready := RunEvents(cfg, s, start);
    var sending := OpensAndSends(cfg, ready, c, f, scope, desired, ready.ledger.actions[scope].status, started);
    var recording := [Land(|s.posts|), Answer(c, e), Advance(c, recorded)];
    LandsAndRecords(cfg, RunEvents(cfg, ready, sending), c, f, scope, desired, s.posts, e, recorded);
    RunAppends(cfg, s, start, sending);
    RunAppends(cfg, s, start + sending, recording);
    delivery := start + sending + recording;
  }
}
