/**
 Slack delivery as a state machine. Any number of deliver calls, of any tasks and workers, run at once; every await
 of a call is one event, and between any two events a call may be abandoned (crash, cancellation, ownership loss),
 the task tables and other ledger rows may change, and a message in flight may take effect. No event assumes
 anything about time or about how many tasks share a scope.
 */
module SlackDelivery {
  import opened Wrappers
  import opened TaskStore
  import opened ActionLedger
  import opened ProviderHttp

  datatype CallId = CallId(number: nat)

  datatype DeliveryState = Delivered | DeliveryRetryable | DeliveryUnknown | DeliveryPermanent | DeliveryReview

  datatype Identity = Verified | Mismatch | IdentityRetryable(retryAfter: Option<real>) | IdentityPermanent

  datatype Pc =
    | Reserving
    | ResolvingPrevious
    | CheckingDelay
    | VerifyingIdentity
    | RefusingIdentity(identity: Identity)
    | StartingWrite
    | Posting
    | AwaitingReply
    | Recording(outcome: PostOutcome)
    | Ended(state: DeliveryState)
    | Abandoned

  /** `post` is the message this call sent, once it has sent one. */
  datatype Call = Call(
    fence: ExecutionFence, scope: Scope, desired: Fingerprint, snapshot: Fingerprint, pc: Pc,
    action: Option<Action>, post: nat)

  datatype Fate = InFlight | TookEffect | NeverSent

  datatype Post = Post(call: CallId, scope: Scope, fate: Fate)

  /** `owner` names the call that opened the latest write of a scope. */
  datatype Sys = Sys(
    db: Db, ledger: Ledger, calls: map<CallId, Call>, posts: seq<Post>, owner: map<Scope, CallId>)

  datatype Config = Config(
    settlement: Time, channel: string, goodTimestamp: string -> bool, maximumBytes: nat, maximumRetry: real)

  datatype Event =
    | StoreStep(txn: Txn)
    | OtherAction(op: LedgerOp)
    | Begin(call: CallId, fence: ExecutionFence, scope: Scope, desired: Fingerprint, snapshot: Fingerprint)
    | Crash(call: CallId)
    | Advance(call: CallId, now: Time)
    | IdentityChecked(call: CallId, identity: Identity)
    | Send(call: CallId)
    | RefuseToSend(call: CallId, permanent: bool)
    | Land(post: nat)
    | Answer(call: CallId, exchange: Exchange)

  const EmptySys := Sys(EmptyDb, EmptyLedger, map[], [], map[])

  /** A ledger operation of another provider's handler. */
  predicate Foreign(ledger: Ledger, op: LedgerOp) {
    if op.ReserveOp? then !op.provider.Slack?
    else op.scope in ledger.actions && !ledger.actions[op.scope].provider.Slack?
  }

  /** The statuses from which a write may start. */
  const Startable: set<ActionStatus> := {Reserved, ReadyToExecute, RetryableFailure}

  function Micros(seconds: real): Time { (seconds * 1000000.0).Floor }

  /** Where a call goes after its reservation. */
  function Dispatch(kind: ReservationKind, status: ActionStatus): Pc {
    if kind.Changed? || kind.SourceDrift? then Ended(DeliveryReview)
    else
      match status
      case ActionSucceeded => Ended(Delivered)
      case OutcomeUnknown => Ended(DeliveryUnknown)
      case PermanentFailure => Ended(DeliveryPermanent)
      case NeedsHumanReview => Ended(DeliveryReview)
      case Executing => ResolvingPrevious
      case RetryableFailure => CheckingDelay
      case _ => VerifyingIdentity
  }

  function IdentityMove(identity: Identity): Move {
    match identity
    case IdentityRetryable(retryAfter) =>
      Move(Startable, RetryableFailure, "slack_identity_retryable_failure", true, false, None,
           Some("slack_identity_unavailable"), None, Some(Micros(KnownUnsentDelay(retryAfter))))
    case IdentityPermanent =>
      Move(Startable, PermanentFailure, "slack_identity_permanent_failure", true, true, None,
           Some("slack_auth_rejected"), None, None)
    case _ =>
      Move(Startable, NeedsHumanReview, "slack_identity_mismatch", true, true, None,
           Some("slack_identity_mismatch"), None, None)
  }

  function IdentityEnd(identity: Identity): DeliveryState {
    match identity
    case IdentityRetryable(_) => DeliveryRetryable
    case IdentityPermanent => DeliveryPermanent
    case _ => DeliveryReview
  }

  function StartMove(cfg: Config): Move {
    Move(Startable, Executing, "slack_write_started", false, false, None, None, Some(cfg.settlement), None)
  }

  const ResolveMove :=
    Plain({Executing}, OutcomeUnknown, "slack_previous_write_unresolved", Some("slack_manual_reconciliation_required"))

  /** What the call records for each outcome; the message identifier is the post's index. */
  function OutcomeMove(outcome: PostOutcome, call: Call): Move {
    match outcome
    case Receipt(_, _) =>
      Move({Executing}, ActionSucceeded, "slack_write_succeeded", false, false,
           Some(Evidence(call.post, None, call.post, call.desired)), None, None, None)
    case PostRetryable(retryAfter) =>
      Move({Executing}, RetryableFailure, "slack_retryable_failure", true, false, None, Some("slack_rate_limited"),
           None, Some(Micros(KnownUnsentDelay(retryAfter))))
    case PostPermanent =>
      Plain({Executing}, PermanentFailure, "slack_permanent_failure", Some("slack_write_rejected"))
    case _ =>
      Plain({Executing}, OutcomeUnknown, "slack_outcome_unknown", Some("slack_write_outcome_unknown"))
  }

  function OutcomeEnd(outcome: PostOutcome): DeliveryState {
    match outcome
    case Receipt(_, _) => Delivered
    case PostRetryable(_) => DeliveryRetryable
    case PostPermanent => DeliveryPermanent
    case _ => DeliveryUnknown
  }

  function Goto(s: Sys, c: CallId, pc: Pc): Sys
    requires c in s.calls
  {
    s.(calls := s.calls[c := s.calls[c].(pc := pc)])
  }

  /** One ledger transition; any refusal raises out of the call. */
  function MoveTo(s: Sys, c: CallId, m: Move, now: Time, pc: Pc): Sys
    requires c in s.calls
  {
    var call := s.calls[c];
    var (ledger, reply) := Transition(s.db, s.ledger, call.fence, call.scope, m, now);
    if reply.Done? then
      s.(ledger := ledger, calls := s.calls[c := call.(pc := pc, action := Some(reply.action))])
    else Goto(s, c, Abandoned)
  }

  function AdvanceCall(cfg: Config, s: Sys, c: CallId, now: Time): Sys
    requires c in s.calls
  {
    var call := s.calls[c];
    match call.pc
    case Reserving =>
      var (ledger, reply) :=
        Reserve(s.db, s.ledger, call.fence, Slack, PostNotification, call.scope, call.desired, call.snapshot, now);
      if reply.Done? then
        s.(ledger := ledger,
        calls := s.calls[c := call.(pc := Dispatch(reply.kind, reply.action.status), action := Some(reply.action))])
      else Goto(s, c, Abandoned)
    case ResolvingPrevious => MoveTo(s, c, ResolveMove, now, Ended(DeliveryUnknown))
    case CheckingDelay =>
      var notBefore := if call.scope in s.ledger.actions then s.ledger.actions[call.scope].reconcileNotBefore else None;
      Goto(s, c, if notBefore.Some? && notBefore.value > now then Ended(DeliveryRetryable) else VerifyingIdentity)
    case RefusingIdentity(identity) => MoveTo(s, c, IdentityMove(identity), now, Ended(IdentityEnd(identity)))
    case StartingWrite =>
      var after := MoveTo(s, c, StartMove(cfg), now, Posting);
      if after.calls[c].pc.Posting? then after.(owner := after.owner[call.scope := c]) else after
    case Recording(outcome) => MoveTo(s, c, OutcomeMove(outcome, call), now, Ended(OutcomeEnd(outcome)))
    case _ => s
  }

  /**
   The provider answers consistently: a message refused for a rate limit, or never transmitted, does not take
   effect, and a receipted one did. Nothing is assumed about answers that count as permanent.
   */
  function AnswerCall(cfg: Config, s: Sys, c: CallId, e: Exchange): Sys
    requires c in s.calls
  {
    var call := s.calls[c];
    var outcome := SlackPost(e, cfg.channel, cfg.goodTimestamp, cfg.maximumBytes, cfg.maximumRetry);
    if !call.pc.AwaitingReply? || call.post >= |s.posts| then s
    else
      var post := s.posts[call.post];
      var next := if outcome.PostUncaught? then Abandoned else Recording(outcome);
      if outcome.PostRetryable? then
        (if post.fate.InFlight? then Goto(s, c, next).(posts := s.posts[call.post := post.(fate := NeverSent)]) else s)
      else if outcome.Receipt? && !post.fate.TookEffect? then s
      else Goto(s, c, next)
  }

  ghost function Step(cfg: Config, s: Sys, ev: Event): Sys {
    match ev
    case StoreStep(txn) => s.(db := Apply(s.db, txn))
    case OtherAction(op) => if Foreign(s.ledger, op) then s.(ledger := Perform(s.db, s.ledger, op).0) else s
    case Begin(c, fence, scope, desired, snapshot) =>
      if c in s.calls then s
      else s.(calls := s.calls[c := Call(fence, scope, desired, snapshot, Reserving, None, 0)])
    case Crash(c) => if c in s.calls then Goto(s, c, Abandoned) else s
    case Advance(c, now) => if c in s.calls then AdvanceCall(cfg, s, c, now) else s
    case IdentityChecked(c, identity) =>
      if c in s.calls && s.calls[c].pc.VerifyingIdentity? then
        Goto(s, c, if identity.Verified? then StartingWrite else RefusingIdentity(identity))
      else s
    case Send(c) =>
      if c in s.calls && s.calls[c].pc.Posting? then
        var call := s.calls[c];
        s.(posts := s.posts + [Post(c, call.scope, InFlight)],
        calls := s.calls[c := call.(pc := AwaitingReply, post := |s.posts|)])
      else s
    case RefuseToSend(c, permanent) =>
      if c in s.calls && s.calls[c].pc.Posting? then
        Goto(s, c, Recording(if permanent then PostPermanent else PostRetryable(None)))
      else s
    case Land(i) =>
      if i < |s.posts| && s.posts[i].fate.InFlight? then
        s.(posts := s.posts[i := s.posts[i].(fate := TookEffect)])
      else s
    case Answer(c, e) => if c in s.calls then AnswerCall(cfg, s, c, e) else s
  }

  ghost function RunEvents(cfg: Config, s: Sys, events: seq<Event>): Sys
    decreases |events|
  {
    if events == [] then s else RunEvents(cfg, Step(cfg, s, events[0]), events[1..])
  }
}
