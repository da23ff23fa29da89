/**
 What a call does with its row and with the comments it reads, event by event, said of their columns; and that
 undisturbed it creates the comment of a new scope and updates the comment of a revised one.
 */
module GitHubOutcomes {
  import opened Wrappers
  import opened TaskDomain
  import opened TaskStore
  import opened ActionLedger
  import opened LedgerOutcomes
  import opened ProviderHttp
  import opened GitHubApply
  import opened GitHubInvariant
  import opened GitHubLimits
  import opened GitHubContents

  // ---------------------------------------------------------------- reading comments

  /** The comment has landed on the scope, exists, and carries the marker. */
  predicate Shows(s: Sys, scope: Scope, i: int) {
    0 <= i < |s.comments| && s.comments[i].scope == scope && s.comments[i].fate == Landed && s.comments[i].marked
  }

  /** The one comment that a read by this call turns up: the bound one, or the only one a search finds. */
  ghost predicate Reads(s: Sys, c: CallId, i: int)
    requires c in s.calls && s.calls[c].action.Some?
  {
    var call := s.calls[c];
    if call.pc == ReadingBound then
      call.action.value.resource == Some(i) && 0 <= i < |s.comments| && s.comments[i].marked
    else Shows(s, call.scope, i) && forall j | Shows(s, call.scope, j) :: j == i
  }

  /** A controlled revision: the row is past its first, and what was applied is not what is asked for. */
  predicate Controlled(call: Call)
    requires call.action.Some?
  {
    var a := call.action.value;
    a.revision > 1 && a.applied.Some? && a.applied.value != call.desired
  }

  lemma SearchTakesTheOne(s: Sys, c: CallId, i: nat)
    requires c in s.calls && s.calls[c].action.Some? && s.calls[c].pc.Searching?
    requires Reads(s, c, i)
    ensures ReadCall(s, c, ReadOk)
         == Goto(s, c, Found(s.calls[c], s.calls[c].action.value, i, s.comments[i].body))
  {
    assert Visible(s, s.calls[c].scope, i);
    forall j: nat | Visible(s, s.calls[c].scope, j) ensures j == i { assert Shows(s, s.calls[c].scope, j); }
  }

  lemma SearchFindsSeveral(s: Sys, c: CallId, i: nat, j: nat)
    requires c in s.calls && s.calls[c].action.Some? && s.calls[c].pc.Searching?
    requires i != j && Shows(s, s.calls[c].scope, i) && Shows(s, s.calls[c].scope, j)
    ensures ReadCall(s, c, ReadOk) == Goto(s, c, SendingToReview(false))
  {
    assert Visible(s, s.calls[c].scope, i) && Visible(s, s.calls[c].scope, j);
  }

  lemma SearchFindsNone(s: Sys, c: CallId)
    requires c in s.calls && s.calls[c].action.Some? && s.calls[c].pc.Searching?
    requires forall i :: !Shows(s, s.calls[c].scope, i)
    ensures ReadCall(s, c, ReadOk) == Goto(s, c, MarkingReady)
  {
    forall i: nat ensures !Visible(s, s.calls[c].scope, i) { assert !Shows(s, s.calls[c].scope, i); }
  }

  /** What a comment with these contents leads to. */
  predicate LeadsTo(call: Call, i: int, body: Fingerprint, pc: Pc)
    requires call.action.Some?
  {
    if body == call.desired then pc == Adopting(i)
    else if Controlled(call) then pc == MarkingReady
    else pc == SendingToReview(true)
  }

  lemma ReadBoundMeans(s: Sys, c: CallId)
    requires c in s.calls && s.calls[c].action.Some? && s.calls[c].pc == ReadingBound
    ensures
      var pc := ReadCall(s, c, ReadOk).calls[c].pc;
      && ReadCall(s, c, ReadOk) == Goto(s, c, pc)
      && (forall i | Reads(s, c, i) :: LeadsTo(s.calls[c], i, s.comments[i].body, pc))
      && ((forall i :: !Reads(s, c, i)) ==> pc == SendingToReview(false))
  {
    var resource := s.calls[c].action.value.resource;
    if resource.Some? && 0 <= resource.value < |s.comments| && s.comments[resource.value].marked {
      assert Reads(s, c, resource.value);
    }
  }

  lemma SearchMeans(s: Sys, c: CallId)
    requires c in s.calls && s.calls[c].action.Some? && s.calls[c].pc == Searching
    ensures
      var pc := ReadCall(s, c, ReadOk).calls[c].pc;
      && ReadCall(s, c, ReadOk) == Goto(s, c, pc)
      && (forall i | Reads(s, c, i) :: LeadsTo(s.calls[c], i, s.comments[i].body, pc))
      && ((forall i :: !Reads(s, c, i)) ==>
            pc == if forall i :: !Shows(s, s.calls[c].scope, i) then MarkingReady else SendingToReview(false))
  {
    var scope := s.calls[c].scope;
    if i :| Reads(s, c, i) {
      SearchTakesTheOne(s, c, i);
      forall j | Reads(s, c, j) ensures j == i { assert Shows(s, scope, j); }
    } else if i :| Shows(s, scope, i) {
      assert !Reads(s, c, i);
      var j :| Shows(s, scope, j) && j != i;
      SearchFindsSeveral(s, c, i, j);
    } else {
      SearchFindsNone(s, c);
    }
  }

  /**
   What a read that came through leads to. One comment with the contents asked for is adopted; one with other
   contents is overwritten by a controlled revision and reviewed otherwise; none lets a search go on to the write
   but sends a bound row to review; several are reviewed.
   */
  lemma ReadMeans(cfg: Config, s: Sys, c: CallId)
    requires c in s.calls && s.calls[c].action.Some? && (s.calls[c].pc == ReadingBound || s.calls[c].pc == Searching)
    ensures
      var call := s.calls[c];
      var after := Step(cfg, s, ReadComments(c, ReadOk));
      && c in after.calls && after == s.(calls := s.calls[c := call.(pc := after.calls[c].pc)])
      && (forall i | Reads(s, c, i) ::
            after.calls[c].pc == if s.comments[i].body == call.desired then Adopting(i)
                                 else if Controlled(call) then MarkingReady
                                 else SendingToReview(true))
      && ((forall i :: !Reads(s, c, i)) ==>
            after.calls[c].pc
            == if call.pc == Searching && forall i :: !Shows(s, call.scope, i) then MarkingReady
               else SendingToReview(false))
  {
    var pc := ReadCall(s, c, ReadOk).calls[c].pc;
    if s.calls[c].pc == Searching { SearchMeans(s, c); } else { ReadBoundMeans(s, c); }
    forall i | Reads(s, c, i)
      ensures pc == if s.comments[i].body == s.calls[c].desired then Adopting(i)
                    else if Controlled(s.calls[c]) then MarkingReady
                    else SendingToReview(true)
    {
      assert LeadsTo(s.calls[c], i, s.comments[i].body, pc);
    }
  }

  /** Adoption needs exactly one comment with exactly the contents asked for. */
  lemma AdoptsIff(cfg: Config, s: Sys, c: CallId, i: int)
    requires c in s.calls && s.calls[c].action.Some? && (s.calls[c].pc == ReadingBound || s.calls[c].pc == Searching)
    ensures Step(cfg, s, ReadComments(c, ReadOk)).calls[c].pc == Adopting(i)
       <==> Reads(s, c, i) && s.comments[i].body == s.calls[c].desired
  {
    ReadMeans(cfg, s, c);
  }

  /** A write follows a read exactly when a search found nothing, or a controlled revision found other contents. */
  lemma WritesIff(cfg: Config, s: Sys, c: CallId)
    requires c in s.calls && s.calls[c].action.Some? && (s.calls[c].pc == ReadingBound || s.calls[c].pc == Searching)
    ensures Step(cfg, s, ReadComments(c, ReadOk)).calls[c].pc == MarkingReady
       <==> || (s.calls[c].pc == Searching && forall i :: !Shows(s, s.calls[c].scope, i))
            || (Controlled(s.calls[c]) && exists i :: Reads(s, c, i) && s.comments[i].body != s.calls[c].desired)
  {
    ReadMeans(cfg, s, c);
    if i :| Shows(s, s.calls[c].scope, i) {}
  }

  /** Reads that did not come through, and the check of the bound comment before a revision. */
  lemma OtherReadsMean(cfg: Config, s: Sys, c: CallId, read: Read)
    requires c in s.calls && s.calls[c].action.Some?
    ensures
      var call := s.calls[c];
      var resource := call.action.value.resource;
      var after := Step(cfg, s, ReadComments(c, read));
      && after.ledger == s.ledger && after.comments == s.comments && c in after.calls
      && (call.pc == ReadingBound ==>
            && (read.ReadRetryable? ==> after.calls[c].pc == FailingRead)
            && (read.ReadIncomplete? || read.ReadRejected? ==> after.calls[c].pc == Abandoned))
      && (call.pc == Searching ==>
            && (read.ReadRetryable? ==> after.calls[c].pc == FailingRead)
            && (read.ReadIncomplete? ==> after.calls[c].pc == SendingToReview(false))
            && (read.ReadRejected? ==> after.calls[c].pc == Abandoned))
      && (call.pc == CheckingBound ==>
            after.calls[c].pc
            == if !read.ReadOk? then Abandoned
               else if resource.Some? && 0 <= resource.value < |s.comments| && s.comments[resource.value].marked
               then Revising
               else Ended(Review))
  {
  }

  // ---------------------------------------------------------------- the row

  /** Where a row lets reconciliation go on: the bound comment, the holdoff of an earlier write, or the search. */
  predicate GoesOn(a: Action, pc: Pc) {
    match (a.resource, a.reconcileNotBefore)
    case (Some(_), _) => pc == ReadingBound
    case (None, Some(_)) => pc == HoldingOff
    case (None, None) => pc == Searching
  }

  /** Where a reserved call goes, by the columns of the row it found. */
  lemma ReservationLeadsTo(cfg: Config, s: Sys, c: CallId)
    requires c in s.calls && s.calls[c].pc.Reserving? && (cfg.exclusive ==> NoRival(s, c))
    ensures
      var call := s.calls[c];
      var after := Step(cfg, s, Advance(c));
      && c in after.calls && after.comments == s.comments && after.updates == s.updates && after.db == s.db
      && var pc := after.calls[c].pc;
      && if !FenceOpen(s.db, call.fence, s.clock) then pc == Abandoned && after.ledger == s.ledger
         else if call.scope !in s.ledger.actions then
           && pc == StartingReconciliation && call.scope in after.ledger.actions
           && Fresh(after.ledger.actions[call.scope], GitHub, UpsertComment, call.desired, call.snapshot, s.clock)
           && after.calls[c].action == Some(after.ledger.actions[call.scope])
         else
           var a := s.ledger.actions[call.scope];
           if !a.provider.GitHub? || !a.operation.UpsertComment? then pc == Abandoned && after.ledger == s.ledger
           else
             && call.scope in after.ledger.actions && after.calls[c].action == Some(after.ledger.actions[call.scope])
             && after.ledger.actions[call.scope] == a.(taskId := call.fence.taskId,
                                                       attemptNumber := call.fence.attemptNumber,
                                                       sequence := a.sequence + 1, updatedAt := s.clock)
             && if a.desired != call.desired then
                  pc == if call.mayUpdate && a.status == ActionSucceeded && a.resource.Some? then CheckingBound
                        else Ended(Review)
                else if a.snapshot != call.snapshot then pc == Ended(Review)
                else
                  match a.status
                  case ActionSucceeded => pc == Ended(Replayed)
                  case NeedsHumanReview => pc == Ended(Review)
                  case PermanentFailure => pc == Ended(Review)
                  case Reconciling => GoesOn(a, pc)
                  case ReadyToExecute => GoesOn(a, pc)
                  case _ => pc == StartingReconciliation
  {
    var call := s.calls[c];
    ReservationMeans(s.db, s.ledger, call.fence, GitHub, UpsertComment, call.scope, call.desired, call.snapshot,
                     s.clock);
  }

  /** A transition of the call: under an open fence and an expected status the row moves; else the call raises. */
  ghost predicate RowMoves(s: Sys, after: Sys, c: CallId, from: set<ActionStatus>, to: ActionStatus,
                           error: Option<string>)
    requires c in s.calls
  {
    var call := s.calls[c];
    && c in after.calls && after.comments == s.comments && after.updates == s.updates && after.db == s.db
    && after.clock == s.clock
    && after.calls[c] == call.(pc := after.calls[c].pc, action := after.calls[c].action)
    && if FenceOpen(s.db, call.fence, s.clock) && call.scope in s.ledger.actions
          && s.ledger.actions[call.scope].status in from
       then
         && call.scope in after.ledger.actions && !after.calls[c].pc.Abandoned?
         && after.calls[c].action == Some(after.ledger.actions[call.scope])
         && var a, row := s.ledger.actions[call.scope], after.ledger.actions[call.scope];
         && row.status == to && row.errorCode == error && row.updatedAt == s.clock
         && row.desired == a.desired && row.snapshot == a.snapshot && row.revision == a.revision
         && row.provider == a.provider && row.operation == a.operation && row.sequence == a.sequence + 1
       else after.calls[c].pc == Abandoned && after.ledger == s.ledger
  }

  /** The evidence columns stay. */
  predicate KeepsEvidence(a: Action, row: Action) {
    && row.resource == a.resource && row.applied == a.applied && row.reconcileNotBefore == a.reconcileNotBefore
    && row.writeStartedAt == a.writeStartedAt
  }

  ghost predicate GoodRow(s: Sys, c: CallId)
    requires c in s.calls
  {
    GitHubRow(s, s.calls[c].scope) && Sound(s.ledger.actions[s.calls[c].scope])
  }

  /** A transition that cannot break a constraint moves the row exactly as it says. */
  lemma MoveMeans(s: Sys, c: CallId, m: Move, pc: Pc)
    requires c in s.calls && GoodRow(s, c) && GoodDelays(m) && !m.clearWriteStarted && !pc.Abandoned?
    requires ActionSucceeded !in m.expected && (m.status.ActionSucceeded? ==> m.evidence.Some?)
    requires m.status.OutcomeUnknown? ==> m.expected == {Executing}
    ensures
      var after := MoveTo(s, c, m, pc);
      var scope := s.calls[c].scope;
      && RowMoves(s, after, c, m.expected, m.status, m.errorCode)
      && (!after.calls[c].pc.Abandoned? ==>
            && after.calls[c].pc == pc
            && MovedTo(s.ledger.actions[scope], after.ledger.actions[scope], m, s.clock))
  {
    var call := s.calls[c];
    TransitionMeans(s.db, s.ledger, call.fence, call.scope, m, s.clock);
    NothingViolated(s, c, m);
    var (ledger, reply) := Transition(s.db, s.ledger, call.fence, call.scope, m, s.clock);
    if reply.Done? {
      DoneMoves(s, c, m, pc, ledger, reply.action);
    }
  }

  lemma DoneMoves(s: Sys, c: CallId, m: Move, pc: Pc, ledger: Ledger, row: Action)
    requires c in s.calls && s.calls[c].scope in s.ledger.actions && !pc.Abandoned?
    requires FenceOpen(s.db, s.calls[c].fence, s.clock) && s.ledger.actions[s.calls[c].scope].status in m.expected
    requires MovedTo(s.ledger.actions[s.calls[c].scope], row, m, s.clock)
    requires ledger.actions == s.ledger.actions[s.calls[c].scope := row]
    requires row.sequence == s.ledger.actions[s.calls[c].scope].sequence + 1
    ensures RowMoves(s, Took(s, c, ledger, row, pc), c, m.expected, m.status, m.errorCode)
  {
  }

  lemma NothingViolated(s: Sys, c: CallId, m: Move)
    requires c in s.calls && GoodRow(s, c)
    requires ActionSucceeded !in m.expected && (m.status.ActionSucceeded? ==> m.evidence.Some?) && !m.clearWriteStarted
    requires m.status.OutcomeUnknown? ==> m.expected == {Executing}
    ensures !Transition(s.db, s.ledger, s.calls[c].fence, s.calls[c].scope, m, s.clock).1.CheckViolated?
  {
  }

  lemma StartMeans(cfg: Config, s: Sys, c: CallId)
    requires c in s.calls && s.calls[c].pc == StartingReconciliation && s.calls[c].action.Some? && GoodRow(s, c)
    ensures
      var after := Step(cfg, s, Advance(c));
      var scope := s.calls[c].scope;
      && RowMoves(s, after, c, {Reserved, RetryableFailure, OutcomeUnknown, Executing}, Reconciling, None)
      && (!after.calls[c].pc.Abandoned? ==>
            && KeepsEvidence(s.ledger.actions[scope], after.ledger.actions[scope])
            && GoesOn(after.ledger.actions[scope], after.calls[c].pc))
  {
    StartIsMove(s, c);
    MoveMeans(s, c, StartMove, StartPc(s, s.calls[c].scope));
  }

  /** The holdoff is over exactly from the row's not-before time on. */
  lemma HoldoffMeans(cfg: Config, s: Sys, c: CallId)
    requires c in s.calls && s.calls[c].pc == HoldingOff && s.calls[c].action.Some? && GoodRow(s, c)
    ensures
      var after := Step(cfg, s, Advance(c));
      var notBefore := s.ledger.actions[s.calls[c].scope].reconcileNotBefore;
      && after.ledger == s.ledger && c in after.calls
      && after.calls[c].pc == (if notBefore.Some? && s.clock < notBefore.value then FailingRead else Searching)
  {
  }

  lemma FailuresMean(cfg: Config, s: Sys, c: CallId)
    requires c in s.calls && s.calls[c].action.Some? && GoodRow(s, c)
    requires s.calls[c].pc == FailingRead || s.calls[c].pc.SendingToReview?
    ensures
      var after := Step(cfg, s, Advance(c));
      var scope := s.calls[c].scope;
      && (s.calls[c].pc == FailingRead ==>
            && RowMoves(s, after, c, {Reconciling}, RetryableFailure, Some("provider_read_retryable"))
            && (!after.calls[c].pc.Abandoned? ==> after.calls[c].pc == Ended(Raised)))
      && (s.calls[c].pc.SendingToReview? ==>
            && RowMoves(s, after, c, {Reconciling}, NeedsHumanReview, Some("reconciliation_inconclusive"))
            && (!after.calls[c].pc.Abandoned? ==> after.calls[c].pc == Ended(Review)))
      && (!after.calls[c].pc.Abandoned? ==> KeepsEvidence(s.ledger.actions[scope], after.ledger.actions[scope]))
  {
    match s.calls[c].pc
    case FailingRead => MoveMeans(s, c, FailReadMove, Ended(Raised));
    case SendingToReview(mismatch) => MoveMeans(s, c, ReviewMove(mismatch), Ended(Review));
  }

  lemma ReadyMeans(cfg: Config, s: Sys, c: CallId)
    requires c in s.calls && s.calls[c].pc == MarkingReady && s.calls[c].action.Some? && GoodRow(s, c)
    ensures
      var after := Step(cfg, s, Advance(c));
      var scope := s.calls[c].scope;
      && RowMoves(s, after, c, {Reconciling}, ReadyToExecute, None)
      && (!after.calls[c].pc.Abandoned? ==>
            && after.calls[c].pc == StartingWrite
            && KeepsEvidence(s.ledger.actions[scope], after.ledger.actions[scope]))
  {
    MoveMeans(s, c, ReadyMove, StartingWrite);
  }

  /** Opening the write: its start and its settlement deadline are on the row before anything is sent. */
  lemma WriteMeans(cfg: Config, s: Sys, c: CallId)
    requires c in s.calls && s.calls[c].pc == StartingWrite && s.calls[c].action.Some? && GoodRow(s, c)
    requires cfg.settlement >= 0
    ensures
      var after := Step(cfg, s, Advance(c));
      var scope := s.calls[c].scope;
      && RowMoves(s, after, c, {ReadyToExecute}, Executing, None)
      && (!after.calls[c].pc.Abandoned? ==>
            && after.calls[c].pc == Writing
            && var a, row := s.ledger.actions[scope], after.ledger.actions[scope];
            && row.resource == a.resource && row.applied == a.applied
            && row.writeStartedAt == Some(s.clock) && row.reconcileNotBefore == Some(s.clock + cfg.settlement))
  {
    MoveMeans(s, c, WriteMove(cfg), Writing);
  }

  /** An unbound call sends a create with its row's deadline, a bound one an update of its comment. */
  lemma SendMeans(cfg: Config, s: Sys, c: CallId)
    requires c in s.calls && s.calls[c].pc == Writing && s.calls[c].action.Some?
    ensures
      var call := s.calls[c];
      var after := Step(cfg, s, Send(c));
      && after.ledger == s.ledger && after.db == s.db && after.clock == s.clock && c in after.calls
      && match (call.action.value.resource, call.action.value.reconcileNotBefore)
         case (None, Some(deadline)) =>
           && after.calls[c] == call.(pc := AwaitingReply, request := |s.comments|) && after.updates == s.updates
           && after.comments
              == s.comments + [Comment(call.scope, deadline, InFlight, call.desired, true, [call.desired])]
         case (Some(i), _) =>
           i >= 0 ==>
             && after.calls[c] == call.(pc := AwaitingReply, request := |s.updates|) && after.comments == s.comments
             && after.updates == s.updates + [Update(i, call.desired, InFlight)]
         case _ => after == s
  {
  }

  /** An answer that the provider can give moves the call to its outcome; an uncaught failure abandons it. */
  lemma AnswerMeans(cfg: Config, s: Sys, c: CallId, e: Exchange)
    requires c in s.calls && s.calls[c].pc == AwaitingReply && s.calls[c].action.Some?
    ensures
      var outcome := GitHubWrite(e, cfg.goodUrl, cfg.goodTime, cfg.maximumBytes, cfg.maximumRetry);
      var after := Step(cfg, s, Answer(c, e));
      (outcome.Written? ==> Confirms(s, s.calls[c], outcome.comment)) ==>
        after == s.(calls := s.calls[c := s.calls[c].(
                                       pc := if e.OtherFailure? then Abandoned else Recording(outcome))])
  {
  }

  /** What is recorded of each outcome; a success names its comment, what was applied, and when it was completed. */
  lemma RecordingMeans(cfg: Config, s: Sys, c: CallId, outcome: WriteOutcome)
    requires c in s.calls && s.calls[c].pc == Recording(outcome) && s.calls[c].action.Some? && GoodRow(s, c)
    ensures
      var call := s.calls[c];
      var after := Step(cfg, s, Advance(c));
      && (match outcome
          case Written(_) => RowMoves(s, after, c, {Executing}, ActionSucceeded, None)
          case WriteRetryable(_) => RowMoves(s, after, c, {Executing}, RetryableFailure, Some("github_rate_limited"))
          case WritePermanent => RowMoves(s, after, c, {Executing}, PermanentFailure, Some("github_write_rejected"))
          case _ => RowMoves(s, after, c, {Executing}, OutcomeUnknown, Some("github_write_outcome_unknown")))
      && (!after.calls[c].pc.Abandoned? ==>
            && after.calls[c].pc == Ended(if outcome.Written? then Confirmed else Raised)
            && var a, row := s.ledger.actions[call.scope], after.ledger.actions[call.scope];
            && row.reconcileNotBefore == a.reconcileNotBefore && row.writeStartedAt == a.writeStartedAt
            && (if outcome.Written? then
                  row.resource == Some(outcome.comment) && row.applied == Some(call.desired)
                  && row.completedAt == Some(s.clock)
                else row.resource == a.resource && row.applied == a.applied))
  {
    MoveMeans(s, c, OutcomeMove(s.calls[c], outcome), Ended(if outcome.Written? then Confirmed else Raised));
  }

  lemma AdoptingMeans(cfg: Config, s: Sys, c: CallId, i: Resource)
    requires c in s.calls && s.calls[c].pc == Adopting(i) && s.calls[c].action.Some? && GoodRow(s, c)
    ensures
      var after := Step(cfg, s, Advance(c));
      var scope := s.calls[c].scope;
      && RowMoves(s, after, c, {Reconciling}, ActionSucceeded, None)
      && (!after.calls[c].pc.Abandoned? ==>
            && after.calls[c].pc == Ended(Confirmed)
            && after.ledger.actions[scope].resource == Some(i)
            && after.ledger.actions[scope].applied == Some(s.calls[c].desired)
            && after.ledger.actions[scope].completedAt == Some(s.clock))
  {
    MoveMeans(s, c, SuccessMove(s.calls[c], i, Reconciling, "reconciled_succeeded"), Ended(Confirmed));
  }

  /** A revision takes the new request, keeps the binding, and starts reconciliation again. */
  lemma RevisingMeans(cfg: Config, s: Sys, c: CallId)
    requires c in s.calls && s.calls[c].pc == GitHubApply.Revising && s.calls[c].action.Some?
    requires GitHubRow(s, s.calls[c].scope)
    ensures
      var call := s.calls[c];
      var a := s.ledger.actions[call.scope];
      var after := Step(cfg, s, Advance(c));
      && c in after.calls && after.comments == s.comments && after.updates == s.updates && after.db == s.db
      && after.clock == s.clock
      && after.calls[c] == call.(pc := after.calls[c].pc, action := after.calls[c].action)
      && if FenceOpen(s.db, call.fence, s.clock) && a.status == ActionSucceeded && a.resource.Some?
            && a.revision == call.action.value.revision
         then
           && after.calls[c].pc == StartingReconciliation && call.scope in after.ledger.actions
           && after.calls[c].action == Some(after.ledger.actions[call.scope])
           && Revised(a, after.ledger.actions[call.scope], call.desired, call.snapshot, s.clock)
         else after.calls[c].pc == Abandoned && after.ledger == s.ledger
  {
    var call := s.calls[c];
    RevisionMeans(s.db, s.ledger, call.fence, call.scope, call.action.value.revision, call.desired, call.snapshot,
                  s.clock);
  }
}
