/**
 Undisturbed, a call does what it is for: from every reachable state it creates the comment of a new scope, and a
 controlled revision overwrites the bound comment with the contents asked for.
 */
module GitHubProgress {
  import opened Wrappers
  import opened TaskDomain
  import opened TaskStore
  import opened ActionLedger
  import opened LedgerOutcomes
  import opened ProviderHttp
  import opened GitHubApply
  import opened GitHubInvariant
  import opened GitHubLimits
  import opened GitHubContents
  import opened GitHubOutcomes

  /** The call stands at `pc` with the row in hand, in the tables and at the clock of `t`, its fence open. */
  ghost predicate Stands(s: Sys, t: Sys, c: CallId, scope: Scope, desired: Fingerprint, pc: Pc, status: ActionStatus) {
    && s.db == t.db && s.clock == t.clock && Checked(s) && c in s.calls
    && s.calls[c].scope == scope && s.calls[c].desired == desired && s.calls[c].pc == pc
    && FenceOpen(s.db, s.calls[c].fence, s.clock)
    && GitHubRow(s, scope) && s.ledger.actions[scope].status == status
    && s.calls[c].action == Some(s.ledger.actions[scope])
  }

  /** The row is not bound and holds nothing off. */
  predicate Blank(s: Sys, scope: Scope) {
    && scope in s.ledger.actions && s.ledger.actions[scope].resource.None?
    && s.ledger.actions[scope].reconcileNotBefore.None?
  }

  /** The row is bound to comment i, which shows other contents, and was last applied with other contents. */
  predicate Outdated(s: Sys, scope: Scope, i: int, desired: Fingerprint) {
    && scope in s.ledger.actions && 0 <= i < |s.comments|
    && s.ledger.actions[scope].resource == Some(i)
    && s.ledger.actions[scope].applied.Some? && s.ledger.actions[scope].applied.value != desired
    && s.comments[i].fate == Landed && s.comments[i].marked && s.comments[i].body != desired
  }

  lemma Unroll(cfg: Config, s: Sys, ev: Event, rest: seq<Event>)
    ensures RunEvents(cfg, s, [ev] + rest) == RunEvents(cfg, Step(cfg, s, ev), rest)
  {
    assert ([ev] + rest)[1..] == rest;
  }

  lemma Two(cfg: Config, s: Sys, e1: Event, e2: Event)
    ensures RunEvents(cfg, s, [e1, e2]) == Step(cfg, Step(cfg, s, e1), e2)
  {
    Unroll(cfg, s, e1, [e2]);
    Unroll(cfg, Step(cfg, s, e1), e2, []);
    assert [e1, e2] == [e1] + [e2] && [e2] == [e2] + [];
  }

  lemma {:induction false} RunAppends(cfg: Config, s: Sys, first: seq<Event>, rest: seq<Event>)
    ensures RunEvents(cfg, s, first + rest) == RunEvents(cfg, RunEvents(cfg, s, first), rest)
    decreases |first|
  {
    if first == [] {
      assert first + rest == rest;
    } else {
      assert (first + rest)[1..] == first[1..] + rest;
      RunAppends(cfg, Step(cfg, s, first[0]), first[1..], rest);
    }
  }

  lemma StepTo(cfg: Config, s: Sys, ev: Event) returns (after: Sys)
    requires Checked(s)
    ensures after == Step(cfg, s, ev) && Checked(after)
  {
    StepChecked(cfg, s, ev);
    after := Step(cfg, s, ev);
  }

  // ---------------------------------------------------------------- the steps shared by both

  /** Reconciliation opens and goes on as the row allows. */
  lemma Starts(cfg: Config, s: Sys, t: Sys, c: CallId, scope: Scope, desired: Fingerprint)
    requires Stands(s, t, c, scope, desired, StartingReconciliation, Reserved)
    ensures
      var after := Step(cfg, s, Advance(c));
      && c in after.calls && GoesOn(s.ledger.actions[scope], after.calls[c].pc)
      && Stands(after, t, c, scope, desired, after.calls[c].pc, Reconciling)
      && after.comments == s.comments && after.updates == s.updates
      && KeepsEvidence(s.ledger.actions[scope], after.ledger.actions[scope])
      && after.ledger.actions[scope].revision == s.ledger.actions[scope].revision
  {
    var after := StepTo(cfg, s, Advance(c));
    StartMeans(cfg, s, c);
  }

  lemma Marks(cfg: Config, s: Sys, t: Sys, c: CallId, scope: Scope, desired: Fingerprint)
    requires Stands(s, t, c, scope, desired, MarkingReady, Reconciling)
    ensures
      var after := Step(cfg, s, Advance(c));
      && Stands(after, t, c, scope, desired, StartingWrite, ReadyToExecute)
      && after.comments == s.comments && after.updates == s.updates
      && after.ledger.actions[scope].resource == s.ledger.actions[scope].resource
  {
    var after := StepTo(cfg, s, Advance(c));
    ReadyMeans(cfg, s, c);
  }

  lemma OpensWrite(cfg: Config, s: Sys, t: Sys, c: CallId, scope: Scope, desired: Fingerprint)
    requires Stands(s, t, c, scope, desired, StartingWrite, ReadyToExecute) && cfg.settlement > 0
    ensures
      var after := Step(cfg, s, Advance(c));
      && Stands(after, t, c, scope, desired, Writing, Executing)
      && after.comments == s.comments && after.updates == s.updates
      && after.ledger.actions[scope].resource == s.ledger.actions[scope].resource
      && after.ledger.actions[scope].reconcileNotBefore == Some(t.clock + cfg.settlement)
  {
    var after := StepTo(cfg, s, Advance(c));
    WriteMeans(cfg, s, c);
  }

  /** "No match" is marked and the write opens, with its deadline after now. */
  lemma Opens(cfg: Config, s: Sys, t: Sys, c: CallId, scope: Scope, desired: Fingerprint)
    requires Stands(s, t, c, scope, desired, MarkingReady, Reconciling) && cfg.settlement > 0
    ensures
      var after := RunEvents(cfg, s, [Advance(c), Advance(c)]);
      && Stands(after, t, c, scope, desired, Writing, Executing)
      && after.comments == s.comments && after.updates == s.updates
      && after.ledger.actions[scope].resource == s.ledger.actions[scope].resource
      && after.ledger.actions[scope].reconcileNotBefore == Some(t.clock + cfg.settlement)
  {
    Marks(cfg, s, t, c, scope, desired);
    OpensWrite(cfg, Step(cfg, s, Advance(c)), t, c, scope, desired);
    Two(cfg, s, Advance(c), Advance(c));
  }

  /** An answer that confirms comment i is recorded. */
  lemma Records(cfg: Config, s: Sys, t: Sys, c: CallId, scope: Scope, desired: Fingerprint, e: Exchange, i: int)
    requires Stands(s, t, c, scope, desired, AwaitingReply, Executing) && Confirms(s, s.calls[c], i)
    requires GitHubWrite(e, cfg.goodUrl, cfg.goodTime, cfg.maximumBytes, cfg.maximumRetry) == Written(i)
    ensures
      var end := RunEvents(cfg, s, [Answer(c, e), Advance(c)]);
      && Stands(end, t, c, scope, desired, Ended(Confirmed), ActionSucceeded)
      && end.comments == s.comments && end.updates == s.updates
      && end.ledger.actions[scope].resource == Some(i) && end.ledger.actions[scope].applied == Some(desired)
  {
    var s1 := StepTo(cfg, s, Answer(c, e));
    assert s1 == Goto(s, c, Recording(Written(i)));
    var s2 := StepTo(cfg, s1, Advance(c));
    RecordingMeans(cfg, s1, c, Written(i));
    Two(cfg, s, Answer(c, e), Advance(c));
  }

  // ---------------------------------------------------------------- the first comment of a scope

  /** A call begins and reserves a scope that has no row. */
  lemma ReservesFirst(cfg: Config, s: Sys, c: CallId, begin: Event)
    requires Checked(s) && Beginner(cfg, s, c, begin) && begin.scope !in s.ledger.actions
    ensures
      var after := RunEvents(cfg, s, [begin, Advance(c)]);
      && Stands(after, s, c, begin.scope, begin.desired, StartingReconciliation, Reserved) && Blank(after, begin.scope)
      && after.comments == s.comments && after.updates == s.updates
  {
    var s1 := StepTo(cfg, s, begin);
    BeginsReserving(cfg, s, c, begin);
    var s2 := StepTo(cfg, s1, Advance(c));
    ReservationLeadsTo(cfg, s1, c);
    ReservingKeepsCall(cfg, s1, c);
    Two(cfg, s, begin, Advance(c));
  }

  /** A new call under an open fence of its own, on a scope that nobody drives. */
  ghost predicate Beginner(cfg: Config, s: Sys, c: CallId, begin: Event) {
    && begin.Begin? && begin.call == c && c !in s.calls && FenceOpen(s.db, begin.fence, s.clock)
    && (forall d | d in s.calls :: s.calls[d].fence.Key() != begin.fence.Key())
    && (cfg.exclusive ==> forall d | d in s.calls && s.calls[d].scope == begin.scope :: !Driver(s, d))
  }

  lemma BeginsReserving(cfg: Config, s: Sys, c: CallId, begin: Event)
    requires Beginner(cfg, s, c, begin)
    ensures
      var after := Step(cfg, s, begin);
      var call := Call(begin.fence, begin.scope, begin.desired, begin.snapshot, begin.mayUpdate, Reserving, None, 0);
      && after == s.(calls := s.calls[c := call])
      && (cfg.exclusive ==> NoRival(after, c))
  {
    var after := Step(cfg, s, begin);
    forall d | d in after.calls && d != c && Driver(after, d) ensures Driver(s, d) {}
  }

  lemma ReservingKeepsCall(cfg: Config, s: Sys, c: CallId)
    requires c in s.calls && s.calls[c].pc.Reserving?
    ensures
      var after := Step(cfg, s, Advance(c));
      && c in after.calls && after.clock == s.clock
      && after.calls[c] == s.calls[c].(pc := after.calls[c].pc, action := after.calls[c].action)
  {
  }

  /** The search finds nothing. */
  lemma SearchesInVain(cfg: Config, s: Sys, t: Sys, c: CallId, scope: Scope, desired: Fingerprint)
    requires Stands(s, t, c, scope, desired, Searching, Reconciling) && forall i :: !Shows(s, scope, i)
    ensures
      var after := Step(cfg, s, ReadComments(c, ReadOk));
      && Stands(after, t, c, scope, desired, MarkingReady, Reconciling) && after.ledger == s.ledger
      && after.comments == s.comments && after.updates == s.updates
  {
    var after := StepTo(cfg, s, ReadComments(c, ReadOk));
    ReadMeans(cfg, s, c);
  }

  lemma StartsAndSearches(cfg: Config, s: Sys, t: Sys, c: CallId, scope: Scope, desired: Fingerprint)
    requires Stands(s, t, c, scope, desired, StartingReconciliation, Reserved) && Blank(s, scope)
    requires forall i :: !Shows(s, scope, i)
    ensures
      var after := RunEvents(cfg, s, [Advance(c), ReadComments(c, ReadOk)]);
      && Stands(after, t, c, scope, desired, MarkingReady, Reconciling)
      && after.ledger.actions[scope].resource.None? && after.comments == s.comments && after.updates == s.updates
  {
    Starts(cfg, s, t, c, scope, desired);
    var s1 := Step(cfg, s, Advance(c));
    forall i ensures !Shows(s1, scope, i) { assert !Shows(s, scope, i); }
    SearchesInVain(cfg, s1, t, c, scope, desired);
    Two(cfg, s, Advance(c), ReadComments(c, ReadOk));
  }

  /** The create goes out and lands. */
  lemma CreatesInTime(cfg: Config, s: Sys, t: Sys, c: CallId, scope: Scope, desired: Fingerprint, deadline: Time)
    requires Stands(s, t, c, scope, desired, Writing, Executing) && t.clock < deadline
    requires s.ledger.actions[scope].resource.None? && s.ledger.actions[scope].reconcileNotBefore == Some(deadline)
    ensures
      var n := |s.comments|;
      var after := RunEvents(cfg, s, [Send(c), Land(n)]);
      && Stands(after, t, c, scope, desired, AwaitingReply, Executing) && Confirms(after, after.calls[c], n)
      && after.updates == s.updates
      && after.comments == s.comments + [Comment(scope, deadline, Landed, desired, true, [desired])]
  {
    var n := |s.comments|;
    var s1 := StepTo(cfg, s, Send(c));
    SendMeans(cfg, s, c);
    var s2 := StepTo(cfg, s1, Land(n));
    assert s2.comments == s.comments + [Comment(scope, deadline, Landed, desired, true, [desired])];
    Two(cfg, s, Send(c), Land(n));
  }

  /** Beginning, reserving, reconciling: the call stands before its write. */
  lemma FindsNothing(cfg: Config, s: Sys, c: CallId, begin: Event) returns (q: seq<Event>)
    requires Checked(s) && Beginner(cfg, s, c, begin) && begin.scope !in s.ledger.actions
    requires forall i :: !Shows(s, begin.scope, i)
    ensures q == [begin, Advance(c)] + [Advance(c), ReadComments(c, ReadOk)]
    ensures
      var after := RunEvents(cfg, s, q);
      && Stands(after, s, c, begin.scope, begin.desired, MarkingReady, Reconciling)
      && after.ledger.actions[begin.scope].resource.None? && after.comments == s.comments && after.updates == s.updates
  {
    ReservesFirst(cfg, s, c, begin);
    var s1 := RunEvents(cfg, s, [begin, Advance(c)]);
    forall i ensures !Shows(s1, begin.scope, i) { assert !Shows(s, begin.scope, i); }
    StartsAndSearches(cfg, s1, s, c, begin.scope, begin.desired);
    q := [begin, Advance(c)] + [Advance(c), ReadComments(c, ReadOk)];
    RunAppends(cfg, s, [begin, Advance(c)], [Advance(c), ReadComments(c, ReadOk)]);
  }

  /** The write opens, and its create lands in time. */
  lemma OpensAndCreates(cfg: Config, s: Sys, t: Sys, c: CallId, scope: Scope, desired: Fingerprint)
    returns (q: seq<Event>)
    requires Stands(s, t, c, scope, desired, MarkingReady, Reconciling) && s.ledger.actions[scope].resource.None?
    requires cfg.settlement > 0
    ensures q == [Advance(c), Advance(c)] + [Send(c), Land(|s.comments|)]
    ensures
      var n := |s.comments|;
      var after := RunEvents(cfg, s, q);
      && Stands(after, t, c, scope, desired, AwaitingReply, Executing) && Confirms(after, after.calls[c], n)
      && after.comments == s.comments + [Comment(scope, t.clock + cfg.settlement, Landed, desired, true, [desired])]
  {
    Opens(cfg, s, t, c, scope, desired);
    CreatesInTime(cfg, RunEvents(cfg, s, [Advance(c), Advance(c)]), t, c, scope, desired, t.clock + cfg.settlement);
    q := [Advance(c), Advance(c)] + [Send(c), Land(|s.comments|)];
    RunAppends(cfg, s, [Advance(c), Advance(c)], [Send(c), Land(|s.comments|)]);
  }

  /** The write: it opens, its create lands in time, and the answer is recorded. */
  lemma CreatesAndRecords(cfg: Config, s: Sys, t: Sys, c: CallId, scope: Scope, desired: Fingerprint, e: Exchange)
    returns (r: seq<Event>)
    requires Stands(s, t, c, scope, desired, MarkingReady, Reconciling) && s.ledger.actions[scope].resource.None?
    requires cfg.settlement > 0
    requires GitHubWrite(e, cfg.goodUrl, cfg.goodTime, cfg.maximumBytes, cfg.maximumRetry) == Written(|s.comments|)
    ensures r == [Advance(c), Advance(c)] + [Send(c), Land(|s.comments|)] + [Answer(c, e), Advance(c)]
    ensures
      var n := |s.comments|;
      var end := RunEvents(cfg, s, r);
      && Stands(end, t, c, scope, desired, Ended(Confirmed), ActionSucceeded)
      && end.ledger.actions[scope].resource == Some(n) && end.ledger.actions[scope].applied == Some(desired)
      && end.comments == s.comments + [Comment(scope, t.clock + cfg.settlement, Landed, desired, true, [desired])]
  {
    var q := OpensAndCreates(cfg, s, t, c, scope, desired);
    Records(cfg, RunEvents(cfg, s, q), t, c, scope, desired, e, |s.comments|);
    r := q + [Answer(c, e), Advance(c)];
    RunAppends(cfg, s, q, [Answer(c, e), Advance(c)]);
  }

  lemma CreatesFrom(cfg: Config, s: Sys, c: CallId, begin: Event, e: Exchange) returns (work: seq<Event>)
    requires Checked(s) && Seen(s) && Beginner(cfg, s, c, begin) && cfg.settlement > 0
    requires begin.scope !in s.ledger.actions
    requires GitHubWrite(e, cfg.goodUrl, cfg.goodTime, cfg.maximumBytes, cfg.maximumRetry) == Written(|s.comments|)
    ensures work == [begin, Advance(c)] + [Advance(c), ReadComments(c, ReadOk)]
                    + ([Advance(c), Advance(c)] + [Send(c), Land(|s.comments|)] + [Answer(c, e), Advance(c)])
    ensures
      var end := RunEvents(cfg, s, work);
      && Stands(end, s, c, begin.scope, begin.desired, Ended(Confirmed), ActionSucceeded)
      && end.ledger.actions[begin.scope].resource == Some(|s.comments|)
      && end.ledger.actions[begin.scope].applied == Some(begin.desired)
      && end.comments == s.comments + [Comment(begin.scope, s.clock + cfg.settlement, Landed, begin.desired, true,
                                               [begin.desired])]
  {
    NothingShows(s, begin.scope);
    var q := FindsNothing(cfg, s, c, begin);
    var r := CreatesAndRecords(cfg, RunEvents(cfg, s, q), s, c, begin.scope, begin.desired, e);
    RunAppends(cfg, s, q, r);
    work := q + r;
  }

  /** From every reachable state, an undisturbed call on a new scope creates exactly one comment and confirms it. */
  lemma Creates(cfg: Config, events: seq<Event>, s: Sys, c: CallId, begin: Event, e: Exchange)
    returns (work: seq<Event>)
    requires s == RunEvents(cfg, EmptySys, events) && Beginner(cfg, s, c, begin) && cfg.settlement > 0
    requires begin.scope !in s.ledger.actions
    requires GitHubWrite(e, cfg.goodUrl, cfg.goodTime, cfg.maximumBytes, cfg.maximumRetry) == Written(|s.comments|)
    ensures work == [begin, Advance(c)] + [Advance(c), ReadComments(c, ReadOk)]
                    + ([Advance(c), Advance(c)] + [Send(c), Land(|s.comments|)] + [Answer(c, e), Advance(c)])
    ensures
      var end := RunEvents(cfg, s, work);
      && Stands(end, s, c, begin.scope, begin.desired, Ended(Confirmed), ActionSucceeded)
      && end.ledger.actions[begin.scope].resource == Some(|s.comments|)
      && end.ledger.actions[begin.scope].applied == Some(begin.desired)
      && end.comments == s.comments + [Comment(begin.scope, s.clock + cfg.settlement, Landed, begin.desired, true,
                                               [begin.desired])]
  {
    RunChecked(cfg, EmptySys, events);
    RunSeen(cfg, EmptySys, events);
    work := CreatesFrom(cfg, s, c, begin, e);
  }

  /** A scope without a row has no comments. */
  lemma NothingShows(s: Sys, scope: Scope)
    requires Seen(s) && scope !in s.ledger.actions
    ensures forall i :: !Shows(s, scope, i)
  {
    forall i ensures !Shows(s, scope, i) { if 0 <= i < |s.comments| { assert CommentSeen(s, i); } }
  }

  // ---------------------------------------------------------------- a controlled revision

  /** A call that may update finds its row succeeded for another request, and its comment in place. */
  lemma ReservesChanged(cfg: Config, s: Sys, c: CallId, begin: Event, i: int)
    requires Checked(s) && Revisable(cfg, s, c, begin, i)
    ensures
      var after := RunEvents(cfg, s, [begin, Advance(c)]);
      && Stands(after, s, c, begin.scope, begin.desired, CheckingBound, ActionSucceeded)
      && Outdated(after, begin.scope, i, begin.desired)
      && after.comments == s.comments && after.updates == s.updates
  {
    var s1 := StepTo(cfg, s, begin);
    BeginsReserving(cfg, s, c, begin);
    var s2 := StepTo(cfg, s1, Advance(c));
    ReservationLeadsTo(cfg, s1, c);
    ReservingKeepsCall(cfg, s1, c);
    Two(cfg, s, begin, Advance(c));
  }

  /** The bound comment is there, and the row takes the new request. */
  lemma ChecksAndRevises(cfg: Config, s: Sys, t: Sys, c: CallId, scope: Scope, desired: Fingerprint, i: int)
    requires Stands(s, t, c, scope, desired, CheckingBound, ActionSucceeded) && Outdated(s, scope, i, desired)
    ensures
      var after := RunEvents(cfg, s, [ReadComments(c, ReadOk), Advance(c)]);
      && Stands(after, t, c, scope, desired, StartingReconciliation, Reserved) && Outdated(after, scope, i, desired)
      && after.ledger.actions[scope].revision > 1
      && after.comments == s.comments && after.updates == s.updates
  {
    var s1 := StepTo(cfg, s, ReadComments(c, ReadOk));
    OtherReadsMean(cfg, s, c, ReadOk);
    assert s1 == Goto(s, c, GitHubApply.Revising);
    var s2 := StepTo(cfg, s1, Advance(c));
    RevisingMeans(cfg, s1, c);
    assert ActionChecks(s.ledger.actions[scope]);
    Two(cfg, s, ReadComments(c, ReadOk), Advance(c));
  }

  /** The old contents are read, and are to be overwritten. */
  lemma StartsAndReads(cfg: Config, s: Sys, t: Sys, c: CallId, scope: Scope, desired: Fingerprint, i: int)
    requires Stands(s, t, c, scope, desired, StartingReconciliation, Reserved) && Outdated(s, scope, i, desired)
    requires s.ledger.actions[scope].revision > 1
    ensures
      var after := RunEvents(cfg, s, [Advance(c), ReadComments(c, ReadOk)]);
      && Stands(after, t, c, scope, desired, MarkingReady, Reconciling) && Outdated(after, scope, i, desired)
      && after.comments == s.comments && after.updates == s.updates
  {
    Starts(cfg, s, t, c, scope, desired);
    var s1 := Step(cfg, s, Advance(c));
    assert Reads(s1, c, i) && Controlled(s1.calls[c]);
    var s2 := StepTo(cfg, s1, ReadComments(c, ReadOk));
    ReadMeans(cfg, s1, c);
    Two(cfg, s, Advance(c), ReadComments(c, ReadOk));
  }

  /** The update goes out and takes effect. */
  lemma UpdatesComment(cfg: Config, s: Sys, t: Sys, c: CallId, scope: Scope, desired: Fingerprint, i: int)
    requires Stands(s, t, c, scope, desired, Writing, Executing)
    requires s.ledger.actions[scope].resource == Some(i) && 0 <= i < |s.comments| && s.comments[i].fate == Landed
    ensures
      var u := |s.updates|;
      var after := RunEvents(cfg, s, [Send(c), LandUpdate(u)]);
      && Stands(after, t, c, scope, desired, AwaitingReply, Executing) && Confirms(after, after.calls[c], i)
      && after.comments == s.comments[i := s.comments[i].(body := desired, marked := true,
                                                          held := s.comments[i].held + [desired])]
  {
    var u := |s.updates|;
    var s1 := StepTo(cfg, s, Send(c));
    SendMeans(cfg, s, c);
    var s2 := StepTo(cfg, s1, LandUpdate(u));
    Two(cfg, s, Send(c), LandUpdate(u));
  }

  /** The request is replaced, and the old contents are read. */
  lemma RevisesAndReads(cfg: Config, s: Sys, c: CallId, begin: Event, i: int) returns (q: seq<Event>)
    requires Checked(s) && Revisable(cfg, s, c, begin, i)
    ensures q == [begin, Advance(c)] + [ReadComments(c, ReadOk), Advance(c)] + [Advance(c), ReadComments(c, ReadOk)]
    ensures
      var after := RunEvents(cfg, s, q);
      && Stands(after, s, c, begin.scope, begin.desired, MarkingReady, Reconciling)
      && Outdated(after, begin.scope, i, begin.desired) && after.comments == s.comments && after.updates == s.updates
  {
    ReservesChanged(cfg, s, c, begin, i);
    var p1, p2, p3 := [begin, Advance(c)], [ReadComments(c, ReadOk), Advance(c)], [Advance(c), ReadComments(c, ReadOk)];
    var s1 := RunEvents(cfg, s, p1);
    ChecksAndRevises(cfg, s1, s, c, begin.scope, begin.desired, i);
    RunAppends(cfg, s, p1, p2);
    StartsAndReads(cfg, RunEvents(cfg, s, p1 + p2), s, c, begin.scope, begin.desired, i);
    RunAppends(cfg, s, p1 + p2, p3);
    q := p1 + p2 + p3;
  }

  /** The write opens, and the update takes effect. */
  lemma OpensAndUpdates(cfg: Config, s: Sys, t: Sys, c: CallId, scope: Scope, desired: Fingerprint, i: int)
    returns (q: seq<Event>)
    requires Stands(s, t, c, scope, desired, MarkingReady, Reconciling) && Outdated(s, scope, i, desired)
    requires cfg.settlement > 0
    ensures q == [Advance(c), Advance(c)] + [Send(c), LandUpdate(|s.updates|)]
    ensures
      var after := RunEvents(cfg, s, q);
      && Stands(after, t, c, scope, desired, AwaitingReply, Executing) && Confirms(after, after.calls[c], i)
      && after.comments == s.comments[i := s.comments[i].(body := desired, marked := true,
                                                          held := s.comments[i].held + [desired])]
  {
    Opens(cfg, s, t, c, scope, desired);
    UpdatesComment(cfg, RunEvents(cfg, s, [Advance(c), Advance(c)]), t, c, scope, desired, i);
    q := [Advance(c), Advance(c)] + [Send(c), LandUpdate(|s.updates|)];
    RunAppends(cfg, s, [Advance(c), Advance(c)], [Send(c), LandUpdate(|s.updates|)]);
  }

  lemma UpdatesAndRecords(cfg: Config, s: Sys, t: Sys, c: CallId, scope: Scope, desired: Fingerprint, i: int,
                          e: Exchange) returns (r: seq<Event>)
    requires Stands(s, t, c, scope, desired, MarkingReady, Reconciling) && Outdated(s, scope, i, desired)
    requires cfg.settlement > 0
    requires GitHubWrite(e, cfg.goodUrl, cfg.goodTime, cfg.maximumBytes, cfg.maximumRetry) == Written(i)
    ensures r == [Advance(c), Advance(c)] + [Send(c), LandUpdate(|s.updates|)] + [Answer(c, e), Advance(c)]
    ensures
      var end := RunEvents(cfg, s, r);
      && Stands(end, t, c, scope, desired, Ended(Confirmed), ActionSucceeded)
      && end.ledger.actions[scope].resource == Some(i) && end.ledger.actions[scope].applied == Some(desired)
      && end.comments == s.comments[i := s.comments[i].(body := desired, marked := true,
                                                        held := s.comments[i].held + [desired])]
  {
    var q := OpensAndUpdates(cfg, s, t, c, scope, desired, i);
    Records(cfg, RunEvents(cfg, s, q), t, c, scope, desired, e, i);
    r := q + [Answer(c, e), Advance(c)];
    RunAppends(cfg, s, q, [Answer(c, e), Advance(c)]);
  }

  /** A call that may update, a row that succeeded for another request, and its comment in place with other contents. */
  ghost predicate Revisable(cfg: Config, s: Sys, c: CallId, begin: Event, i: int) {
    && Beginner(cfg, s, c, begin) && begin.mayUpdate && Outdated(s, begin.scope, i, begin.desired)
    && var a := s.ledger.actions[begin.scope];
    && a.provider.GitHub? && a.operation.UpsertComment? && a.status == ActionSucceeded && a.desired != begin.desired
  }

  lemma UpdatesFrom(cfg: Config, s: Sys, c: CallId, begin: Event, i: int, e: Exchange) returns (work: seq<Event>)
    requires Checked(s) && Revisable(cfg, s, c, begin, i) && cfg.settlement > 0
    requires GitHubWrite(e, cfg.goodUrl, cfg.goodTime, cfg.maximumBytes, cfg.maximumRetry) == Written(i)
    ensures
      work == [begin, Advance(c)] + [ReadComments(c, ReadOk), Advance(c)] + [Advance(c), ReadComments(c, ReadOk)]
              + ([Advance(c), Advance(c)] + [Send(c), LandUpdate(|s.updates|)] + [Answer(c, e), Advance(c)])
    ensures
      var end := RunEvents(cfg, s, work);
      && Stands(end, s, c, begin.scope, begin.desired, Ended(Confirmed), ActionSucceeded)
      && end.ledger.actions[begin.scope].resource == Some(i)
      && end.ledger.actions[begin.scope].applied == Some(begin.desired)
      && end.comments == s.comments[i := s.comments[i].(body := begin.desired, marked := true,
                                                        held := s.comments[i].held + [begin.desired])]
  {
    var q := RevisesAndReads(cfg, s, c, begin, i);
    var r := UpdatesAndRecords(cfg, RunEvents(cfg, s, q), s, c, begin.scope, begin.desired, i, e);
    RunAppends(cfg, s, q, r);
    work := q + r;
  }

  /** From every reachable state, an undisturbed controlled revision overwrites the bound comment and confirms it. */
  lemma Updates(cfg: Config, events: seq<Event>, s: Sys, c: CallId, begin: Event, i: int, e: Exchange)
    returns (work: seq<Event>)
    requires s == RunEvents(cfg, EmptySys, events) && Revisable(cfg, s, c, begin, i) && cfg.settlement > 0
    requires GitHubWrite(e, cfg.goodUrl, cfg.goodTime, cfg.maximumBytes, cfg.maximumRetry) == Written(i)
    ensures
      work == [begin, Advance(c)] + [ReadComments(c, ReadOk), Advance(c)] + [Advance(c), ReadComments(c, ReadOk)]
              + ([Advance(c), Advance(c)] + [Send(c), LandUpdate(|s.updates|)] + [Answer(c, e), Advance(c)])
    ensures
      var end := RunEvents(cfg, s, work);
      && Stands(end, s, c, begin.scope, begin.desired, Ended(Confirmed), ActionSucceeded)
      && end.ledger.actions[begin.scope].resource == Some(i)
      && end.ledger.actions[begin.scope].applied == Some(begin.desired)
      && end.comments == s.comments[i := s.comments[i].(body := begin.desired, marked := true,
                                                        held := s.comments[i].held + [begin.desired])]
  {
    RunChecked(cfg, EmptySys, events);
    work := UpdatesFrom(cfg, s, c, begin, i, e);
  }
}
