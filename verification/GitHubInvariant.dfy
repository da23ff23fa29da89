/**
 What every event of GitHubApply keeps as long as no call marks a row ready that has moved on since the call last
 wrote it. No fence, lease or exclusivity appears here: what is known about a scope hangs on its row alone.
 */
module GitHubInvariant {
  import opened Wrappers
  import opened TaskStore
  import opened ActionLedger
  import opened ProviderHttp
  import opened GitHubApply

  predicate GitHubRow(s: Sys, scope: Scope) { scope in s.ledger.actions && s.ledger.actions[scope].provider.GitHub? }

  /** A create request that has landed, or that can still land. */
  predicate HotComment(s: Sys, scope: Scope, i: nat) {
    && i < |s.comments| && s.comments[i].scope == scope
    && (s.comments[i].fate.Landed? || (s.comments[i].fate.InFlight? && s.clock < s.comments[i].deadline))
  }

  /** A call about to send a create whose deadline has not passed. */
  predicate HotCall(s: Sys, scope: Scope, c: CallId) {
    && c in s.calls && s.calls[c].scope == scope && s.calls[c].pc.Writing? && s.calls[c].action.Some?
    && var a := s.calls[c].action.value;
    && a.resource.None? && a.reconcileNotBefore.Some? && s.clock < a.reconcileNotBefore.value
  }

  ghost predicate Cold(s: Sys, scope: Scope) {
    (forall i: nat :: !HotComment(s, scope, i)) && (forall c :: !HotCall(s, scope, c))
  }

  /** The holdoff of the scope's latest write is over. */
  predicate HoldoffOver(s: Sys, a: Action) { a.reconcileNotBefore.Some? ==> a.reconcileNotBefore.value <= s.clock }

  predicate LandedHere(s: Sys, scope: Scope, i: Resource) {
    0 <= i < |s.comments| && s.comments[i].scope == scope && s.comments[i].fate.Landed?
  }

  /** An unbound row that is ready to execute promises that nothing of its scope has landed or can land. */
  ghost predicate RowOk(cfg: Config, s: Sys, scope: Scope)
    requires scope in s.ledger.actions
  {
    var a := s.ledger.actions[scope];
    a.provider.GitHub? ==>
      && (a.revision > 1 ==> a.resource.Some?)
      && (a.reconcileNotBefore.Some? ==> a.reconcileNotBefore.value <= s.clock + cfg.settlement)
      && (a.resource.Some? ==> LandedHere(s, scope, a.resource.value))
      && (a.status.ReadyToExecute? && a.resource.None? ==> Cold(s, scope))
  }

  ghost predicate CommentOk(s: Sys, i: nat)
    requires i < |s.comments|
  {
    var m := s.comments[i];
    && GitHubRow(s, m.scope)
    && s.ledger.actions[m.scope].reconcileNotBefore.Some?
    && m.deadline <= s.ledger.actions[m.scope].reconcileNotBefore.value
    && (s.ledger.actions[m.scope].resource.None? ==> m.marked)
  }

  /** The call's copy is the row as it was when the call last wrote it; later rows have later sequence numbers. */
  predicate Behind(copy: Action, row: Action) {
    && copy.sequence <= row.sequence && (copy.sequence == row.sequence ==> row == copy)
    && (copy.revision > 1 ==> copy.resource.Some?)
    && (copy.reconcileNotBefore.Some? ==>
          row.reconcileNotBefore.Some? && copy.reconcileNotBefore.value <= row.reconcileNotBefore.value)
  }

  /** What a call knows holds while its copy is still the row. */
  ghost predicate Knows(s: Sys, c: CallId)
    requires c in s.calls && s.calls[c].action.Some?
  {
    var call := s.calls[c];
    var a := call.action.value;
    && (call.pc.Searching? ==> HoldoffOver(s, a))
    && (call.pc.MarkingReady? && a.resource.None? ==> Cold(s, call.scope))
  }

  ghost predicate CallOk(s: Sys, c: CallId)
    requires c in s.calls
  {
    var call := s.calls[c];
    Live(call) ==>
      && call.action.Some? && GitHubRow(s, call.scope)
      && Behind(call.action.value, s.ledger.actions[call.scope])
      && (s.ledger.actions[call.scope] == call.action.value ==> Knows(s, c))
      && (call.action.value.resource.Some? ==> LandedHere(s, call.scope, call.action.value.resource.value))
      && (call.pc.HoldingOff? || call.pc.Searching? ==> call.action.value.resource.None?)
      && (call.pc.Writing? && call.action.value.resource.None? ==> call.action.value.reconcileNotBefore.Some?)
      && (call.pc.AwaitingReply? && call.action.value.resource.None? ==>
            call.request < |s.comments| && s.comments[call.request].scope == call.scope)
      && (call.pc.Adopting? ==> LandedHere(s, call.scope, call.pc.comment))
      && (call.pc.Recording? && call.pc.outcome.Written? ==> LandedHere(s, call.scope, call.pc.outcome.comment))
  }

  /** At most one create of a scope has landed, can land, or can still be sent in time. */
  ghost predicate OneHot(s: Sys) {
    && (forall scope, i: nat, j: nat | HotComment(s, scope, i) && HotComment(s, scope, j) :: i == j)
    && (forall scope, i: nat, c | HotComment(s, scope, i) :: !HotCall(s, scope, c))
    && (forall scope, c, d | HotCall(s, scope, c) && HotCall(s, scope, d) :: c == d)
  }

  ghost predicate Inv(cfg: Config, s: Sys) {
    && (forall scope | scope in s.ledger.actions :: RowOk(cfg, s, scope))
    && (forall i | 0 <= i < |s.comments| :: CommentOk(s, i))
    && (forall c | c in s.calls :: CallOk(s, c))
    && OneHot(s)
  }

  // ---------------------------------------------------------------- frames

  /** Nothing becomes able to land that was not before. */
  ghost predicate Cools(s: Sys, after: Sys) {
    && (forall scope, i: nat :: HotComment(after, scope, i) ==> HotComment(s, scope, i))
    && (forall scope, c :: HotCall(after, scope, c) ==> HotCall(s, scope, c))
  }

  ghost predicate StaysCold(s: Sys, after: Sys) {
    forall scope :: Cold(s, scope) ==> Cold(after, scope)
  }

  lemma CoolsHot(s: Sys, after: Sys)
    requires OneHot(s) && Cools(s, after)
    ensures OneHot(after) && StaysCold(s, after)
  {
  }

  /** Comments only appear, land and stay landed; the clock only rises. */
  ghost predicate Grows(s: Sys, after: Sys) {
    && |s.comments| <= |after.comments| && s.clock <= after.clock
    && (forall i | 0 <= i < |s.comments| ::
          && after.comments[i].scope == s.comments[i].scope
          && (s.comments[i].fate.Landed? ==> after.comments[i].fate.Landed?))
  }

  /** A call that did not move keeps its facts: its row is unchanged, or has a later sequence number. */
  lemma CallFrame(s: Sys, after: Sys, c: CallId)
    requires c in s.calls && c in after.calls && after.calls[c] == s.calls[c] && CallOk(s, c)
    requires Grows(s, after) && (Live(s.calls[c]) ==> GitHubRow(after, s.calls[c].scope))
    requires Live(s.calls[c]) ==>
               var scope := s.calls[c].scope;
               if after.ledger.actions[scope] == s.ledger.actions[scope] then Cold(s, scope) ==> Cold(after, scope)
               else Follows(s.ledger.actions[scope], after.ledger.actions[scope])
    ensures CallOk(after, c)
  {
  }

  /** How one write may change a row as far as the comments of its scope are concerned. */
  predicate Follows(old_: Action, row: Action) {
    && old_.provider.GitHub? && row.provider.GitHub? && old_.sequence < row.sequence
    && (old_.reconcileNotBefore.Some? ==>
          row.reconcileNotBefore.Some? && old_.reconcileNotBefore.value <= row.reconcileNotBefore.value)
    && (row.resource.None? ==> old_.resource.None?)
  }

  lemma RowFrame(cfg: Config, s: Sys, after: Sys, scope: Scope)
    requires scope in s.ledger.actions && RowOk(cfg, s, scope)
    requires scope in after.ledger.actions && after.ledger.actions[scope] == s.ledger.actions[scope]
    requires Grows(s, after) && (Cold(s, scope) ==> Cold(after, scope))
    ensures RowOk(cfg, after, scope)
  {
  }

  lemma RowsFrame(cfg: Config, s: Sys, after: Sys)
    requires forall o | o in s.ledger.actions :: RowOk(cfg, s, o)
    requires after.ledger == s.ledger && Grows(s, after) && StaysCold(s, after)
    ensures forall o | o in after.ledger.actions :: RowOk(cfg, after, o)
  {
    forall o | o in after.ledger.actions ensures RowOk(cfg, after, o) { RowFrame(cfg, s, after, o); }
  }

  lemma CallsFrame(s: Sys, after: Sys)
    requires forall d | d in s.calls :: CallOk(s, d)
    requires after.ledger == s.ledger && Grows(s, after) && StaysCold(s, after)
    ensures forall d | d in s.calls && d in after.calls && after.calls[d] == s.calls[d] :: CallOk(after, d)
  {
    forall d | d in s.calls && d in after.calls && after.calls[d] == s.calls[d] ensures CallOk(after, d) {
      assert CallOk(s, d);
      CallFrame(s, after, d);
    }
  }

  lemma CommentsFrame(s: Sys, after: Sys)
    requires forall i | 0 <= i < |s.comments| :: CommentOk(s, i)
    requires after.ledger == s.ledger && after.comments == s.comments
    ensures forall i | 0 <= i < |after.comments| :: CommentOk(after, i)
  {
    forall i | 0 <= i < |after.comments| ensures CommentOk(after, i) { assert CommentOk(s, i); }
  }

  // ---------------------------------------------------------------- events that write no row of a scope

  /** The task tables and the clock are of no concern to a scope, except that time only cools it. */
  lemma QuietKeeps(cfg: Config, s: Sys, db: Db, clock: Time)
    requires Inv(cfg, s) && clock >= s.clock
    ensures Inv(cfg, s.(db := db, clock := clock))
  {
    var after := s.(db := db, clock := clock);
    assert Cools(s, after);
    CoolsHot(s, after);
    CallsFrame(s, after);
    CommentsFrame(s, after);
    RowsFrame(cfg, s, after);
  }

  /** The update requests are of no concern to a scope either, until they land. */
  lemma UpdatesKeep(cfg: Config, s: Sys, updates: seq<Update>)
    requires Inv(cfg, s)
    ensures Inv(cfg, s.(updates := updates))
  {
    var after := s.(updates := updates);
    assert Cools(s, after);
    CoolsHot(s, after);
    CallsFrame(s, after);
    CommentsFrame(s, after);
    RowsFrame(cfg, s, after);
  }

  /** One call moves, or a new one begins, without a write of the ledger. */
  lemma CallMoves(cfg: Config, s: Sys, c: CallId, call: Call)
    requires Inv(cfg, s) && !call.pc.Writing?
    requires CallOk(s.(calls := s.calls[c := call]), c)
    ensures Inv(cfg, s.(calls := s.calls[c := call]))
  {
    var after := s.(calls := s.calls[c := call]);
    assert Cools(s, after);
    CoolsHot(s, after);
    CallsFrame(s, after);
    CommentsFrame(s, after);
    RowsFrame(cfg, s, after);
  }

  /** Points at which a call knows nothing beyond its copy of the row. */
  predicate Plainly(pc: Pc) {
    || pc.CheckingBound? || pc.Revising? || pc.StartingReconciliation? || pc.ReadingBound? || pc.FailingRead?
    || pc.SendingToReview? || pc.StartingWrite? || pc.Ended? || pc.Abandoned? || pc.Reserving?
  }

  lemma PlainCallOk(s: Sys, c: CallId, pc: Pc)
    requires c in s.calls && CallOk(s, c)
    requires Plainly(pc) && (pc.Ended? || pc.Abandoned? || pc.Reserving? || Live(s.calls[c]))
    ensures CallOk(Goto(s, c, pc), c)
  {
  }

  lemma GotoKeeps(cfg: Config, s: Sys, c: CallId, pc: Pc)
    requires Inv(cfg, s) && c in s.calls
    requires Plainly(pc) && (pc.Ended? || pc.Abandoned? || pc.Reserving? || Live(s.calls[c]))
    ensures Inv(cfg, Goto(s, c, pc))
  {
    assert CallOk(s, c);
    PlainCallOk(s, c, pc);
    CallMoves(cfg, s, c, s.calls[c].(pc := pc));
  }

  lemma OtherRows(db: Db, ledger: Ledger, op: LedgerOp)
    requires Foreign(ledger, op)
    ensures
      var after := Perform(db, ledger, op).0;
      && (forall o | o in ledger.actions && ledger.actions[o].provider.GitHub? ::
            o in after.actions && after.actions[o] == ledger.actions[o])
      && (forall o | o in after.actions && after.actions[o].provider.GitHub? ::
            o in ledger.actions && ledger.actions[o].provider.GitHub?)
  {
  }

  /** Rows of other providers may change in any way. */
  lemma ForeignKeeps(cfg: Config, s: Sys, ledger: Ledger)
    requires Inv(cfg, s)
    requires forall o | o in s.ledger.actions && s.ledger.actions[o].provider.GitHub? ::
               o in ledger.actions && ledger.actions[o] == s.ledger.actions[o]
    requires forall o | o in ledger.actions && ledger.actions[o].provider.GitHub? ::
               o in s.ledger.actions && s.ledger.actions[o].provider.GitHub?
    ensures Inv(cfg, s.(ledger := ledger))
  {
    var after := s.(ledger := ledger);
    assert Cools(s, after);
    CoolsHot(s, after);
    forall d | d in after.calls ensures CallOk(after, d) {
      assert CallOk(s, d);
      CallFrame(s, after, d);
    }
    forall i | 0 <= i < |after.comments| ensures CommentOk(after, i) { assert CommentOk(s, i); }
    forall o | o in after.ledger.actions ensures RowOk(cfg, after, o) {
      if after.ledger.actions[o].provider.GitHub? { RowFrame(cfg, s, after, o); }
    }
  }

  // ---------------------------------------------------------------- the provider

  /** Comments change under the calls: they land and are edited. */
  lemma CommentsKeep(cfg: Config, s: Sys, comments: seq<Comment>)
    requires Inv(cfg, s)
    requires |comments| == |s.comments|
    requires forall i | 0 <= i < |comments| ::
               && comments[i].scope == s.comments[i].scope && comments[i].deadline == s.comments[i].deadline
               && (s.comments[i].fate.Landed? ==> comments[i].fate.Landed?)
               && (HotComment(s.(comments := comments), comments[i].scope, i) ==> HotComment(s, comments[i].scope, i))
               && (comments[i].marked || !s.comments[i].marked || Bound(s, i))
    ensures Inv(cfg, s.(comments := comments))
  {
    var after := s.(comments := comments);
    assert Cools(s, after);
    CoolsHot(s, after);
    CallsFrame(s, after);
    forall i | 0 <= i < |after.comments| ensures CommentOk(after, i) { assert CommentOk(s, i); }
    RowsFrame(cfg, s, after);
  }

  lemma LandKeeps(cfg: Config, s: Sys, i: nat)
    requires Inv(cfg, s)
    ensures Inv(cfg, Step(cfg, s, Land(i)))
  {
    if i < |s.comments| && s.comments[i].fate.InFlight? && s.clock < s.comments[i].deadline {
      CommentsKeep(cfg, s, s.comments[i := s.comments[i].(fate := Landed)]);
    }
  }

  lemma LandUpdateKeeps(cfg: Config, s: Sys, u: nat)
    requires Inv(cfg, s)
    ensures Inv(cfg, Step(cfg, s, LandUpdate(u)))
  {
    var after := Step(cfg, s, LandUpdate(u));
    if after != s {
      CommentsKeep(cfg, s, after.comments);
      UpdatesKeep(cfg, s.(comments := after.comments), after.updates);
    }
  }

  lemma EditKeeps(cfg: Config, s: Sys, i: nat, body: Fingerprint, marked: bool)
    requires Inv(cfg, s)
    ensures Inv(cfg, Step(cfg, s, Edit(i, body, marked)))
  {
    if i < |s.comments| && s.comments[i].fate.Landed? && (marked || Bound(s, i)) {
      CommentsKeep(cfg, s, s.comments[i := Rewritten(s.comments[i], body, marked)]);
    }
  }

  lemma SentCallOk(s: Sys, c: CallId)
    requires c in s.calls && s.calls[c].pc.Writing? && s.calls[c].action.Some? && CallOk(s, c)
    ensures CallOk(SendCall(s, c), c)
  {
  }

  lemma SentComments(s: Sys, c: CallId)
    requires c in s.calls && s.calls[c].pc.Writing? && s.calls[c].action.Some? && CallOk(s, c)
    requires forall i | 0 <= i < |s.comments| :: CommentOk(s, i)
    ensures forall i | 0 <= i < |SendCall(s, c).comments| :: CommentOk(SendCall(s, c), i)
  {
    var after := SendCall(s, c);
    forall i | 0 <= i < |after.comments| ensures CommentOk(after, i) { if i < |s.comments| { assert CommentOk(s, i); } }
  }

  lemma SendHeat(s: Sys, c: CallId)
    requires OneHot(s) && c in s.calls && s.calls[c].pc.Writing? && s.calls[c].action.Some?
    ensures OneHot(SendCall(s, c)) && StaysCold(s, SendCall(s, c))
  {
    var after := SendCall(s, c);
    var n := |s.comments|;
    assert forall scope, i: nat | i != n :: HotComment(after, scope, i) ==> HotComment(s, scope, i);
    assert forall scope :: HotComment(after, scope, n) ==> HotCall(s, scope, c);
    assert forall scope, d :: HotCall(after, scope, d) ==> HotCall(s, scope, d) && d != c;
  }

  /** Sending turns the call that could create into the request that can land. */
  lemma SendKeeps(cfg: Config, s: Sys, c: CallId)
    requires Inv(cfg, s) && c in s.calls && s.calls[c].pc.Writing? && s.calls[c].action.Some?
    ensures Inv(cfg, SendCall(s, c))
  {
    assert CallOk(s, c);
    SendHeat(s, c);
    SentCallOk(s, c);
    CallsFrame(s, SendCall(s, c));
    SentComments(s, c);
    RowsFrame(cfg, s, SendCall(s, c));
  }

  // ---------------------------------------------------------------- writes of the ledger

  lemma TookHeat(s: Sys, c: CallId, ledger: Ledger, row: Action, pc: Pc)
    requires OneHot(s) && c in s.calls
    requires pc.Writing? && row.resource.None? ==> Cold(s, s.calls[c].scope)
    ensures OneHot(Took(s, c, ledger, row, pc))
    ensures forall scope | scope != s.calls[c].scope || !pc.Writing? ::
              Cold(s, scope) ==> Cold(Took(s, c, ledger, row, pc), scope)
  {
    var after := Took(s, c, ledger, row, pc);
    assert forall scope, i: nat :: HotComment(after, scope, i) ==> HotComment(s, scope, i);
    assert forall scope, d | d != c :: HotCall(after, scope, d) ==> HotCall(s, scope, d);
    assert forall scope :: HotCall(after, scope, c) ==>
        scope == s.calls[c].scope && pc.Writing? && row.resource.None?;
  }

  lemma TookCalls(s: Sys, c: CallId, ledger: Ledger, row: Action, pc: Pc)
    requires OneHot(s) && c in s.calls && forall d | d in s.calls :: CallOk(s, d)
    requires ledger.actions == s.ledger.actions[s.calls[c].scope := row] && row.provider.GitHub?
    requires s.calls[c].scope in s.ledger.actions ==> Follows(s.ledger.actions[s.calls[c].scope], row)
    requires pc.Writing? && row.resource.None? ==> Cold(s, s.calls[c].scope)
    ensures forall d | d in s.calls && d != c :: CallOk(Took(s, c, ledger, row, pc), d)
  {
    var after := Took(s, c, ledger, row, pc);
    TookHeat(s, c, ledger, row, pc);
    forall d | d in s.calls && d != c ensures CallOk(after, d) {
      assert CallOk(s, d);
      CallFrame(s, after, d);
    }
  }

  lemma TookRows(cfg: Config, s: Sys, c: CallId, ledger: Ledger, row: Action, pc: Pc)
    requires OneHot(s) && c in s.calls && forall o | o in s.ledger.actions :: RowOk(cfg, s, o)
    requires ledger.actions == s.ledger.actions[s.calls[c].scope := row]
    requires RowOk(cfg, Took(s, c, ledger, row, pc), s.calls[c].scope)
    requires pc.Writing? && row.resource.None? ==> Cold(s, s.calls[c].scope)
    ensures forall o | o in ledger.actions :: RowOk(cfg, Took(s, c, ledger, row, pc), o)
  {
    var after := Took(s, c, ledger, row, pc);
    TookHeat(s, c, ledger, row, pc);
    forall o | o in ledger.actions && o != s.calls[c].scope ensures RowOk(cfg, after, o) { RowFrame(cfg, s, after, o); }
  }

  lemma TookComments(s: Sys, after: Sys, scope: Scope, row: Action)
    requires forall i | 0 <= i < |s.comments| :: CommentOk(s, i)
    requires after.ledger.actions == s.ledger.actions[scope := row] && row.provider.GitHub?
    requires scope in s.ledger.actions ==> Follows(s.ledger.actions[scope], row)
    requires after.comments == s.comments
    ensures forall i | 0 <= i < |after.comments| :: CommentOk(after, i)
  {
    forall i | 0 <= i < |after.comments| ensures CommentOk(after, i) { assert CommentOk(s, i); }
  }

  /** A write of a row by any call; only the writer and its row have anything to show. */
  lemma TookKeeps(cfg: Config, s: Sys, c: CallId, ledger: Ledger, row: Action, pc: Pc)
    requires Inv(cfg, s) && c in s.calls
    requires ledger.actions == s.ledger.actions[s.calls[c].scope := row] && row.provider.GitHub?
    requires s.calls[c].scope in s.ledger.actions ==> Follows(s.ledger.actions[s.calls[c].scope], row)
    requires RowOk(cfg, Took(s, c, ledger, row, pc), s.calls[c].scope)
    requires CallOk(Took(s, c, ledger, row, pc), c)
    requires pc.Writing? && row.resource.None? ==> Cold(s, s.calls[c].scope)
    ensures Inv(cfg, Took(s, c, ledger, row, pc))
  {
    TookHeat(s, c, ledger, row, pc);
    TookCalls(s, c, ledger, row, pc);
    TookRows(cfg, s, c, ledger, row, pc);
    TookComments(s, Took(s, c, ledger, row, pc), s.calls[c].scope, row);
  }
}
