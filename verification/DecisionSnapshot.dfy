/**
 The structures whose hash identifies a decision, before they are serialised: one for the GitHub comment, one for the
 Slack notification. References are sorted by a key and then projected; reason codes keep their order in the first
 form and are sorted in the second.
 */
module DecisionSnapshot {
  import opened Wrappers
  import opened Sorting

  datatype SourceReference = SourceReference(artifactId: string, source: Source)

  /** The columns of a reference that the snapshot keeps; they are also its sort key. */
  datatype Source = Source(
    provider: string, resourceType: string, resourceIdentifier: string, sourceVersion: string, contentHash: string)

  datatype ReasonCode = ReasonCode(value: string)

  datatype Decision = Decision(
    outcome: string, reasonCodes: seq<ReasonCode>, sourceReferences: seq<SourceReference>, policyVersion: int)

  datatype GitHubAction = GitHubAction(resourceIdentifier: Option<string>, revision: int)

  datatype GitHubSnapshot = GitHubSnapshot(
    workflowVersion: string, policyVersion: int, outcome: string, reasonCodes: seq<ReasonCode>, sources: seq<Source>)

  datatype SlackSnapshot = SlackSnapshot(
    workflowVersion: string, outcome: string, reasonCodes: seq<ReasonCode>, policyVersion: int, sources: seq<Source>,
    githubIdentifier: Option<string>, githubRevision: int, team: string, channel: string)

  const WorkflowVersion := "deployment_context_sync:v1"

  function Tuple(s: Source): seq<string> {
    [s.provider, s.resourceType, s.resourceIdentifier, s.sourceVersion, s.contentHash]
  }

  function SourceLe(): (Source, Source) -> bool { (a: Source, b: Source) => LexLe(StringLe(), Tuple(a), Tuple(b)) }

  function ReferenceLe(): (SourceReference, SourceReference) -> bool {
    (a: SourceReference, b: SourceReference) => SourceLe()(a.source, b.source)
  }

  function CodeLe(): (ReasonCode, ReasonCode) -> bool {
    (a: ReasonCode, b: ReasonCode) => LexLe(CharLe(), a.value, b.value)
  }

  function Projected(references: seq<SourceReference>): seq<Source> {
    seq(|references|, i requires 0 <= i < |references| => references[i].source)
  }

  function SnapshotForGitHub(d: Decision): GitHubSnapshot {
    GitHubSnapshot(WorkflowVersion, d.policyVersion, d.outcome, d.reasonCodes,
                   Projected(Sort(ReferenceLe(), d.sourceReferences)))
  }

  /** None is the ValueError for a missing team. */
  function SnapshotForSlack(d: Decision, action: GitHubAction, channel: string, team: Option<string>)
    : Option<SlackSnapshot>
  {
    if team.None? then None
    else
      Some(SlackSnapshot(WorkflowVersion, d.outcome, Sort(CodeLe(), d.reasonCodes), d.policyVersion,
                         Projected(Sort(ReferenceLe(), d.sourceReferences)),
                         action.resourceIdentifier, action.revision, team.value, channel))
  }

  lemma SourcesAreOrdered()
    ensures TotalOrder(SourceLe())
  {
    StringsAreOrdered();
    forall a, b ensures (SourceLe()(a, b) || SourceLe()(b, a)) && (SourceLe()(a, b) && SourceLe()(b, a) ==> a == b) {
      LexTotal(StringLe(), Tuple(a), Tuple(b));
      if Tuple(a) == Tuple(b) { SameTupleSameSource(a, b); }
    }
    forall a, b, c | SourceLe()(a, b) && SourceLe()(b, c) ensures SourceLe()(a, c) {
      LexTransitive(StringLe(), Tuple(a), Tuple(b), Tuple(c));
    }
  }

  lemma CodesAreOrdered()
    ensures TotalOrder(CodeLe())
  {
    forall a, b ensures (CodeLe()(a, b) || CodeLe()(b, a)) && (CodeLe()(a, b) && CodeLe()(b, a) ==> a == b) {
      LexTotal(CharLe(), a.value, b.value);
    }
    forall a, b, c | CodeLe()(a, b) && CodeLe()(b, c) ensures CodeLe()(a, c) {
      LexTransitive(CharLe(), a.value, b.value, c.value);
    }
  }

  lemma SameTupleSameSource(a: Source, b: Source)
    requires Tuple(a) == Tuple(b)
    ensures a == b
  {
    assert a.provider == Tuple(a)[0] && a.resourceType == Tuple(a)[1] && a.resourceIdentifier == Tuple(a)[2];
    assert a.sourceVersion == Tuple(a)[3] && a.contentHash == Tuple(a)[4];
    assert b.provider == Tuple(b)[0] && b.resourceType == Tuple(b)[1] && b.resourceIdentifier == Tuple(b)[2];
    assert b.sourceVersion == Tuple(b)[3] && b.contentHash == Tuple(b)[4];
  }

  lemma {:induction false} InsertProjects(x: SourceReference, s: seq<SourceReference>)
    ensures Projected(Insert(ReferenceLe(), x, s)) == Insert(SourceLe(), x.source, Projected(s))
    decreases |s|
  {
    if s != [] && !ReferenceLe()(x, s[0]) {
      InsertProjects(x, s[1..]);
      assert Projected(s)[1..] == Projected(s[1..]);
    }
  }

  /** References that tie in the sort key are the same after projection, so projecting first changes nothing. */
  lemma {:induction false} SortProjects(s: seq<SourceReference>)
    ensures Projected(Sort(ReferenceLe(), s)) == Sort(SourceLe(), Projected(s))
    decreases |s|
  {
    if s != [] {
      SortProjects(s[1..]);
      InsertProjects(s[0], Sort(ReferenceLe(), s[1..]));
      assert Projected(s)[1..] == Projected(s[1..]);
    }
  }

  ghost predicate SameSources(d: Decision, e: Decision) {
    multiset(Projected(d.sourceReferences)) == multiset(Projected(e.sourceReferences))
  }

  /** Two decisions have the same GitHub snapshot exactly when they differ at most in reference order and artifacts. */
  lemma GitHubSnapshotIsCanonical(d: Decision, e: Decision)
    ensures SnapshotForGitHub(d) == SnapshotForGitHub(e)
       <==> && d.outcome == e.outcome && d.policyVersion == e.policyVersion && d.reasonCodes == e.reasonCodes
            && SameSources(d, e)
  {
    SourcesAreOrdered();
    SortProjects(d.sourceReferences);
    SortProjects(e.sourceReferences);
    SortIsCanonical(SourceLe(), Projected(d.sourceReferences), Projected(e.sourceReferences));
  }

  /** The Slack snapshot also ignores the order of reason codes, and tells every target apart. */
  lemma SlackSnapshotIsCanonical(d: Decision, e: Decision, a: GitHubAction, b: GitHubAction, c1: string, c2: string,
                                 t1: string, t2: string)
    ensures SnapshotForSlack(d, a, c1, Some(t1)) == SnapshotForSlack(e, b, c2, Some(t2))
       <==> && d.outcome == e.outcome && d.policyVersion == e.policyVersion
            && multiset(d.reasonCodes) == multiset(e.reasonCodes)
            && SameSources(d, e) && a == b && c1 == c2 && t1 == t2
  {
    SourcesAreOrdered();
    CodesAreOrdered();
    SortProjects(d.sourceReferences);
    SortProjects(e.sourceReferences);
    SortIsCanonical(SourceLe(), Projected(d.sourceReferences), Projected(e.sourceReferences));
    SortIsCanonical(CodeLe(), d.reasonCodes, e.reasonCodes);
  }

  /** The sources of a decision as both snapshots show them: projected, and in the order of their columns. */
  ghost predicate ShowsSources(d: Decision, sources: seq<Source>) {
    && Sorted(SourceLe(), sources)
    && multiset(sources) == multiset(Projected(d.sourceReferences))
  }

  /** What the GitHub snapshot shows. */
  lemma GitHubSnapshotShows(d: Decision)
    ensures
      var s := SnapshotForGitHub(d);
      && s.workflowVersion == "deployment_context_sync:v1" && s.policyVersion == d.policyVersion
      && s.outcome == d.outcome && s.reasonCodes == d.reasonCodes && ShowsSources(d, s.sources)
  {
    SourcesAreOrdered();
    SortProjects(d.sourceReferences);
    SortSorts(SourceLe(), Projected(d.sourceReferences));
  }

  /** What the Slack snapshot shows; without an expected team there is none. */
  lemma SlackSnapshotShows(d: Decision, action: GitHubAction, channel: string, team: Option<string>)
    ensures SnapshotForSlack(d, action, channel, team).Some? <==> team.Some?
    ensures
      team.Some? ==>
        var s := SnapshotForSlack(d, action, channel, team).value;
        && s.workflowVersion == "deployment_context_sync:v1" && s.policyVersion == d.policyVersion
        && s.outcome == d.outcome && ShowsSources(d, s.sources)
        && Sorted(CodeLe(), s.reasonCodes) && multiset(s.reasonCodes) == multiset(d.reasonCodes)
        && s.githubIdentifier == action.resourceIdentifier && s.githubRevision == action.revision
        && s.team == team.value && s.channel == channel
  {
    SourcesAreOrdered();
    CodesAreOrdered();
    SortProjects(d.sourceReferences);
    SortSorts(SourceLe(), Projected(d.sourceReferences));
    SortSorts(CodeLe(), d.reasonCodes);
  }

  /** The first column on which two sources differ decides their order, each column as text. */
  lemma SourceOrder(a: Source, b: Source)
    ensures SourceLe()(a, b) <==>
            if a.provider != b.provider then StringLe()(a.provider, b.provider)
            else if a.resourceType != b.resourceType then StringLe()(a.resourceType, b.resourceType)
            else if a.resourceIdentifier != b.resourceIdentifier then
              StringLe()(a.resourceIdentifier, b.resourceIdentifier)
            else if a.sourceVersion != b.sourceVersion then StringLe()(a.sourceVersion, b.sourceVersion)
            else a.contentHash == b.contentHash || StringLe()(a.contentHash, b.contentHash)
  {
    var le := StringLe();
    var s, t := Tuple(a), Tuple(b);
    Head(le, s, t);
    Head(le, s[1..], t[1..]);
    Head(le, s[1..][1..], t[1..][1..]);
    Head(le, s[1..][1..][1..], t[1..][1..][1..]);
    Head(le, s[1..][1..][1..][1..], t[1..][1..][1..][1..]);
  }

  lemma Head(le: (string, string) -> bool, s: seq<string>, t: seq<string>)
    requires s != [] && t != []
    ensures LexLe(le, s, t) == if s[0] == t[0] then LexLe(le, s[1..], t[1..]) else le(s[0], t[0])
  {
  }
}
