/**
 Service-catalog policy: which records resolve a request, whether they agree, and whether the bounded action is
 permitted. Case folding is a parameter; nothing is assumed about it.
 */
module CatalogPolicy {
  import opened Wrappers
  import opened Sorting

  datatype Classification = Public | Internal | Confidential | Restricted

  datatype Outcome = Ready | Blocked | NeedsHumanReview

  datatype Code =
    | CodeReady
    | ServiceNotAllowed
    | RepositoryNotAllowed
    | JiraProjectNotAllowed
    | RepositoryNotOwnedByService
    | ServiceRecordConflict
    | ServiceRecordMalformed
    | ServiceOwnerMissing
    | PolicyStale
    | DataClassificationBlocked
    | AutomaticPublicationDisabled
    | ReviewerRequired

  datatype Record = Record(
    serviceId: string, canonicalServiceId: string, aliases: seq<string>, serviceOwner: Option<string>,
    criticality: string, approvedRepositories: seq<string>, classification: Classification, policyVersion: int,
    automaticPublicationAllowed: bool, requiredReviewer: Option<string>, allowAutomaticUpdates: bool,
    sourceVersion: string, sourceUrl: string)

  datatype Signature = Signature(
    canonical: string, policyVersion: int, approvedRepositories: seq<string>, owner: Option<string>,
    classification: Classification, automaticPublicationAllowed: bool, requiredReviewer: Option<string>,
    allowAutomaticUpdates: bool)

  datatype Request = Request(serviceId: string, githubRepository: string, jiraIssueKey: string)

  datatype Scope = Scope(
    allowedServices: seq<string>, allowedRepositories: seq<string>, allowedProjects: seq<string>, minimumVersion: int)

  datatype Evaluation = Evaluation(outcome: Outcome, code: Code, record: Option<Record>)

  type Fold = string -> string

  // ---------------------------------------------------------------- trusted scope

  predicate Allowed(fold: Fold, item: string, allowed: seq<string>) {
    exists a | a in allowed :: fold(a) == fold(item)
  }

  /** The part of the issue key before the first hyphen. */
  function ProjectOf(key: string): string {
    if key == "" || key[0] == '-' then "" else [key[0]] + ProjectOf(key[1..])
  }

  function EvaluateStaticScope(fold: Fold, request: Request, scope: Scope): Option<Evaluation> {
    if !Allowed(fold, request.serviceId, scope.allowedServices) then Some(Evaluation(Blocked, ServiceNotAllowed, None))
    else if !Allowed(fold, request.githubRepository, scope.allowedRepositories) then
      Some(Evaluation(Blocked, RepositoryNotAllowed, None))
    else if !Allowed(fold, ProjectOf(request.jiraIssueKey), scope.allowedProjects) then
      Some(Evaluation(Blocked, JiraProjectNotAllowed, None))
    else None
  }

  /** The project of PROJECT-NUMBER is PROJECT. */
  lemma {:induction false} ProjectOfKey(project: string, number: string)
    requires forall i | 0 <= i < |project| :: project[i] != '-'
    ensures ProjectOf(project + "-" + number) == project
    decreases |project|
  {
    var key := project + "-" + number;
    if project != "" {
      assert key[1..] == project[1..] + "-" + number;
      ProjectOfKey(project[1..], number);
    }
  }

  predicate Includes(larger: seq<string>, smaller: seq<string>) { forall a | a in smaller :: a in larger }

  lemma AllowedGrows(fold: Fold, item: string, other: string, allowed: seq<string>, larger: seq<string>)
    requires fold(item) == fold(other) && Includes(larger, allowed) && Allowed(fold, item, allowed)
    ensures Allowed(fold, other, larger)
  {
    var a :| a in allowed && fold(a) == fold(item);
    assert a in larger;
  }

  /**
   A request for issue PROJECT-NUMBER passes exactly when its service, repository and project are all allowed; a
   refusal is always a block, and names the first of the three that is not.
   */
  lemma StaticScopeIff(fold: Fold, request: Request, scope: Scope, project: string, number: string)
    requires request.jiraIssueKey == project + "-" + number && forall i | 0 <= i < |project| :: project[i] != '-'
    ensures
      var refusal := EvaluateStaticScope(fold, request, scope);
      var service := Allowed(fold, request.serviceId, scope.allowedServices);
      var repository := Allowed(fold, request.githubRepository, scope.allowedRepositories);
      && (refusal.None? <==> service && repository && Allowed(fold, project, scope.allowedProjects))
      && (refusal.Some? ==> refusal.value.outcome.Blocked? && refusal.value.record.None?)
      && (refusal.Some? && refusal.value.code.RepositoryNotAllowed? ==> service)
      && (refusal.Some? && refusal.value.code.JiraProjectNotAllowed? ==> service && repository)
      && (refusal.Some? && refusal.value.code.ServiceNotAllowed? <==> !service)
  {
    ProjectOfKey(project, number);
  }

  /** Case does not matter to the scope, and widening an allow-list never refuses what it admitted. */
  lemma StaticScopeIsMonotone(fold: Fold, request: Request, other: Request, scope: Scope, wider: Scope)
    requires EvaluateStaticScope(fold, request, scope).None?
    requires fold(request.serviceId) == fold(other.serviceId)
    requires fold(request.githubRepository) == fold(other.githubRepository)
    requires fold(ProjectOf(request.jiraIssueKey)) == fold(ProjectOf(other.jiraIssueKey))
    requires Includes(wider.allowedServices, scope.allowedServices)
    requires Includes(wider.allowedRepositories, scope.allowedRepositories)
    requires Includes(wider.allowedProjects, scope.allowedProjects)
    ensures EvaluateStaticScope(fold, other, wider).None?
  {
    AllowedGrows(fold, request.serviceId, other.serviceId, scope.allowedServices, wider.allowedServices);
    AllowedGrows(fold, request.githubRepository, other.githubRepository, scope.allowedRepositories,
                 wider.allowedRepositories);
    AllowedGrows(fold, ProjectOf(request.jiraIssueKey), ProjectOf(other.jiraIssueKey), scope.allowedProjects,
                 wider.allowedProjects);
  }

  // ---------------------------------------------------------------- catalog authority

  predicate Resolves(fold: Fold, request: Request, r: Record) {
    var requested := fold(request.serviceId);
    || requested == fold(r.serviceId)
    || requested == fold(r.canonicalServiceId)
    || exists a | a in r.aliases :: requested == fold(a)
  }

  function Candidates(fold: Fold, request: Request, records: seq<Record>): seq<Record> {
    if records == [] then []
    else (if Resolves(fold, request, records[0]) then [records[0]] else []) + Candidates(fold, request, records[1..])
  }

  function SignatureOf(fold: Fold, r: Record): Signature {
    Signature(fold(r.canonicalServiceId), r.policyVersion, r.approvedRepositories, r.serviceOwner, r.classification,
              r.automaticPublicationAllowed, r.requiredReviewer, r.allowAutomaticUpdates)
  }

  /** The first of the records with the greatest source version. */
  function Latest(records: seq<Record>): Record
    requires records != []
  {
    if |records| == 1 then records[0]
    else
      var rest := Latest(records[1..]);
      if StringLe()(rest.sourceVersion, records[0].sourceVersion) then records[0] else rest
  }

  function Decide(fold: Fold, request: Request, minimumVersion: int, r: Record): (Outcome, Code) {
    if r.serviceOwner.None? then (NeedsHumanReview, ServiceOwnerMissing)
    else if r.classification.Restricted? then (Blocked, DataClassificationBlocked)
    else if r.classification.Confidential? then (NeedsHumanReview, DataClassificationBlocked)
    else if r.policyVersion < minimumVersion then (NeedsHumanReview, PolicyStale)
    else if fold(request.githubRepository) !in r.approvedRepositories then (Blocked, RepositoryNotOwnedByService)
    else if !r.automaticPublicationAllowed then (NeedsHumanReview, AutomaticPublicationDisabled)
    else if r.requiredReviewer.Some? then (NeedsHumanReview, ReviewerRequired)
    else (Ready, CodeReady)
  }

  predicate Agree(fold: Fold, records: seq<Record>) {
    forall a, b | a in records && b in records :: SignatureOf(fold, a) == SignatureOf(fold, b)
  }

  function EvaluateServiceCatalog(fold: Fold, request: Request, records: seq<Record>, minimumVersion: int): Evaluation {
    var candidates := Candidates(fold, request, records);
    if candidates == [] then Evaluation(Blocked, ServiceRecordMalformed, None)
    else if !Agree(fold, candidates) then Evaluation(NeedsHumanReview, ServiceRecordConflict, None)
    else
      var record := Latest(candidates);
      var (outcome, code) := Decide(fold, request, minimumVersion, record);
      Evaluation(outcome, code, Some(record))
  }

  // ---------------------------------------------------------------- properties

  lemma {:induction false} CandidatesAre(fold: Fold, request: Request, records: seq<Record>, r: Record)
    ensures r in Candidates(fold, request, records) <==> r in records && Resolves(fold, request, r)
    decreases |records|
  {
    if records != [] { CandidatesAre(fold, request, records[1..], r); }
  }

  /** Among records of the same latest version the first is chosen. */
  lemma {:induction false} LatestIsFirst(records: seq<Record>) returns (i: nat)
    requires records != []
    ensures i < |records| && records[i] == Latest(records)
    ensures forall j | 0 <= j < i :: !StringLe()(records[i].sourceVersion, records[j].sourceVersion)
    decreases |records|
  {
    i := 0;
    if |records| > 1 {
      StringsAreOrdered();
      var rest := LatestIsFirst(records[1..]);
      if !StringLe()(Latest(records[1..]).sourceVersion, records[0].sourceVersion) {
        i := rest + 1;
        forall j | 0 <= j < i ensures !StringLe()(records[i].sourceVersion, records[j].sourceVersion) {
          if j > 0 { assert records[j] == records[1..][j - 1]; }
        }
      }
    }
  }

  /** The chosen record is a candidate, and no candidate has a later source version. */
  lemma {:induction false} LatestIsMaximal(records: seq<Record>)
    requires records != []
    ensures Latest(records) in records
    ensures forall r | r in records :: StringLe()(r.sourceVersion, Latest(records).sourceVersion)
    decreases |records|
  {
    StringsAreOrdered();
    if |records| > 1 { LatestIsMaximal(records[1..]); }
  }

  /** Every condition the catalog puts on one record. */
  predicate Authorizes(fold: Fold, request: Request, minimumVersion: int, r: Record) {
    && r.serviceOwner.Some?
    && !r.classification.Restricted? && !r.classification.Confidential?
    && r.policyVersion >= minimumVersion
    && fold(request.githubRepository) in r.approvedRepositories
    && r.automaticPublicationAllowed
    && r.requiredReviewer.None?
  }

  /** What agreeing records are decided on does not depend on which of them is chosen. */
  lemma DecisionFollowsSignature(fold: Fold, request: Request, minimumVersion: int, a: Record, b: Record)
    requires SignatureOf(fold, a) == SignatureOf(fold, b)
    ensures Decide(fold, request, minimumVersion, a) == Decide(fold, request, minimumVersion, b)
    ensures Authorizes(fold, request, minimumVersion, a) <==> Authorizes(fold, request, minimumVersion, b)
  {
    var s := SignatureOf(fold, a);
    assert s.owner == a.serviceOwner && s.owner == b.serviceOwner;
  }

  ghost predicate Has(fold: Fold, records: seq<Record>, s: Signature) {
    exists i :: 0 <= i < |records| && SignatureOf(fold, records[i]) == s
  }

  ghost predicate SameSignatures(fold: Fold, a: seq<Record>, b: seq<Record>) {
    forall s :: Has(fold, a, s) <==> Has(fold, b, s)
  }

  lemma HasOwn(fold: Fold, records: seq<Record>, r: Record)
    requires r in records
    ensures Has(fold, records, SignatureOf(fold, r))
  {
    var i :| 0 <= i < |records| && records[i] == r;
  }

  /** Outcome and code depend only on the set of signatures of the records that resolve the request. */
  lemma SignaturesDecide(fold: Fold, request: Request, a: seq<Record>, b: seq<Record>, minimumVersion: int)
    requires SameSignatures(fold, Candidates(fold, request, a), Candidates(fold, request, b))
    ensures
      var x := EvaluateServiceCatalog(fold, request, a, minimumVersion);
      var y := EvaluateServiceCatalog(fold, request, b, minimumVersion);
      x.outcome == y.outcome && x.code == y.code
  {
    var ca := Candidates(fold, request, a);
    var cb := Candidates(fold, request, b);
    SameAgreement(fold, ca, cb);
    SameAgreement(fold, cb, ca);
    if ca != [] && Agree(fold, ca) {
      LatestIsMaximal(ca);
      LatestIsMaximal(cb);
      HasOwn(fold, ca, Latest(ca));
      var i :| 0 <= i < |cb| && SignatureOf(fold, cb[i]) == SignatureOf(fold, Latest(ca));
      assert SignatureOf(fold, cb[i]) == SignatureOf(fold, Latest(cb));
      DecisionFollowsSignature(fold, request, minimumVersion, Latest(ca), Latest(cb));
    }
  }

  lemma SameAgreement(fold: Fold, a: seq<Record>, b: seq<Record>)
    requires SameSignatures(fold, a, b)
    ensures a != [] ==> b != []
    ensures Agree(fold, a) ==> Agree(fold, b)
  {
    if a != [] {
      HasOwn(fold, a, a[0]);
      assert Has(fold, b, SignatureOf(fold, a[0]));
    }
    if Agree(fold, a) {
      forall x, y | x in b && y in b ensures SignatureOf(fold, x) == SignatureOf(fold, y) {
        HasOwn(fold, b, x);
        HasOwn(fold, b, y);
        assert Has(fold, a, SignatureOf(fold, x)) && Has(fold, a, SignatureOf(fold, y));
      }
    }
  }

  lemma SameMembersSameSignatures(fold: Fold, a: seq<Record>, b: seq<Record>, s: Signature)
    requires forall r | r in a :: r in b
    requires Has(fold, a, s)
    ensures Has(fold, b, s)
  {
    var i :| 0 <= i < |a| && SignatureOf(fold, a[i]) == s;
    HasOwn(fold, b, a[i]);
  }

  /** Any reordering of the records gives the same outcome and code. */
  lemma OrderDoesNotMatter(fold: Fold, request: Request, a: seq<Record>, b: seq<Record>, minimumVersion: int)
    requires multiset(a) == multiset(b)
    ensures
      var x := EvaluateServiceCatalog(fold, request, a, minimumVersion);
      var y := EvaluateServiceCatalog(fold, request, b, minimumVersion);
      x.outcome == y.outcome && x.code == y.code
  {
    forall r ensures r in Candidates(fold, request, a) <==> r in Candidates(fold, request, b) {
      assert r in multiset(a) <==> r in multiset(b);
      CandidatesAre(fold, request, a, r);
      CandidatesAre(fold, request, b, r);
    }
    forall s ensures Has(fold, Candidates(fold, request, a), s) <==> Has(fold, Candidates(fold, request, b), s) {
      var ca, cb := Candidates(fold, request, a), Candidates(fold, request, b);
      if Has(fold, ca, s) { SameMembersSameSignatures(fold, ca, cb, s); }
      if Has(fold, cb, s) { SameMembersSameSignatures(fold, cb, ca, s); }
    }
    SignaturesDecide(fold, request, a, b, minimumVersion);
  }

  /** READY holds exactly when some record resolves, all that resolve agree, and every one of them authorizes. */
  lemma ReadyIff(fold: Fold, request: Request, records: seq<Record>, minimumVersion: int)
    ensures EvaluateServiceCatalog(fold, request, records, minimumVersion).outcome.Ready?
       <==> && (exists r :: r in records && Resolves(fold, request, r))
            && (forall r, q | r in records && q in records
                              && Resolves(fold, request, r) && Resolves(fold, request, q) ::
                  SignatureOf(fold, r) == SignatureOf(fold, q))
            && (forall r | r in records && Resolves(fold, request, r) :: Authorizes(fold, request, minimumVersion, r))
  {
    var candidates := Candidates(fold, request, records);
    forall r ensures r in candidates <==> r in records && Resolves(fold, request, r) {
      CandidatesAre(fold, request, records, r);
    }
    if candidates != [] {
      assert candidates[0] in candidates;
      LatestIsMaximal(candidates);
      if Agree(fold, candidates) {
        forall r | r in candidates
          ensures Authorizes(fold, request, minimumVersion, r)
             <==> Authorizes(fold, request, minimumVersion, Latest(candidates))
        {
          DecisionFollowsSignature(fold, request, minimumVersion, r, Latest(candidates));
        }
      }
    }
  }

  /** Dropping records never revokes READY while one that resolves is left. */
  lemma ReadyIsClosedUnderSubsets(fold: Fold, request: Request, records: seq<Record>, fewer: seq<Record>,
                                  minimumVersion: int)
    requires EvaluateServiceCatalog(fold, request, records, minimumVersion).outcome.Ready?
    requires forall r | r in fewer :: r in records
    requires exists r :: r in fewer && Resolves(fold, request, r)
    ensures EvaluateServiceCatalog(fold, request, fewer, minimumVersion).outcome.Ready?
  {
    ReadyIff(fold, request, records, minimumVersion);
    ReadyIff(fold, request, fewer, minimumVersion);
  }

  /** A named record is one that resolves the request, with the latest version, and its own fields gave the decision. */
  lemma RecordExplainsDecision(fold: Fold, request: Request, records: seq<Record>, minimumVersion: int)
    ensures
      var e := EvaluateServiceCatalog(fold, request, records, minimumVersion);
      && (e.record.Some? ==>
            && e.record.value in records && Resolves(fold, request, e.record.value)
            && (e.outcome, e.code) == Decide(fold, request, minimumVersion, e.record.value)
            && forall r | r in records && Resolves(fold, request, r) ::
              StringLe()(r.sourceVersion, e.record.value.sourceVersion))
      && (e.record.None? <==> e.code.ServiceRecordMalformed? || e.code.ServiceRecordConflict?)
  {
    var candidates := Candidates(fold, request, records);
    forall r ensures r in candidates <==> r in records && Resolves(fold, request, r) {
      CandidatesAre(fold, request, records, r);
    }
    if candidates != [] { LatestIsMaximal(candidates); }
  }

  /** The agreeing records that resolve a request, and the columns the decision may read of any one of them. */
  ghost predicate Agreed(fold: Fold, request: Request, records: seq<Record>, r: Record) {
    && r in records && Resolves(fold, request, r)
    && forall q | q in records && Resolves(fold, request, q) :: SignatureOf(fold, q) == SignatureOf(fold, r)
  }

  /**
   The answer when the records that resolve a request agree, by the columns of any of them: the first condition that
   fails names the code, and only two of the refusals are blocks.
   */
  lemma RefusalsAre(fold: Fold, request: Request, records: seq<Record>, minimumVersion: int, r: Record)
    requires Agreed(fold, request, records, r)
    ensures
      var e := EvaluateServiceCatalog(fold, request, records, minimumVersion);
      (e.outcome, e.code)
      == if r.serviceOwner == None then (NeedsHumanReview, ServiceOwnerMissing)
         else if r.classification == Restricted then (Blocked, DataClassificationBlocked)
         else if r.classification == Confidential then (NeedsHumanReview, DataClassificationBlocked)
         else if r.policyVersion < minimumVersion then (NeedsHumanReview, PolicyStale)
         else if !(exists i :: 0 <= i < |r.approvedRepositories|
                     && r.approvedRepositories[i] == fold(request.githubRepository))
           then (Blocked, RepositoryNotOwnedByService)
         else if !r.automaticPublicationAllowed then (NeedsHumanReview, AutomaticPublicationDisabled)
         else if r.requiredReviewer != None then (NeedsHumanReview, ReviewerRequired)
         else (Ready, CodeReady)
  {
    var candidates := Candidates(fold, request, records);
    forall q ensures q in candidates <==> q in records && Resolves(fold, request, q) {
      CandidatesAre(fold, request, records, q);
    }
    LatestIsMaximal(candidates);
    DecisionFollowsSignature(fold, request, minimumVersion, r, Latest(candidates));
  }

  /** The two answers without a record: nothing resolves, or what resolves disagrees. */
  lemma UnresolvedAre(fold: Fold, request: Request, records: seq<Record>, minimumVersion: int)
    ensures
      var e := EvaluateServiceCatalog(fold, request, records, minimumVersion);
      && (e == Evaluation(Blocked, ServiceRecordMalformed, None) <==>
            forall r | r in records :: !Resolves(fold, request, r))
      && (e == Evaluation(NeedsHumanReview, ServiceRecordConflict, None) <==>
            exists r, q :: r in records && q in records && Resolves(fold, request, r) && Resolves(fold, request, q)
              && SignatureOf(fold, r) != SignatureOf(fold, q))
  {
    var candidates := Candidates(fold, request, records);
    forall r ensures r in candidates <==> r in records && Resolves(fold, request, r) {
      CandidatesAre(fold, request, records, r);
    }
    if candidates != [] { assert candidates[0] in candidates; }
  }

  /** A record resolves a request by its own name, its canonical name or an alias, up to case. */
  lemma ResolvesIff(fold: Fold, request: Request, r: Record)
    ensures Resolves(fold, request, r)
       <==> || fold(r.serviceId) == fold(request.serviceId)
            || fold(r.canonicalServiceId) == fold(request.serviceId)
            || exists i :: 0 <= i < |r.aliases| && fold(r.aliases[i]) == fold(request.serviceId)
  {
  }

  /** Records agree when their canonical names do, up to case, and these seven columns do exactly. */
  lemma SignatureIff(fold: Fold, a: Record, b: Record)
    ensures SignatureOf(fold, a) == SignatureOf(fold, b)
       <==> && fold(a.canonicalServiceId) == fold(b.canonicalServiceId)
            && a.policyVersion == b.policyVersion && a.approvedRepositories == b.approvedRepositories
            && a.serviceOwner == b.serviceOwner && a.classification == b.classification
            && a.automaticPublicationAllowed == b.automaticPublicationAllowed
            && a.requiredReviewer == b.requiredReviewer && a.allowAutomaticUpdates == b.allowAutomaticUpdates
  {
  }
}
