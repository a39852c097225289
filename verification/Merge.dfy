/** The bounded merge of a reviewed pull request: policy, exact head, and final validation. */
module Merge {
  import opened Wrappers

  type Sha = nat

  datatype Risk = Low | Medium | High

  datatype Assessment = Assessment(
    risk: Risk, roadmapAuthorized: bool, reversible: bool, productionDeployment: bool, customerSideEffect: bool,
    stopCategories: seq<string>)

  /** The issue as GitHub reports it now; None is an assessment block that does not parse. */
  datatype Issue = Issue(current: bool, ownerIsAuthor: bool, open: bool, contract: bool, assessment: Option<Assessment>)

  datatype PullRequest = PullRequest(
    number: Option<nat>, open: bool, toMain: bool, branch: string, head: Sha, mergeable: bool, blockedByReview: bool,
    marked: bool, draft: Option<bool>)

  datatype Reason =
    | IssueInvalid | NotOwner | IssueClosed | ContractInvalid | NoAssessment | RiskTooHigh | NotAuthorized
    | NotReversible | Production | CustomerSideEffect | StopCategories | Protected(path: string) | NoChangedPaths
    | NotOpen | WrongBase | WrongBranch | WrongHead | NotMergeable | ReviewBlocks | Unmarked | NoNumber
    | UnresolvedThreads | StillDraft | MergeRejected | RecoveryNeverMerges

  // ---------- Policy ----------

  function If(condition: bool, reason: Reason): seq<Reason> { if condition then [reason] else [] }

  function IssueProblem(issue: Issue): Option<Reason> {
    if !issue.current then Some(IssueInvalid)
    else if !issue.ownerIsAuthor then Some(NotOwner)
    else if !issue.open then Some(IssueClosed)
    else if !issue.contract then Some(ContractInvalid)
    else None
  }

  /** The first thing that is wrong with an issue. */
  predicate IsProblem(issue: Issue, reason: Reason) {
    || (reason == IssueInvalid && !issue.current)
    || (reason == NotOwner && issue.current && !issue.ownerIsAuthor)
    || (reason == IssueClosed && issue.current && issue.ownerIsAuthor && !issue.open)
    || (reason == ContractInvalid && issue.current && issue.ownerIsAuthor && issue.open && !issue.contract)
  }

  lemma ProblemMeans(issue: Issue, reason: Reason)
    ensures IssueProblem(issue) == Some(reason) <==> IsProblem(issue, reason)
    ensures IssueProblem(issue).None? <==> issue.current && issue.ownerIsAuthor && issue.open && issue.contract
  {
  }

  /** What authorises a merge of these paths: a low or medium risk, authorised, reversible change without side
      effects, on at least one path and no protected one. */
  ghost predicate Authorised(issue: Issue, paths: seq<string>, isProtected: string -> bool) {
    && issue.assessment.Some?
    && var a := issue.assessment.value;
       && !a.risk.High? && a.roadmapAuthorized && a.reversible && !a.productionDeployment && !a.customerSideEffect
       && a.stopCategories == []
       && paths != [] && forall p <- paths :: !isProtected(p)
  }

  lemma InIf(condition: bool, reason: Reason, x: Reason)
    ensures x in If(condition, reason) <==> condition && x == reason
  {
  }

  lemma InSum<T>(x: T, a: seq<T>, b: seq<T>, c: seq<T>, d: seq<T>)
    ensures x in a + b + c + d <==> x in a || x in b || x in c || x in d
  {
  }

  /** What the assessment itself has against a merge. */
  function DeclaredReasons(a: Assessment): seq<Reason> {
    If(a.risk.High?, RiskTooHigh) + If(!a.roadmapAuthorized, NotAuthorized) + If(!a.reversible, NotReversible)
    + (If(a.productionDeployment, Production) + If(a.customerSideEffect, CustomerSideEffect) + If(a.stopCategories != [], StopCategories)
       + [])
  }

  lemma IsDeclared(a: Assessment, x: Reason)
    ensures x in DeclaredReasons(a)
       <==> || (x == RiskTooHigh && a.risk.High?) || (x == NotAuthorized && !a.roadmapAuthorized)
            || (x == NotReversible && !a.reversible) || (x == Production && a.productionDeployment)
            || (x == CustomerSideEffect && a.customerSideEffect) || (x == StopCategories && a.stopCategories != [])
  {
    var rest := If(a.productionDeployment, Production) + If(a.customerSideEffect, CustomerSideEffect)
                + If(a.stopCategories != [], StopCategories) + [];
    InIf(a.risk.High?, RiskTooHigh, x);
    InIf(!a.roadmapAuthorized, NotAuthorized, x);
    InIf(!a.reversible, NotReversible, x);
    InIf(a.productionDeployment, Production, x);
    InIf(a.customerSideEffect, CustomerSideEffect, x);
    InIf(a.stopCategories != [], StopCategories, x);
    hide If;
    InSum(x, If(a.risk.High?, RiskTooHigh), If(!a.roadmapAuthorized, NotAuthorized), If(!a.reversible, NotReversible), rest);
    InSum(x, If(a.productionDeployment, Production), If(a.customerSideEffect, CustomerSideEffect),
          If(a.stopCategories != [], StopCategories), []);
  }

  lemma DeclaredMean(a: Assessment)
    ensures Names(a, DeclaredReasons(a)) && NoChangedPaths !in DeclaredReasons(a) && NoAssessment !in DeclaredReasons(a)
    ensures forall p :: Protected(p) !in DeclaredReasons(a)
  {
    forall x: Reason { IsDeclared(a, x); }
    hide DeclaredReasons;
  }

  lemma NothingDeclared(a: Assessment)
    ensures DeclaredReasons(a) == []
       <==> a.risk != High && a.roadmapAuthorized && a.reversible && !a.productionDeployment && !a.customerSideEffect
            && a.stopCategories == []
  {
    var reasons := DeclaredReasons(a);
    if reasons != [] {
      IsDeclared(a, reasons[0]);
    } else {
      DeclaredMean(a);
    }
    hide DeclaredReasons, If;
  }

  /** Each thing that the assessment declares has its own reason. */
  predicate Names(a: Assessment, reasons: seq<Reason>) {
    && (RiskTooHigh in reasons <==> a.risk == High) && (NotAuthorized in reasons <==> !a.roadmapAuthorized)
    && (NotReversible in reasons <==> !a.reversible) && (Production in reasons <==> a.productionDeployment)
    && (CustomerSideEffect in reasons <==> a.customerSideEffect) && (StopCategories in reasons <==> a.stopCategories != [])
  }

  /** One reason for each protected path. */
  method ProtectedReasons(declared: seq<Reason>, paths: seq<string>, isProtected: string -> bool) returns (reasons: seq<Reason>)
    requires forall p :: Protected(p) !in declared
    ensures forall p :: Protected(p) in reasons <==> p in paths && isProtected(p)
    ensures forall x: Reason :: !x.Protected? ==> (x in reasons <==> x in declared)
    ensures reasons == [] <==> declared == [] && forall p <- paths :: !isProtected(p)
  {
    reasons := declared;
    for i := 0 to |paths|
      invariant forall p :: Protected(p) in reasons <==> p in paths[..i] && isProtected(p)
      invariant forall x: Reason :: !x.Protected? ==> (x in reasons <==> x in declared)
      invariant reasons == [] <==> declared == [] && forall p <- paths[..i] :: !isProtected(p)
    {
      assert paths[..i + 1] == paths[..i] + [paths[i]];
      if isProtected(paths[i]) { reasons := reasons + [Protected(paths[i])]; }
    }
    assert paths[..|paths|] == paths;
  }

  method AutoMergePolicyReasons(issue: Issue, paths: seq<string>, isProtected: string -> bool) returns (reasons: seq<Reason>)
    ensures reasons == [] <==> Authorised(issue, paths, isProtected)
    ensures issue.assessment.Some? ==> forall p :: Protected(p) in reasons <==> p in paths && isProtected(p)
    ensures issue.assessment.None? <==> reasons == [NoAssessment]
    ensures issue.assessment.Some? ==> Names(issue.assessment.value, reasons) && (NoChangedPaths in reasons <==> paths == [])
  {
    if issue.assessment.None? { return [NoAssessment]; }
    var a := issue.assessment.value;
    DeclaredMean(a);
    NothingDeclared(a);
    hide DeclaredReasons;
    reasons := ProtectedReasons(DeclaredReasons(a), paths, isProtected);
    assert NoAssessment !in reasons && NoAssessment in [NoAssessment];
    if paths == [] { reasons := reasons + [NoChangedPaths]; }
  }

  /** The pull request is open, mergeable and marked, and its head is the reviewed one. */
  predicate Reviewed(pr: PullRequest, branch: string, head: Sha) {
    && pr.open && pr.toMain && pr.branch == branch && pr.head == head && pr.mergeable && !pr.blockedByReview
    && pr.marked && pr.number.Some?
  }

  function PrReasons(pr: PullRequest, branch: string, head: Sha): (reasons: seq<Reason>)
    ensures reasons == [] <==> Reviewed(pr, branch, head)
  {
    If(!pr.open, NotOpen) + If(!pr.toMain, WrongBase) + If(pr.branch != branch, WrongBranch) + If(pr.head != head, WrongHead)
    + If(!pr.mergeable, NotMergeable) + If(pr.blockedByReview, ReviewBlocks) + If(!pr.marked, Unmarked)
    + If(pr.number.None?, NoNumber)
  }

  lemma IsReason(pr: PullRequest, branch: string, head: Sha, x: Reason)
    ensures x in PrReasons(pr, branch, head)
       <==> || (x == NotOpen && !pr.open) || (x == WrongBase && !pr.toMain) || (x == WrongBranch && pr.branch != branch)
            || (x == WrongHead && pr.head != head) || (x == NotMergeable && !pr.mergeable)
            || (x == ReviewBlocks && pr.blockedByReview) || (x == Unmarked && !pr.marked) || (x == NoNumber && pr.number.None?)
  {
    InIf(!pr.open, NotOpen, x);
    InIf(!pr.toMain, WrongBase, x);
    InIf(pr.branch != branch, WrongBranch, x);
    InIf(pr.head != head, WrongHead, x);
    InIf(!pr.mergeable, NotMergeable, x);
    InIf(pr.blockedByReview, ReviewBlocks, x);
    InIf(!pr.marked, Unmarked, x);
    InIf(pr.number.None?, NoNumber, x);
    hide If;
    var first := If(!pr.open, NotOpen) + If(!pr.toMain, WrongBase) + If(pr.branch != branch, WrongBranch) + If(pr.head != head, WrongHead);
    InSum(x, If(!pr.open, NotOpen), If(!pr.toMain, WrongBase), If(pr.branch != branch, WrongBranch), If(pr.head != head, WrongHead));
    InSum(x, If(!pr.mergeable, NotMergeable), If(pr.blockedByReview, ReviewBlocks), If(!pr.marked, Unmarked), If(pr.number.None?, NoNumber));
    assert PrReasons(pr, branch, head)
        == first + (If(!pr.mergeable, NotMergeable) + If(pr.blockedByReview, ReviewBlocks) + If(!pr.marked, Unmarked)
                    + If(pr.number.None?, NoNumber));
  }

  /** Each thing that is wrong with the pull request has its own reason. */
  lemma PrReasonsMean(pr: PullRequest, branch: string, head: Sha)
    ensures var reasons := PrReasons(pr, branch, head);
            && (NotOpen in reasons <==> !pr.open) && (WrongBase in reasons <==> !pr.toMain)
            && (WrongBranch in reasons <==> pr.branch != branch) && (WrongHead in reasons <==> pr.head != head)
            && (NotMergeable in reasons <==> !pr.mergeable) && (ReviewBlocks in reasons <==> pr.blockedByReview)
            && (Unmarked in reasons <==> !pr.marked) && (NoNumber in reasons <==> pr.number == None)
  {
    hide PrReasons;
    forall x: Reason { IsReason(pr, branch, head, x); }
  }

  // ---------- GitHub ----------

  /** GitHub at one moment. It may be any other at the next: `accepts` tells whether it takes the merge command,
      and `merged` and `mergeSha` what it reports afterwards. */
  datatype View = View(issue: Issue, pr: PullRequest, unresolved: bool, accepts: bool, merged: bool, mergeSha: Option<Sha>)

  /** A call, with what it read. Each call sees GitHub one moment later than the one before. */
  datatype Call =
    | ReadIssue(issue: Issue)
    | ReadPr(pr: PullRequest)
    | ReadThreads(unresolved: bool)
    | MakeReady
    | AskMerge(head: Sha)
    | ReadMerge(open: bool, merged: bool, sha: Option<Sha>)

  /** The calls read what GitHub shows at their moments. */
  predicate Truthful(calls: seq<Call>, github: nat -> View) {
    forall i :: 0 <= i < |calls| ==>
      match calls[i]
      case ReadIssue(issue) => issue == github(i).issue
      case ReadPr(pr) => pr == github(i).pr
      case ReadThreads(unresolved) => unresolved == github(i).unresolved
      case ReadMerge(open, merged, sha) => open == github(i).pr.open && merged == github(i).merged && sha == github(i).mergeSha
      case _ => true
  }

  datatype Outcome = Merged(sha: Sha) | Blocked(reasons: seq<Reason>) | Failed

  ghost predicate CleanIssue(call: Call, paths: seq<string>, isProtected: string -> bool) {
    call.ReadIssue? && IssueProblem(call.issue).None? && Authorised(call.issue, paths, isProtected)
  }

  predicate CleanPr(call: Call, branch: string, head: Sha) { call.ReadPr? && Reviewed(call.pr, branch, head) }

  /** Three reads in a row, just before a call: the issue authorises the merge, the pull request is the reviewed
      one and no draft, and no thread is open. */
  ghost predicate CleanBefore(calls: seq<Call>, k: nat, paths: seq<string>, isProtected: string -> bool, branch: string, head: Sha)
    requires k <= |calls|
  {
    && k >= 3 && CleanIssue(calls[k - 3], paths, isProtected)
    && CleanPr(calls[k - 2], branch, head) && calls[k - 2].pr.draft == Some(false)
    && calls[k - 1] == ReadThreads(false)
  }

  /** A merge is asked for only right after three clean reads, and only for the reviewed head. */
  ghost predicate OnlyCleanMerges(calls: seq<Call>, paths: seq<string>, isProtected: string -> bool, branch: string, head: Sha) {
    forall k :: 0 <= k < |calls| && calls[k].AskMerge?
      ==> calls[k].head == head && CleanBefore(calls, k, paths, isProtected, branch, head)
  }

  /** The issue is current, open and the owner's, its contract is valid, and it declares a low or medium risk, authorised,
      reversible and without side effects. */
  predicate IssueFit(issue: Issue) {
    && issue.current && issue.ownerIsAuthor && issue.open && issue.contract && issue.assessment.Some?
    && var a := issue.assessment.value;
       && a.risk != High && a.roadmapAuthorized && a.reversible && !a.productionDeployment && !a.customerSideEffect
       && a.stopCategories == []
  }

  /** The pull request is out of draft, open on main from the branch at the head, mergeable, unblocked, marked and
      numbered. */
  predicate PrFit(pr: PullRequest, branch: string, head: Sha) {
    && pr.open && pr.toMain && pr.branch == branch && pr.head == head && pr.mergeable && !pr.blockedByReview
    && pr.marked && pr.number != None && pr.draft == Some(false)
  }

  /** Every merge asked for is for the head, and comes right after an issue and a pull request that are fit, and threads
      that are all resolved; and some path is changed and none is protected. */
  predicate MergesOnlyFit(calls: seq<Call>, paths: seq<string>, isProtected: string -> bool, branch: string, head: Sha) {
    forall k :: 0 <= k < |calls| && calls[k].AskMerge? ==>
      && k >= 6 && calls[k].head == head
      && calls[k - 3].ReadIssue? && IssueFit(calls[k - 3].issue)
      && calls[k - 2].ReadPr? && PrFit(calls[k - 2].pr, branch, head)
      && calls[k - 1] == ReadThreads(false)
      && paths != [] && forall i :: 0 <= i < |paths| ==> !isProtected(paths[i])
  }

  lemma CleanIsFit(call: Call, next: Call, paths: seq<string>, isProtected: string -> bool, branch: string, head: Sha)
    requires CleanIssue(call, paths, isProtected) && CleanPr(next, branch, head) && next.pr.draft == Some(false)
    ensures IssueFit(call.issue) && PrFit(next.pr, branch, head) && paths != [] && forall i :: 0 <= i < |paths| ==> !isProtected(paths[i])
  {
    ProblemMeans(call.issue, IssueInvalid);
  }

  lemma CleanMergesAreFit(calls: seq<Call>, paths: seq<string>, isProtected: string -> bool, branch: string, head: Sha)
    requires OnlyCleanMerges(calls, paths, isProtected, branch, head) && ValidatedTwice(calls)
    ensures MergesOnlyFit(calls, paths, isProtected, branch, head)
  {
    hide Authorised, Reviewed, IssueFit, PrFit;
    forall k | 0 <= k < |calls| && calls[k].AskMerge?
      ensures k >= 6 && calls[k - 3].ReadIssue? && IssueFit(calls[k - 3].issue)
      ensures calls[k - 2].ReadPr? && PrFit(calls[k - 2].pr, branch, head)
      ensures paths != [] && forall i :: 0 <= i < |paths| ==> !isProtected(paths[i])
    {
      CleanIsFit(calls[k - 3], calls[k - 2], paths, isProtected, branch, head);
    }
  }

  /** An issue with a problem ends the attempt, with that problem as the reason. */
  ghost predicate ProblemsEnd(calls: seq<Call>, reasons: seq<Reason>) {
    forall i, problem :: 0 <= i < |calls| && calls[i].ReadIssue? && IsProblem(calls[i].issue, problem)
      ==> i == |calls| - 1 && reasons == [problem]
  }

  lemma NoProblems(calls: seq<Call>, paths: seq<string>, isProtected: string -> bool, branch: string, head: Sha)
    requires NoObjection(calls, paths, isProtected, branch, head)
    ensures forall i, problem :: 0 <= i < |calls| && calls[i].ReadIssue? ==> !IsProblem(calls[i].issue, problem)
  {
    forall i, problem | 0 <= i < |calls| && calls[i].ReadIssue?
      ensures !IsProblem(calls[i].issue, problem)
    {
      assert !Objection(calls[i], paths, isProtected, branch, head);
      ProblemMeans(calls[i].issue, problem);
    }
  }

  lemma ProblemFree(calls: seq<Call>, paths: seq<string>, isProtected: string -> bool, branch: string, head: Sha, reasons: seq<Reason>)
    requires NoObjection(calls, paths, isProtected, branch, head)
    ensures ProblemsEnd(calls, reasons)
  {
    NoProblems(calls, paths, isProtected, branch, head);
  }

  /** Something a merge must not go ahead with. */
  ghost predicate Objection(call: Call, paths: seq<string>, isProtected: string -> bool, branch: string, head: Sha) {
    match call
    case ReadIssue(_) => !CleanIssue(call, paths, isProtected)
    case ReadPr(_) => !CleanPr(call, branch, head)
    case ReadThreads(unresolved) => unresolved
    case _ => false
  }

  /** Everything the calls so far have read is clean. */
  ghost predicate NoObjection(calls: seq<Call>, paths: seq<string>, isProtected: string -> bool, branch: string, head: Sha) {
    forall i :: 0 <= i < |calls| ==> !Objection(calls[i], paths, isProtected, branch, head)
  }

  /** Two validations: the pull request is taken out of draft only after the first one, and only if it was a
      draft; the merge is asked for only after the second one. */
  predicate ValidatedTwice(calls: seq<Call>) {
    && (forall k :: 0 <= k < |calls| && calls[k].AskMerge? ==> k >= 6)
    && (forall i :: 0 <= i < |calls| && calls[i].MakeReady?
          ==> i == 3 && calls[1].ReadPr? && calls[1].pr.draft == Some(true) && calls[2] == ReadThreads(false))
  }

  predicate Asks(calls: seq<Call>) { exists k :: 0 <= k < |calls| && calls[k].AskMerge? }

  /** The issue as GitHub reports it now, and the reasons it gives against a merge. */
  method ReadPolicy(github: nat -> View, before: seq<Call>, paths: seq<string>, isProtected: string -> bool)
    returns (problem: Option<Reason>, reasons: seq<Reason>, calls: seq<Call>)
    requires Truthful(before, github)
    ensures |calls| == |before| + 1 && calls[..|before|] == before && Truthful(calls, github)
    ensures calls[|before|].ReadIssue?
    ensures problem.None? && reasons == [] <==> CleanIssue(calls[|before|], paths, isProtected)
    ensures forall reason :: problem == Some(reason) <==> IsProblem(calls[|before|].issue, reason)
  {
    var issue := github(|before|).issue;
    forall reason { ProblemMeans(issue, reason); }
    calls, problem := before + [ReadIssue(issue)], IssueProblem(issue);
    reasons := AutoMergePolicyReasons(issue, paths, isProtected);
  }

  /** The pull request as GitHub reports it now, then its threads, and the reasons they give against a merge. */
  method ReadPullRequest(github: nat -> View, before: seq<Call>, branch: string, head: Sha)
    returns (pr: PullRequest, reasons: seq<Reason>, calls: seq<Call>)
    requires Truthful(before, github)
    ensures |before| + 1 <= |calls| <= |before| + 2 && calls[..|before|] == before && Truthful(calls, github)
    ensures calls[|before|] == ReadPr(pr)
    ensures |calls| == |before| + 2 ==> calls[|before| + 1].ReadThreads?
    ensures CleanPr(calls[|before|], branch, head) ==> |calls| == |before| + 2
    ensures reasons == []
            <==> CleanPr(calls[|before|], branch, head) && |calls| == |before| + 2 && calls[|before| + 1] == ReadThreads(false)
  {
    pr := github(|before|).pr;
    calls, reasons := before + [ReadPr(pr)], PrReasons(pr, branch, head);
    if pr.number.Some? {
      var unresolved := github(|calls|).unresolved;
      calls := calls + [ReadThreads(unresolved)];
      reasons := reasons + If(unresolved, UnresolvedThreads);
    }
  }

  /** The checks before the pull request leaves draft. */
  method ValidateInitially(github: nat -> View, paths: seq<string>, isProtected: string -> bool, branch: string, head: Sha)
    returns (draft: bool, reasons: seq<Reason>, calls: seq<Call>)
    ensures Truthful(calls, github) && !Asks(calls) && ValidatedTwice(calls)
    ensures reasons == [] <==> NoObjection(calls, paths, isProtected, branch, head)
    ensures reasons == []
            ==> |calls| == 3 && calls[1].ReadPr? && calls[2] == ReadThreads(false) && (draft <==> calls[1].pr.draft == Some(true))
    ensures ProblemsEnd(calls, reasons)
  {
    hide Authorised, Reviewed, IsProblem;
    var problem, pr;
    problem, reasons, calls := ReadPolicy(github, [], paths, isProtected);
    if problem.Some? { return false, [problem.value], calls; }
    if reasons != [] { return false, reasons, calls; }
    pr, reasons, calls := ReadPullRequest(github, calls, branch, head);
    draft := pr.draft == Some(true);
  }

  /** Take the pull request out of draft. */
  method MarkReady(github: nat -> View, before: seq<Call>, paths: seq<string>, isProtected: string -> bool, branch: string, head: Sha)
    returns (done: bool, calls: seq<Call>)
    requires Truthful(before, github) && !Asks(before) && ValidatedTwice(before) && NoObjection(before, paths, isProtected, branch, head)
    requires |before| == 3 && before[1].ReadPr? && before[1].pr.draft == Some(true) && before[2] == ReadThreads(false)
    ensures Truthful(calls, github) && !Asks(calls) && ValidatedTwice(calls) && NoObjection(calls, paths, isProtected, branch, head)
    ensures |calls| == 4 && calls[3] == MakeReady && calls[..3] == before
  {
    hide Authorised, Reviewed;
    done, calls := github(3).accepts, before + [MakeReady];
  }

  /** More reads ask for nothing. */
  lemma MoreReads(before: seq<Call>, calls: seq<Call>)
    requires |before| >= 3 && before <= calls
    requires forall i :: |before| <= i < |calls| ==> !calls[i].AskMerge? && !calls[i].MakeReady?
    ensures Asks(calls) <==> Asks(before)
    ensures ValidatedTwice(before) ==> ValidatedTwice(calls)
  {
    assert forall i :: 0 <= i < |before| ==> calls[i] == before[i];
  }

  /** The same reads once more, and the pull request is no draft any longer. */
  method ValidateFinally(github: nat -> View, before: seq<Call>, paths: seq<string>, isProtected: string -> bool, branch: string, head: Sha)
    returns (reasons: seq<Reason>, calls: seq<Call>)
    requires Truthful(before, github) && !Asks(before) && ValidatedTwice(before) && NoObjection(before, paths, isProtected, branch, head)
    requires |before| >= 3
    ensures Truthful(calls, github) && !Asks(calls) && ValidatedTwice(calls)
    ensures reasons == []
            ==> |calls| == |before| + 3 && NoObjection(calls, paths, isProtected, branch, head)
                && CleanBefore(calls, |calls|, paths, isProtected, branch, head)
    ensures reasons != [] && NoObjection(calls, paths, isProtected, branch, head) ==> reasons == [StillDraft]
    ensures ProblemsEnd(calls, reasons)
  {
    NoProblems(before, paths, isProtected, branch, head);
    hide Authorised, Reviewed, Truthful, IssueProblem, IsProblem, Asks, ValidatedTwice;
    var problem, pr, more;
    problem, reasons, calls := ReadPolicy(github, before, paths, isProtected);
    MoreReads(before, calls);
    assert forall i :: 0 <= i < |before| ==> calls[i] == before[i];
    if problem.Some? { return [problem.value], calls; }
    pr, more, calls := ReadPullRequest(github, calls, branch, head);
    MoreReads(before, calls);
    reasons := reasons + more + If(pr.draft != Some(false), StillDraft);
    assert forall i :: 0 <= i < |before| ==> calls[i] == before[i];
  }

  /** The merge of the exact head, and what GitHub says about it. */
  method SubmitMerge(github: nat -> View, before: seq<Call>, paths: seq<string>, isProtected: string -> bool, branch: string, head: Sha)
    returns (outcome: Outcome, calls: seq<Call>)
    requires Truthful(before, github) && !Asks(before) && ValidatedTwice(before) && NoObjection(before, paths, isProtected, branch, head)
    requires |before| >= 6 && CleanBefore(before, |before|, paths, isProtected, branch, head)
    ensures Truthful(calls, github) && Asks(calls) && ValidatedTwice(calls) && NoObjection(calls, paths, isProtected, branch, head)
    ensures OnlyCleanMerges(calls, paths, isProtected, branch, head)
    ensures outcome.Blocked? ==> outcome.reasons == [MergeRejected]
    ensures IsReported(calls, github, head, outcome)
  {
    hide Authorised, Reviewed;
    var asked := github(|before|);
    var after := github(|before| + 1);
    calls := before + [AskMerge(head), ReadMerge(after.pr.open, after.merged, after.mergeSha)];
    assert calls[|before|].AskMerge? && forall k :: 0 <= k < |before| ==> calls[k] == before[k];
    if !(asked.accepts && asked.pr.head == head) && after.pr.open { return Blocked([MergeRejected]), calls; }
    if after.merged && after.mergeSha.Some? { return Merged(after.mergeSha.value), calls; }
    outcome := Failed;
  }

  /** GitHub has the last word: a refused command leaves a pull request that is open; otherwise it is merged exactly if
      GitHub says so and names the commit. */
  predicate IsReported(calls: seq<Call>, github: nat -> View, head: Sha, outcome: Outcome) {
    && |calls| >= 2 && calls[|calls| - 2] == AskMerge(head) && calls[|calls| - 1].ReadMerge?
    && var asked, read := github(|calls| - 2), calls[|calls| - 1];
       match outcome
       case Blocked(_) => read.open && (!asked.accepts || asked.pr.head != head)
       case Merged(sha) => (!read.open || (asked.accepts && asked.pr.head == head)) && read.merged && read.sha == Some(sha)
       case Failed => (!read.open || (asked.accepts && asked.pr.head == head)) && (!read.merged || read.sha == None)
  }

  lemma WithoutAsking(calls: seq<Call>, paths: seq<string>, isProtected: string -> bool, branch: string, head: Sha)
    requires !Asks(calls)
    ensures OnlyCleanMerges(calls, paths, isProtected, branch, head)
  {
  }

  method MergeReviewedPr(github: nat -> View, paths: seq<string>, isProtected: string -> bool, branch: string, head: Sha)
    returns (outcome: Outcome, calls: seq<Call>)
    ensures Truthful(calls, github)
    ensures OnlyCleanMerges(calls, paths, isProtected, branch, head) && ValidatedTwice(calls)
    ensures Asks(calls) ==> NoObjection(calls, paths, isProtected, branch, head)
    ensures outcome.Merged? ==> Asks(calls)
    ensures Asks(calls) ==> IsReported(calls, github, head, outcome)
    ensures outcome.Blocked? ==> outcome.reasons != []
    ensures outcome.Blocked? && NoObjection(calls, paths, isProtected, branch, head)
            ==> outcome.reasons == [StillDraft] || (Asks(calls) && outcome.reasons == [MergeRejected])
    ensures MergesOnlyFit(calls, paths, isProtected, branch, head)
    ensures ProblemsEnd(calls, if outcome.Blocked? then outcome.reasons else [])
  {
    hide Truthful, Asks, NoObjection, ValidatedTwice, CleanBefore, OnlyCleanMerges, MergesOnlyFit, ProblemsEnd, IsReported;
    var draft, reasons;
    draft, reasons, calls := ValidateInitially(github, paths, isProtected, branch, head);
    WithoutAsking(calls, paths, isProtected, branch, head);
    CleanMergesAreFit(calls, paths, isProtected, branch, head);
    if reasons != [] { return Blocked(reasons), calls; }
    if draft {
      var done;
      done, calls := MarkReady(github, calls, paths, isProtected, branch, head);
      WithoutAsking(calls, paths, isProtected, branch, head);
      CleanMergesAreFit(calls, paths, isProtected, branch, head);
      ProblemFree(calls, paths, isProtected, branch, head, []);
      if !done { return Failed, calls; }
    }
    reasons, calls := ValidateFinally(github, calls, paths, isProtected, branch, head);
    WithoutAsking(calls, paths, isProtected, branch, head);
    CleanMergesAreFit(calls, paths, isProtected, branch, head);
    if reasons != [] { return Blocked(reasons), calls; }
    outcome, calls := SubmitMerge(github, calls, paths, isProtected, branch, head);
    CleanMergesAreFit(calls, paths, isProtected, branch, head);
    ProblemFree(calls, paths, isProtected, branch, head, if outcome.Blocked? then outcome.reasons else []);
  }

  /** The end of a finalisation: a recovery never merges. */
  method FinishReviewed(allowMerge: bool, github: nat -> View, paths: seq<string>, isProtected: string -> bool, branch: string, head: Sha)
    returns (outcome: Outcome, calls: seq<Call>)
    ensures !allowMerge ==> calls == [] && outcome == Blocked([RecoveryNeverMerges])
    ensures Truthful(calls, github) && ValidatedTwice(calls)
    ensures OnlyCleanMerges(calls, paths, isProtected, branch, head)
    ensures outcome.Merged? ==> allowMerge && Asks(calls)
    ensures MergesOnlyFit(calls, paths, isProtected, branch, head)
    ensures allowMerge ==> ProblemsEnd(calls, if outcome.Blocked? then outcome.reasons else [])
  {
    if !allowMerge { return Blocked([RecoveryNeverMerges]), []; }
    outcome, calls := MergeReviewedPr(github, paths, isProtected, branch, head);
  }
}
