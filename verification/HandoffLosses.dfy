/** Crashes alone: when captured work survives every one of them, and the crash that loses it. */
module HandoffLosses {
  import opened Wrappers
  import opened Handoff
  import opened HandoffInvariant
  import opened HandoffRecovery
  import opened HandoffCompletion

  /** Crashes and successful effects; nothing fails, and nobody stops the controller. */
  predicate Hard(a: Action) { a.Crash? || Succeeds(a) }

  predicate AllHard(schedule: seq<Action>) { forall i :: 0 <= i < |schedule| ==> Hard(schedule[i]) }

  predicate AllSucceed(schedule: seq<Action>) { forall i :: 0 <= i < |schedule| ==> Succeeds(schedule[i]) }

  /** Crashes are not given up. */
  lemma {:induction false} HardIsNotGivenUp(c: Config, schedule: seq<Action>, base: Sha, tree: Tree, n: nat)
    requires Good(c, base, tree, n) && !c.pc.Fail? && AllHard(schedule) && GitOk(c.disk.git)
    ensures !GivesUpIn(c, schedule, base, tree, n)
    decreases |schedule|
  {
    hide Good, Published, Step, GitOk;
    if schedule != [] && !Published(c, base, tree, n) {
      var a := schedule[0];
      assert Hard(a);
      GoodPcs(c, base, tree, n);
      StepKeepsGood(c, a, base, tree, n);
      StepKeepsGit(c, a);
      if !Published(Step(c, a), base, tree, n) {
        HardIsNotGivenUp(Step(c, a), schedule[1..], base, tree, n);
      }
    }
  }

  lemma HardPublishes(c: Config, schedule: seq<Action>, base: Sha, tree: Tree, n: nat)
    requires Good(c, base, tree, n) && !c.pc.Fail? && AllHard(schedule) && GitOk(c.disk.git)
    requires EndsQuietly(schedule, RESTART_EFFECTS) || (|schedule| >= Rank(c.pc) && EndsQuietly(schedule, |schedule|))
    ensures Publishes(c, schedule, base, tree, n)
  {
    HardIsNotGivenUp(c, schedule, base, tree, n);
    assert NoEdits(schedule) by { assert forall i :: 0 <= i < |schedule| ==> Hard(schedule[i]); }
    hide Good, Publishes, GivesUpIn;
    GoodPublishes(c, schedule, base, tree, n);
  }

  // ---------- Without a crash ----------

  /** On the way to the commit, with everything it needs. */
  ghost predicate Underway(c: Config, base: Sha, tree: Tree, n: nat) {
    var d, s, g := c.disk, c.disk.status, c.disk.git;
    && Inv(c) && base < n && g.onBranch && Uncommitted(d, base, tree, n) && !s.pid
    && match c.pc
       case Verify(_, completed) => completed == 0 && ValidScope(s, g)
       case InVerification(_, completed) => completed == 0 && ValidScope(s, g) && s.state == Verifying
       case Stage(_, _) => Dirty(g) != {}
       case Add(goal, _) => ScopeRecorded(s, goal, base)
       case WriteTree(goal, _) => ScopeRecorded(s, goal, base)
       case MakeCommit(goal, _) => ScopeRecorded(s, goal, base)
       case _ => false
  }

  predicate ScopeRecorded(s: Status, goal: Goal, base: Sha) {
    && s.state == Committing && s.preCommit == Some(base) && s.subject == Some(SubjectOf(goal)) && HasManifest(s)
  }

  lemma VerificationIsUnderway(c: Config, choice: Choice, base: Sha, tree: Tree, n: nat)
    requires Underway(c, base, tree, n) && InValidation(c.pc) && choice.ok
    ensures Underway(Run(c, choice), base, tree, n) && Rank(Run(c, choice).pc) == Rank(c.pc) - 1
  {
    RunKeepsInv(c, choice);
    hide Inv, Dirty, TakeSnapshot, Restrict;
  }

  lemma CommitIsUnderway(c: Config, choice: Choice, base: Sha, tree: Tree, n: nat)
    requires Underway(c, base, tree, n) && InCommitPhase(c.pc) && !c.pc.MakeCommit? && choice.ok
    ensures Underway(Run(c, choice), base, tree, n) && Rank(Run(c, choice).pc) == Rank(c.pc) - 1
  {
    RunKeepsInv(c, choice);
    hide Inv, Dirty, TakeSnapshot;
  }

  /** A change is committed, and then publication follows. */
  lemma ChangeIsCommitted(c: Config, choice: Choice, base: Sha, tree: Tree, n: nat)
    requires Underway(c, base, tree, n) && c.pc.MakeCommit? && choice.ok && tree != HeadTree(c.disk.git)
    ensures Good(Run(c, choice), base, tree, n) && Run(c, choice).pc.Record?
  {
    RunKeepsInv(c, choice);
    hide Dirty, TakeSnapshot;
  }

  /** The tree of HEAD cannot be committed again. */
  lemma NothingIsCommitted(c: Config, choice: Choice, later: Choice, base: Sha, tree: Tree, n: nat)
    requires Underway(c, base, tree, n) && c.pc.MakeCommit? && tree == HeadTree(c.disk.git)
    ensures Run(c, choice).pc.Fail? && Run(c, choice).disk == c.disk && GivenUp(Run(Run(c, choice), later))
  {
    CleanMeans(c.disk.git);
    hide Dirty, TakeSnapshot;
  }

  lemma {:induction false} UnderwayCompletes(c: Config, schedule: seq<Action>, base: Sha, tree: Tree, n: nat)
    requires Underway(c, base, tree, n) && GitOk(c.disk.git) && AllSucceed(schedule) && |schedule| >= Rank(c.pc)
    ensures Publishes(c, schedule, base, tree, n) <==> tree != HeadTree(c.disk.git)
    decreases |schedule|
  {
    var a, rest := schedule[0], schedule[1..];
    assert Succeeds(a) && AllSucceed(rest);
    StepKeepsGit(c, a);
    UnderwayPcs(c, base, tree, n);
    hide Underway, Good, GitOk, Published, Run;
    if InValidation(c.pc) {
      VerificationIsUnderway(c, a.choice, base, tree, n);
      SameHead(c, a, base, tree, n);
      UnderwayCompletes(Step(c, a), rest, base, tree, n);
    } else if !c.pc.MakeCommit? {
      CommitIsUnderway(c, a.choice, base, tree, n);
      SameHead(c, a, base, tree, n);
      UnderwayCompletes(Step(c, a), rest, base, tree, n);
    } else if tree != HeadTree(c.disk.git) {
      ChangeIsCommitted(c, a.choice, base, tree, n);
      HardPublishes(Step(c, a), rest, base, tree, n);
    } else {
      NothingIsCommitted(c, a.choice, rest[0].choice, base, tree, n);
      StepKeepsGit(Step(c, a), rest[0]);
      GivenUpIsNeverPublished(Step(Step(c, a), rest[0]), rest[1..], base, tree, n);
      OnlyLaunchIsPublished(Step(c, a), base, tree, n);
    }
  }

  lemma UnderwayPcs(c: Config, base: Sha, tree: Tree, n: nat)
    requires Underway(c, base, tree, n)
    ensures (InValidation(c.pc) || InCommitPhase(c.pc)) && Rank(c.pc) >= 7 && !Published(c, base, tree, n)
  {
  }

  lemma OnlyLaunchIsPublished(c: Config, base: Sha, tree: Tree, n: nat)
    requires !c.pc.Launch?
    ensures !Published(c, base, tree, n)
  {
  }

  lemma SameHead(c: Config, a: Action, base: Sha, tree: Tree, n: nat)
    requires Underway(c, base, tree, n) && Underway(Step(c, a), base, tree, n) && c.disk.git.commits <= Step(c, a).disk.git.commits
    ensures HeadTree(Step(c, a).disk.git) == HeadTree(c.disk.git)
  {
    hide Step, Inv;
  }

  /** Without a crash or a failure, captured work is published exactly when it differs from HEAD. */
  lemma CrashFreeCompletes(c: Config, schedule: seq<Action>)
    requires CapturedWork(c) && AllSucceed(schedule) && |schedule| >= Rank(c.pc)
    ensures Publishes(c, schedule, c.disk.git.head, c.disk.git.work, |c.disk.git.commits|)
            <==> c.disk.git.work != HeadTree(c.disk.git)
  {
    assert Underway(c, c.disk.git.head, c.disk.git.work, |c.disk.git.commits|) by { hide Dirty, TakeSnapshot; }
    hide Publishes, Underway;
    UnderwayCompletes(c, schedule, c.disk.git.head, c.disk.git.work, |c.disk.git.commits|);
  }

  // ---------- The crash that loses the work ----------

  /** Staged, but the dirty paths are no longer the captured ones: every restart refuses. */
  ghost predicate Lost(c: Config) {
    var s, g := c.disk.status, c.disk.git;
    && GitOk(g) && s.checkpoint == Some(Staging) && s.snapshot.Some? && s.paths.Some?
    && s.paths.value != {} && s.paths.value != Dirty(g) && !s.pid && s.state != ConfirmationRequired
    && (c.pc.Down? || c.pc.Recover? || c.pc.Blocked? || c.pc == Fail(true))
  }

  lemma LostStaysLost(c: Config, a: Action)
    requires Lost(c) && !a.Edit?
    ensures Lost(Step(c, a))
  {
    hide Dirty, ExactSnapshot, StagedContent, ProvenCommit;
  }

  lemma {:induction false} LostIsNeverPublished(c: Config, schedule: seq<Action>, base: Sha, tree: Tree, n: nat)
    requires Lost(c) && NoEdits(schedule)
    ensures !Publishes(c, schedule, base, tree, n)
    decreases |schedule|
  {
    hide Dirty, Step;
    if schedule != [] {
      LostStaysLost(c, schedule[0]);
      LostIsNeverPublished(Step(c, schedule[0]), schedule[1..], base, tree, n);
    }
  }

  const SUCCEED := Go(Choice(true, true, true, map[], map[], 0))

  /** A crash after `k` more successful effects. */
  function CrashAfter(k: nat): seq<Action> { if k == 0 then [Crash] else [SUCCEED] + CrashAfter(k - 1) }

  lemma {:induction false} CrashAfterIsHard(k: nat)
    ensures AllHard(CrashAfter(k))
  {
    if k > 0 { CrashAfterIsHard(k - 1); }
  }

  /** Such a crash loses the change set. */
  ghost predicate Doomed(c: Config, k: nat)
    decreases k
  {
    && GitOk(c.disk.git) && !c.pc.Launch?
    && if k == 0 then Lost(Step(c, Crash)) else Doomed(Step(c, SUCCEED), k - 1)
  }

  lemma NotYetPublished(c: Config, a: Action, rest: seq<Action>, base: Sha, tree: Tree, n: nat)
    requires GitOk(c.disk.git) && !c.pc.Launch?
    requires GitOk(Step(c, a).disk.git) && !Publishes(Step(c, a), rest, base, tree, n)
    ensures !Publishes(c, [a] + rest, base, tree, n)
  {
    hide Step;
    assert ([a] + rest)[1..] == rest;
  }

  lemma {:induction false} DoomedIsNotPublished(c: Config, k: nat, schedule: seq<Action>, base: Sha, tree: Tree, n: nat)
    requires Doomed(c, k) && NoEdits(schedule)
    ensures !Publishes(c, CrashAfter(k) + schedule, base, tree, n)
    decreases k
  {
    hide Step, Publishes, Lost, NoEdits;
    if k == 0 {
      StepKeepsGit(c, Crash);
      LostIsNeverPublished(Step(c, Crash), schedule, base, tree, n);
      NotYetPublished(c, Crash, schedule, base, tree, n);
    } else {
      StepKeepsGit(c, SUCCEED);
      DoomedIsNotPublished(Step(c, SUCCEED), k - 1, schedule, base, tree, n);
      NotYetPublished(c, SUCCEED, CrashAfter(k - 1) + schedule, base, tree, n);
      assert CrashAfter(k) + schedule == [SUCCEED] + (CrashAfter(k - 1) + schedule);
    }
  }

  /** Behind the record of the scope, staging takes the put-back path out of it. */
  lemma StagingIsDoomed(c: Config)
    requires GitOk(c.disk.git) && !Unreverted(c.disk.git) && c.pc.Add?
    requires c.disk.status.checkpoint == Some(Staging) && c.disk.status.paths == Some(Dirty(c.disk.git))
    requires c.disk.status.snapshot.Some? && !c.disk.status.pid && c.disk.status.state == Committing && Dirty(c.disk.git) != {}
    ensures Doomed(c, 1)
  {
    StagingKeepsScope(c.disk.git);
    hide Dirty;
    assert Doomed(Step(c, SUCCEED), 0);
  }

  lemma StageIsDoomed(c: Config)
    requires GitOk(c.disk.git) && !Unreverted(c.disk.git) && c.pc.Stage? && c.disk.status.snapshot.Some?
    ensures Doomed(c, 2)
  {
    assert Dirty(c.disk.git) != {};
    hide Dirty, Unreverted;
    StagingIsDoomed(Step(c, SUCCEED));
  }

  /** Verification passes, and the scope is about to be recorded. */
  lemma CapturedReachesStage(c: Config)
    requires CapturedWork(c)
    ensures
      var c1 := Step(c, SUCCEED);
      var c2 := Step(c1, SUCCEED);
      && c1.pc.InVerification? && c2.pc.Stage? && c1.disk.git == c.disk.git && c2.disk.git == c.disk.git
      && c2.disk.status.snapshot.Some?
  {
    assert ValidScope(c.disk.status, c.disk.git);
    hide Dirty, TakeSnapshot, Restrict;
  }

  lemma RevertedIsDoomed(c: Config)
    requires CapturedWork(c) && !Unreverted(c.disk.git)
    ensures Doomed(c, 4)
  {
    assert GitOk(c.disk.git);
    CapturedReachesStage(c);
    var c1 := Step(c, SUCCEED);
    var c2 := Step(c1, SUCCEED);
    StageIsDoomed(c2);
    hide Step;
    assert Doomed(c1, 3);
  }

  /** A captured change set, of a fresh run or of a review fix, survives every pattern of crashes, and is then
      published as exactly one commit, if and only if no dirty path has been staged and put back. */
  lemma SurvivesEveryCrash(c: Config)
    requires CapturedWork(c)
    ensures Unreverted(c.disk.git)
            <==> forall schedule :: AllHard(schedule) && EndsQuietly(schedule, RESTART_EFFECTS)
                                    ==> Publishes(c, schedule, c.disk.git.head, c.disk.git.work, |c.disk.git.commits|)
  {
    var base, tree, n := c.disk.git.head, c.disk.git.work, |c.disk.git.commits|;
    assert GitOk(c.disk.git) && c.pc.Verify?;
    hide CapturedWork, Good, Publishes, Unreverted, Doomed, GitOk, AllHard, EndsQuietly;
    if Unreverted(c.disk.git) {
      CapturedIsGood(c);
      forall schedule | AllHard(schedule) && EndsQuietly(schedule, RESTART_EFFECTS)
        ensures Publishes(c, schedule, base, tree, n)
      {
        HardPublishes(c, schedule, base, tree, n);
      }
    } else {
      var quiet := QuietAfterCrash(4);
      RevertedIsDoomed(c);
      DoomedIsNotPublished(c, 4, quiet, base, tree, n);
    }
  }

  lemma QuietAfterCrash(k: nat) returns (quiet: seq<Action>)
    ensures AllSucceed(quiet) && |quiet| == RESTART_EFFECTS && NoEdits(quiet)
    ensures AllHard(CrashAfter(k) + quiet) && NoEdits(CrashAfter(k) + quiet) && EndsQuietly(CrashAfter(k) + quiet, RESTART_EFFECTS)
  {
    quiet := seq(RESTART_EFFECTS, _ => SUCCEED);
    CrashAfterIsHard(k);
    var schedule := CrashAfter(k) + quiet;
    assert forall i :: 0 <= i < |schedule| ==> Hard(schedule[i]);
  }

  /** Without a crash it is published, but one crash after staging loses it, whatever follows. */
  ghost predicate LostToOneCrash(c: Config)
    requires GitOk(c.disk.git)
  {
    var base, tree, n := c.disk.git.head, c.disk.git.work, |c.disk.git.commits|;
    && (forall schedule :: AllSucceed(schedule) && |schedule| >= Rank(c.pc) ==> Publishes(c, schedule, base, tree, n))
    && (forall schedule :: NoEdits(schedule) ==> !Publishes(c, CrashAfter(4) + schedule, base, tree, n))
  }

  /** That is the fate of exactly the captured work that changes something and has a put-back path beside it. */
  lemma OneCrashLosesTheWork(c: Config)
    requires CapturedWork(c)
    ensures LostToOneCrash(c) <==> !Unreverted(c.disk.git) && c.disk.git.work != HeadTree(c.disk.git)
  {
    var base, tree, n := c.disk.git.head, c.disk.git.work, |c.disk.git.commits|;
    assert GitOk(c.disk.git);
    hide Publishes, Unreverted, Doomed, CapturedWork, GitOk, AllSucceed, AllHard, NoEdits, EndsQuietly, Rank;
    forall schedule | AllSucceed(schedule) && |schedule| >= Rank(c.pc)
      ensures Publishes(c, schedule, base, tree, n) <==> tree != HeadTree(c.disk.git)
    {
      CrashFreeCompletes(c, schedule);
    }
    CapturedRank(c);
    var quiet := QuietAfterCrash(4);
    if Unreverted(c.disk.git) {
      SurvivesEveryCrash(c);
    } else {
      RevertedIsDoomed(c);
      forall schedule | NoEdits(schedule) ensures !Publishes(c, CrashAfter(4) + schedule, base, tree, n) {
        DoomedIsNotPublished(c, 4, schedule, base, tree, n);
      }
    }
  }

  lemma CapturedRank(c: Config)
    requires CapturedWork(c)
    ensures Rank(c.pc) <= RESTART_EFFECTS
  {
  }

  /** A fresh run with two dirty files: one staged with new content and put back, the other changed. */
  lemma StagedAndPutBack()
    ensures exists c :: FreshWork(c) && |Dirty(c.disk.git)| == 2 && LostToOneCrash(c)
  {
    hide TakeSnapshot, StatusLines, Restrict, Overlay, LostToOneCrash;
    var was := map["a" := Blob(0, 0), "b" := Blob(0, 0)];
    var index, work := was["a" := Blob(0, 1)], was["b" := Blob(0, 1)];
    var g := Git([Commit(None, was, Resolve)], 0, index, work, true);
    assert At(g.work, "a") == At(HeadTree(g), "a") && At(g.index, "a") == Some(Blob(0, 1));
    assert At(g.work, "b") == Some(Blob(0, 1)) && At(g.index, "b") == Some(Blob(0, 0));
    assert Dirty(g) == {"a", "b"};
    assert !Unreverted(g);
    hide Dirty, At, Unreverted;
    var s := Only(Implementing).(paths := Some(Dirty(g)), snapshot := Some(TakeSnapshot(g, Dirty(g))), base := Some(g.head));
    var c := Config(Disk(s, g, None, []), Verify(Goal(false, 0), 0));
    CapturedIsWork(c);
    OneCrashLosesTheWork(c);
  }
}
