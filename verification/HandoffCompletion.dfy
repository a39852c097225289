/** Captured work whose dirty paths all differ from HEAD is published as one commit, whatever crashes, failures,
    interruptions and restarts come in between, exactly unless the controller gives it up: it records STOPPED, or a stop
    behind an unrecorded commit, or a failure before verification has begun. */
module HandoffCompletion {
  import opened Wrappers
  import opened Handoff
  import opened HandoffInvariant
  import opened HandoffRecovery

  /** No path was staged and then put back to what HEAD has. */
  predicate Unreverted(g: Git)
    requires g.head < |g.commits|
  {
    forall p <- Dirty(g) :: At(g.work, p) != At(HeadTree(g), p)
  }

  /** Staging everything keeps the dirty paths exactly when nothing was staged and put back. */
  lemma StagingKeepsScope(g: Git)
    requires g.head < |g.commits|
    ensures Dirty(AddAll(g)) == Dirty(g) <==> Unreverted(g)
    ensures Unreverted(AddAll(g))
  {
    var h := AddAll(g);
    forall p
      ensures p in Dirty(h) <==> At(g.work, p) != At(HeadTree(g), p)
      ensures p in Dirty(h) ==> p in Dirty(g)
    {
      assert At(h.work, p) == At(h.index, p) == At(g.work, p);
      assert HeadTree(h) == HeadTree(g);
    }
    if Dirty(h) == Dirty(g) {
    } else if p :| p in Dirty(g) && p !in Dirty(h) {
      assert !Unreverted(g);
    }
  }

  // ---------- The states a crash can leave ----------

  predicate Restartable(s: Status) { !s.pid && StaleState(s.state) && s.state != ConfirmationRequired }

  /** Still uncommitted, with a scope that a restart accepts, before and after staging. */
  ghost predicate GoodScope(d: Disk, base: Sha, tree: Tree, n: nat) {
    && GitOk(d.git) && Uncommitted(d, base, tree, n) && Completed(d.status) == 0 && Restartable(d.status)
    && ValidScope(d.status, d.git) && Unreverted(d.git)
  }

  /** In the commit phase the scope holds by content, so that staging cannot spoil it. */
  predicate StagingRecorded(d: Disk, goal: Goal, base: Sha) {
    && d.status.state == Committing && d.status.preCommit == Some(base) && d.status.subject == Some(SubjectOf(goal))
    && d.status.paths.Some? && StagedContent(d.status, d.git)
  }

  /** Committed, but not recorded yet. */
  ghost predicate Unrecorded(d: Disk, base: Sha, tree: Tree, n: nat) {
    && CommittedOnce(d, base, tree, n) && d.status.state == Committing && Restartable(d.status)
    && d.status.checkpoint == Some(Staged) && ProvenCommit(d.status, d.git) && HasManifest(d.status)
  }

  /** Committed and recorded, but a crash has left a child on record that may be alive still. */
  ghost predicate Orphaned(d: Disk, base: Sha, tree: Tree, n: nat) {
    && CommittedOnce(d, base, tree, n) && Completed(d.status) >= 1
    && d.status.pid && ChildState(d.status.state) && d.status.base == Some(d.git.head)
  }

  ghost predicate Good(c: Config, base: Sha, tree: Tree, n: nat) {
    && Inv(c) && base < n && c.disk.git.onBranch
    && (c.pc.Down? || c.pc.Recover? || c.pc.Verify? || c.pc.Fail? || RecoverableState(c.disk.status.state))
    && match c.pc
       case Down => GoodDisk(c.disk, base, tree, n) || Orphaned(c.disk, base, tree, n)
       case Fail(recovering) => GoodDisk(c.disk, base, tree, n) && (recovering || RecoverableState(c.disk.status.state) || Completed(c.disk.status) == 0)
       case Recover => GoodScope(c.disk, base, tree, n) || GoodCheckpoint(c.disk, base, tree, n)
       case Verify(goal, completed) => GoodEntry(c.disk, goal, completed, base, tree, n)
       case InVerification(goal, completed) => GoodEntry(c.disk, goal, completed, base, tree, n)
       case Stage(_, _) => GoodScope(c.disk, base, tree, n)
       case Add(goal, _) => GoodScope(c.disk, base, tree, n) && StagingRecorded(c.disk, goal, base)
       case WriteTree(goal, _) => GoodScope(c.disk, base, tree, n) && StagingRecorded(c.disk, goal, base)
       case MakeCommit(goal, _) => GoodScope(c.disk, base, tree, n) && StagingRecorded(c.disk, goal, base)
       case Record(_) => Unrecorded(c.disk, base, tree, n)
       case Announce(_) => GoodCheckpoint(c.disk, base, tree, n)
       case Push(_) => GoodCheckpoint(c.disk, base, tree, n)
       case RecordPush(_) => GoodCheckpoint(c.disk, base, tree, n)
       case OpenPr(goal, completed) => (completed >= 3 ==> goal.recovering) && GoodCheckpoint(c.disk, base, tree, n)
       case RecordPr(goal, _) => goal.round == 0 && GoodCheckpoint(c.disk, base, tree, n)
       case _ => false
  }

  ghost predicate GoodDisk(d: Disk, base: Sha, tree: Tree, n: nat) {
    GoodScope(d, base, tree, n) || Unrecorded(d, base, tree, n) || GoodCheckpoint(d, base, tree, n)
  }

  /** Committed and recorded, with or without a push and a pull request. */
  ghost predicate GoodCheckpoint(d: Disk, base: Sha, tree: Tree, n: nat) {
    CommittedOnce(d, base, tree, n) && Completed(d.status) >= 1 && Restartable(d.status)
  }

  ghost predicate GoodEntry(d: Disk, goal: Goal, completed: nat, base: Sha, tree: Tree, n: nat) {
    if completed == 0 then GoodScope(d, base, tree, n) else goal == Goal(true, 0) && GoodCheckpoint(d, base, tree, n)
  }

  /** The controller goes on to review: the one commit is the remote head and the head of the one draft pull
      request, and the checkpoint says so. */
  ghost predicate Published(c: Config, base: Sha, tree: Tree, n: nat) {
    var d := c.disk;
    && c.pc.Launch? && CommittedOnce(d, base, tree, n)
    && d.status.commitSha == Some(d.git.head) && d.remote == Some(d.git.head) && |d.prs| == 1
    && (c.pc.goal.round == 1 ==> d.status.checkpoint == Some(PrCreated) && d.status.prUrl == Some(d.prs[0]))
    && (c.pc.goal.round > 1 ==> d.status.checkpoint == Some(Pushed))
  }

  /** Effects still needed. */
  function Rank(pc: Pc): nat {
    match pc
    case Fail(_) => 15
    case Down => 14
    case Recover => 13
    case Verify(_, _) => 12
    case InVerification(_, _) => 11
    case Stage(_, _) => 10
    case Add(_, _) => 9
    case WriteTree(_, _) => 8
    case MakeCommit(_, _) => 7
    case Record(_) => 6
    case Announce(_) => 5
    case Push(_) => 4
    case RecordPush(_) => 3
    case OpenPr(_, _) => 2
    case _ => 1
  }

  predicate Succeeds(a: Action) { a.Go? && a.choice.ok }

  /** The controller records STOPPED; or it records that it stops, while its commit is made and not recorded; or a
      failure of a fresh run or a fix, before it has begun to verify. */
  predicate GivesUp(c: Config, a: Action)
    requires c.disk.git.head < |c.disk.git.commits|
  {
    var s := c.disk.status;
    || a.Halt?
    || (&& s.checkpoint == Some(Staged) && Dirty(c.disk.git) == {}
        && ((c.pc.Fail? && a.Go?) || (a.Interrupt? && !c.pc.Down?)))
    || (c.pc == Fail(false) && a.Go? && !RecoverableState(s.state))
  }

  // ---------- Every step but one keeps the work good ----------

  lemma CrashKeepsGood(c: Config, base: Sha, tree: Tree, n: nat)
    requires Good(c, base, tree, n)
    ensures Good(Step(c, Crash), base, tree, n)
  {
    hide Dirty, ValidScope, Unreverted, ProvenCommit;
  }

  lemma ReconcileKeepsScope(d: Disk, choice: Choice, base: Sha, tree: Tree, n: nat)
    requires GoodScope(d, base, tree, n) && d.git.onBranch
    ensures
      var e := Reconcile(d, choice);
      e.pc.Recover? && GoodScope(e.disk, base, tree, n) && e.disk.git.onBranch && e.disk.status.state == RecoverableChanges
  {
    CleanMeans(d.git);
    hide Dirty, TakeSnapshot, Unreverted, ProvenCommit;
  }

  lemma ReconcileKeepsCommit(d: Disk, choice: Choice, base: Sha, tree: Tree, n: nat)
    requires GitOk(d.git) && d.git.onBranch && (Unrecorded(d, base, tree, n) || GoodCheckpoint(d, base, tree, n))
    ensures
      var e := Reconcile(d, choice);
      e.pc.Recover? && GoodCheckpoint(e.disk, base, tree, n) && e.disk.git.onBranch && e.disk.status.state == RecoverableChanges
  {
    CleanMeans(d.git);
    hide Dirty, ProvenCommit;
  }

  /** A start waits for the child, or goes on from the checkpoint once the child has ended. */
  lemma ReconcileKeepsOrphan(d: Disk, choice: Choice, base: Sha, tree: Tree, n: nat)
    requires GitOk(d.git) && d.git.onBranch && Orphaned(d, base, tree, n)
    ensures
      var e := Reconcile(d, choice);
      && e.disk.git.onBranch
      && if choice.ok then e.pc.Recover? && GoodCheckpoint(e.disk, base, tree, n) && e.disk.status.state == RecoverableChanges
         else e.pc.Down? && Orphaned(e.disk, base, tree, n)
  {
    CleanMeans(d.git);
    hide Dirty, ProvenCommit;
  }

  lemma ReconcileKeepsGood(c: Config, choice: Choice, base: Sha, tree: Tree, n: nat)
    requires Good(c, base, tree, n) && c.pc.Down?
    ensures Good(Run(c, choice), base, tree, n) && (choice.ok ==> Run(c, choice).pc.Recover?)
    ensures Run(c, choice).pc.Down? || Run(c, choice).pc.Recover?
  {
    RunKeepsInv(c, choice);
    assert Run(c, choice) == Reconcile(c.disk, choice);
    hide GoodScope, Unrecorded, GoodCheckpoint, Orphaned, Run, Reconcile, CheckpointTrue, PcTrue, GitOk;
    if GoodScope(c.disk, base, tree, n) {
      ReconcileKeepsScope(c.disk, choice, base, tree, n);
    } else if Orphaned(c.disk, base, tree, n) {
      ReconcileKeepsOrphan(c.disk, choice, base, tree, n);
    } else {
      ReconcileKeepsCommit(c.disk, choice, base, tree, n);
    }
  }

  lemma EntryKeepsGood(c: Config, choice: Choice, base: Sha, tree: Tree, n: nat)
    requires Good(c, base, tree, n) && (c.pc.Recover? || c.pc.Verify?) && choice.ok
    ensures Good(Run(c, choice), base, tree, n) && Rank(Run(c, choice).pc) < Rank(c.pc)
  {
    hide Dirty, TakeSnapshot, Unreverted;
    RunKeepsInv(c, choice);
    CleanMeans(c.disk.git);
  }

  lemma VerificationKeepsGood(c: Config, choice: Choice, base: Sha, tree: Tree, n: nat)
    requires Good(c, base, tree, n) && c.pc.InVerification?
    ensures Good(Run(c, choice), base, tree, n) && (choice.ok ==> Rank(Run(c, choice).pc) < Rank(c.pc) && !Run(c, choice).pc.Fail?)
  {
    hide Dirty, ValidScope, CapturedScope, Unreverted;
    RunKeepsInv(c, choice);
    CleanMeans(c.disk.git);
  }

  lemma StagingKeepsGood(c: Config, choice: Choice, base: Sha, tree: Tree, n: nat)
    requires Good(c, base, tree, n) && (c.pc.Stage? || c.pc.Add? || c.pc.WriteTree?) && choice.ok
    ensures Good(Run(c, choice), base, tree, n) && Rank(Run(c, choice).pc) < Rank(c.pc)
  {
    hide Dirty, TakeSnapshot, Unreverted;
    RunKeepsInv(c, choice);
    StagingKeepsScope(c.disk.git);
    hide Inv, CheckpointTrue, VerifyStep, PublishStep, ReviewStep, EndStep, ProvenCommit;
  }

  lemma MakeCommitKeepsGood(c: Config, choice: Choice, base: Sha, tree: Tree, n: nat)
    requires Good(c, base, tree, n) && (c.pc.MakeCommit? || c.pc.Record?) && choice.ok
    ensures Good(Run(c, choice), base, tree, n) && Rank(Run(c, choice).pc) < Rank(c.pc)
  {
    hide Dirty, TakeSnapshot, Unreverted;
    RunKeepsInv(c, choice);
    CleanMeans(c.disk.git);
    hide VerifyStep, PublishStep, ReviewStep, EndStep;
  }

  lemma CommitKeepsGood(c: Config, choice: Choice, base: Sha, tree: Tree, n: nat)
    requires Good(c, base, tree, n) && InCommitPhase(c.pc) && choice.ok
    ensures Good(Run(c, choice), base, tree, n) && Rank(Run(c, choice).pc) < Rank(c.pc)
  {
    hide Good, Run, Rank;
    if c.pc.MakeCommit? || c.pc.Record? {
      MakeCommitKeepsGood(c, choice, base, tree, n);
    } else {
      StagingKeepsGood(c, choice, base, tree, n);
    }
  }

  lemma PublishKeepsGood(c: Config, choice: Choice, base: Sha, tree: Tree, n: nat)
    requires Good(c, base, tree, n) && InPublication(c.pc) && choice.ok
    ensures Published(Run(c, choice), base, tree, n) || (Good(Run(c, choice), base, tree, n) && Rank(Run(c, choice).pc) < Rank(c.pc))
  {
    hide Dirty, TakeSnapshot, Unreverted;
    RunKeepsInv(c, choice);
  }

  /** A failing command leaves everything as it was. */
  lemma FailureKeepsGood(c: Config, choice: Choice, base: Sha, tree: Tree, n: nat)
    requires Good(c, base, tree, n) && (c.pc.Recover? || c.pc.Verify? || InCommitPhase(c.pc) || InPublication(c.pc)) && !choice.ok
    ensures Good(Run(c, choice), base, tree, n)
  {
    hide Dirty, ValidScope, Unreverted, ProvenCommit;
    RunKeepsInv(c, choice);
  }

  /** A scope says that there is something to go on with. */
  lemma GoodHasClaim(d: Disk, base: Sha, tree: Tree, n: nat)
    requires GoodDisk(d, base, tree, n)
    ensures HasManifest(d.status) || Completed(d.status) > 0
    ensures Dirty(d.git) == {} && d.status.checkpoint == Some(Staged) <==> !GoodScope(d, base, tree, n) && !GoodCheckpoint(d, base, tree, n)
  {
    hide Dirty;
    CleanMeans(d.git);
  }

  /** A record of the stop keeps scope and checkpoint. */
  lemma StopKeepsGood(d: Disk, pc: Pc, base: Sha, tree: Tree, n: nat)
    requires base < n && d.git.onBranch && Inv(Config(d, pc)) && (GoodScope(d, base, tree, n) || GoodCheckpoint(d, base, tree, n))
    ensures Good(Config(Put(d, Only(RecoverableChanges)), Down), base, tree, n)
  {
    hide Dirty, TakeSnapshot, Unreverted;
  }

  lemma FailKeepsGood(c: Config, choice: Choice, base: Sha, tree: Tree, n: nat)
    requires Good(c, base, tree, n) && c.pc.Fail? && !GivesUp(c, Go(choice))
    ensures Good(Run(c, choice), base, tree, n) && Rank(Run(c, choice).pc) < Rank(c.pc)
  {
    GoodHasClaim(c.disk, base, tree, n);
    StopKeepsGood(c.disk, c.pc, base, tree, n);
    hide Good, GoodScope, GoodCheckpoint, Unrecorded, Dirty, Write;
  }

  lemma InterruptIsStop(c: Config)
    requires c.disk.git.head < |c.disk.git.commits| && (HasManifest(c.disk.status) || Completed(c.disk.status) > 0)
    requires InValidation(c.pc) || InCommitPhase(c.pc) || InPublication(c.pc) || c.pc.Fail?
    ensures Step(c, Interrupt) == Config(Put(c.disk, Only(RecoverableChanges)), Down)
  {
    hide Write, HasManifest;
  }

  lemma InterruptKeepsGood(c: Config, base: Sha, tree: Tree, n: nat)
    requires Good(c, base, tree, n) && !GivesUp(c, Interrupt)
    ensures Good(Step(c, Interrupt), base, tree, n)
  {
    GoodPcs(c, base, tree, n);
    if !c.pc.Down? {
      CrashKeepsGood(c, base, tree, n);
      GoodHasClaim(c.disk, base, tree, n);
      InterruptIsStop(c);
      StopKeepsGood(c.disk, c.pc, base, tree, n);
      hide Good, GoodScope, GoodCheckpoint, Unrecorded, Dirty, Write, Step, HasManifest;
    }
  }

  /** Steps of anybody but outside editors keep the work good, or publish it, unless the controller gives up. A
      success brings it closer. */
  lemma StepKeepsGood(c: Config, a: Action, base: Sha, tree: Tree, n: nat)
    requires Good(c, base, tree, n) && !a.Edit? && !GivesUp(c, a)
    ensures Published(Step(c, a), base, tree, n) || Good(Step(c, a), base, tree, n)
    ensures Succeeds(a) && !Published(Step(c, a), base, tree, n) ==> Rank(Step(c, a).pc) < Rank(c.pc)
    ensures (a.Crash? || Succeeds(a)) && !c.pc.Fail? ==> !Step(c, a).pc.Fail?
  {
    GoodPcs(c, base, tree, n);
    match a {
      case Crash => CrashKeepsGood(c, base, tree, n);
      case Interrupt => InterruptKeepsGood(c, base, tree, n);
      case Go(choice) =>
        hide Good, Published, Run, GivesUp;
        if c.pc.Down? {
          ReconcileKeepsGood(c, choice, base, tree, n);
        } else if (c.pc.Recover? || c.pc.Verify?) && choice.ok {
          EntryKeepsGood(c, choice, base, tree, n);
        } else if c.pc.InVerification? {
          VerificationKeepsGood(c, choice, base, tree, n);
        } else if c.pc.Fail? {
          FailKeepsGood(c, choice, base, tree, n);
        } else if !choice.ok {
          FailureKeepsGood(c, choice, base, tree, n);
        } else if InCommitPhase(c.pc) {
          CommitKeepsGood(c, choice, base, tree, n);
        } else {
          PublishKeepsGood(c, choice, base, tree, n);
        }
      case _ =>
    }
  }

  lemma GoodPcs(c: Config, base: Sha, tree: Tree, n: nat)
    requires Good(c, base, tree, n)
    ensures GitOk(c.disk.git) && Rank(c.pc) <= RESTART_EFFECTS
    ensures InValidation(c.pc) || InCommitPhase(c.pc) || InPublication(c.pc) || c.pc.Down? || c.pc.Fail?
    ensures c.disk.status.state != ConfirmationRequired || !c.pc.Down?
  {
  }

  // ---------- Whole runs ----------

  /** The run passes a configuration in which the change set is published. */
  ghost predicate Publishes(c: Config, schedule: seq<Action>, base: Sha, tree: Tree, n: nat)
    requires GitOk(c.disk.git)
    decreases |schedule|
  {
    || Published(c, base, tree, n)
    || (schedule != [] && (StepKeepsGit(c, schedule[0]); Publishes(Step(c, schedule[0]), schedule[1..], base, tree, n)))
  }

  /** Before anything is published, the controller gives up. */
  ghost predicate GivesUpIn(c: Config, schedule: seq<Action>, base: Sha, tree: Tree, n: nat)
    requires GitOk(c.disk.git)
    decreases |schedule|
  {
    && !Published(c, base, tree, n) && schedule != []
    && (GivesUp(c, schedule[0]) || (StepKeepsGit(c, schedule[0]); GivesUpIn(Step(c, schedule[0]), schedule[1..], base, tree, n)))
  }

  /** The effects that a restart needs at most, after a failure. */
  const RESTART_EFFECTS := 15

  /** The schedule ends with enough successes in a row. */
  predicate EndsQuietly(schedule: seq<Action>, effects: nat) {
    |schedule| >= effects && forall i :: |schedule| - effects <= i < |schedule| ==> Succeeds(schedule[i])
  }

  lemma RestIsQuiet(schedule: seq<Action>, rank: nat)
    requires schedule != []
    requires EndsQuietly(schedule, RESTART_EFFECTS) || (|schedule| >= rank && EndsQuietly(schedule, |schedule|))
    ensures var rest := schedule[1..];
            || EndsQuietly(rest, RESTART_EFFECTS)
            || (Succeeds(schedule[0]) && EndsQuietly(rest, |rest|) && (|rest| >= rank - 1 || |rest| >= RESTART_EFFECTS - 1))
  {
    var rest := schedule[1..];
    assert forall i :: 0 <= i < |rest| ==> rest[i] == schedule[i + 1];
  }

  lemma {:induction false} GoodPublishes(c: Config, schedule: seq<Action>, base: Sha, tree: Tree, n: nat)
    requires Good(c, base, tree, n) && NoEdits(schedule) && GitOk(c.disk.git)
    requires EndsQuietly(schedule, RESTART_EFFECTS) || (|schedule| >= Rank(c.pc) && EndsQuietly(schedule, |schedule|))
    requires !GivesUpIn(c, schedule, base, tree, n)
    ensures Publishes(c, schedule, base, tree, n)
    decreases |schedule|
  {
    hide Good, Published, Step, GivesUp, EndsQuietly, Rank, GitOk;
    GoodPcs(c, base, tree, n);
    RankIsPositive(c.pc);
    if !Published(c, base, tree, n) {
      ScheduleIsLong(schedule);
      var a, rest := schedule[0], schedule[1..];
      RestIsQuiet(schedule, Rank(c.pc));
      StepKeepsGood(c, a, base, tree, n);
      StepKeepsGit(c, a);
      if !Published(Step(c, a), base, tree, n) {
        GoodPcs(Step(c, a), base, tree, n);
        GoodPublishes(Step(c, a), rest, base, tree, n);
      }
    }
  }

  lemma RankIsPositive(pc: Pc)
    ensures Rank(pc) >= 1
  {
  }

  lemma ScheduleIsLong(schedule: seq<Action>)
    ensures EndsQuietly(schedule, RESTART_EFFECTS) ==> schedule != []
  {
  }

  // ---------- After giving up ----------

  /** A clean tree without a checkpoint and without a commit phase: every start ends as failed. */
  ghost predicate GivenUp(c: Config) {
    var s, g := c.disk.status, c.disk.git;
    && GitOk(g) && Dirty(g) == {} && Completed(s) == 0 && s.state != Committing && s.state != ConfirmationRequired && !s.pid
    && (c.pc.Down? || c.pc.Blocked?)
  }

  lemma GivingUpIsFinal(c: Config, a: Action)
    requires GivenUp(c) && !a.Edit?
    ensures GivenUp(Step(c, a))
  {
    hide Dirty, ProvenCommit;
  }

  lemma {:induction false} GivenUpIsNeverPublished(c: Config, schedule: seq<Action>, base: Sha, tree: Tree, n: nat)
    requires GivenUp(c) && NoEdits(schedule)
    ensures !Publishes(c, schedule, base, tree, n)
    decreases |schedule|
  {
    hide Dirty, Step;
    if schedule != [] {
      GivingUpIsFinal(c, schedule[0]);
      GivenUpIsNeverPublished(Step(c, schedule[0]), schedule[1..], base, tree, n);
    }
  }

  /** A refused task: no start looks at it. */
  predicate Refused(c: Config) { c.pc.Down? && !StaleState(c.disk.status.state) }

  /** Nothing is committed, pushed, opened or edited. */
  predicate Untouched(d: Disk, e: Disk) { e.git == d.git && e.remote == d.remote && e.prs == d.prs }

  lemma RefusedStays(c: Config, a: Action)
    requires Refused(c) && !a.Edit? && GitOk(c.disk.git)
    ensures Refused(Step(c, a)) && Untouched(c.disk, Step(c, a).disk)
  {
  }

  lemma {:induction false} RefusedForever(c: Config, schedule: seq<Action>)
    requires Refused(c) && NoEdits(schedule) && GitOk(c.disk.git)
    ensures Refused(Steps(c, schedule)) && Untouched(c.disk, Steps(c, schedule).disk)
    decreases |schedule|
  {
    hide Step;
    if schedule != [] {
      RefusedStays(c, schedule[0]);
      RefusedForever(Step(c, schedule[0]), schedule[1..]);
    }
  }

  lemma {:induction false} RefusedIsNeverPublished(c: Config, schedule: seq<Action>, base: Sha, tree: Tree, n: nat)
    requires Refused(c) && NoEdits(schedule) && GitOk(c.disk.git)
    ensures !Publishes(c, schedule, base, tree, n)
    decreases |schedule|
  {
    hide Step;
    if schedule != [] {
      RefusedStays(c, schedule[0]);
      RefusedIsNeverPublished(Step(c, schedule[0]), schedule[1..], base, tree, n);
    }
  }

  lemma GivingUp(c: Config, a: Action, base: Sha, tree: Tree, n: nat)
    requires Good(c, base, tree, n) && GivesUp(c, a)
    ensures GivenUp(Step(c, a)) || Refused(Step(c, a))
  {
    hide Dirty, TakeSnapshot, ProvenCommit;
  }

  lemma {:induction false} GivenUpIsNotPublished(c: Config, schedule: seq<Action>, base: Sha, tree: Tree, n: nat)
    requires Good(c, base, tree, n) && NoEdits(schedule) && GitOk(c.disk.git)
    requires GivesUpIn(c, schedule, base, tree, n)
    ensures !Publishes(c, schedule, base, tree, n)
    decreases |schedule|
  {
    hide Good, Published, Step, GivesUp, GivenUp, GitOk;
    var a, rest := schedule[0], schedule[1..];
    GoodPcs(c, base, tree, n);
    StepKeepsGit(c, a);
    if GivesUp(c, a) {
      GivingUp(c, a, base, tree, n);
      if Refused(Step(c, a)) {
        RefusedIsNeverPublished(Step(c, a), rest, base, tree, n);
      } else {
        GivenUpIsNeverPublished(Step(c, a), rest, base, tree, n);
      }
    } else {
      StepKeepsGood(c, a, base, tree, n);
      GivenUpIsNotPublished(Step(c, a), rest, base, tree, n);
    }
  }

  // ---------- Captured work ----------

  lemma CapturedIsGood(c: Config)
    requires CapturedWork(c) && Unreverted(c.disk.git)
    ensures Good(c, c.disk.git.head, c.disk.git.work, |c.disk.git.commits|)
  {
    hide Dirty;
  }

  /** Captured work, of a fresh run or of a review fix, without a put-back path: under every schedule of effects,
      failing commands, crashes, restarts, interruptions and confirmations that ends with enough successes, it is
      published as exactly one commit, if and only if the controller does not give it up. */
  lemma PublishedUnlessGivenUp(c: Config, schedule: seq<Action>)
    requires CapturedWork(c) && Unreverted(c.disk.git) && NoEdits(schedule) && EndsQuietly(schedule, RESTART_EFFECTS)
    ensures Publishes(c, schedule, c.disk.git.head, c.disk.git.work, |c.disk.git.commits|)
       <==> !GivesUpIn(c, schedule, c.disk.git.head, c.disk.git.work, |c.disk.git.commits|)
  {
    var base, tree, n := c.disk.git.head, c.disk.git.work, |c.disk.git.commits|;
    CapturedIsGood(c);
    hide Good, Publishes, GivesUpIn, EndsQuietly;
    if GivesUpIn(c, schedule, base, tree, n) {
      GivenUpIsNotPublished(c, schedule, base, tree, n);
    } else {
      GoodPublishes(c, schedule, base, tree, n);
    }
  }
}
