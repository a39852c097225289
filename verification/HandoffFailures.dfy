/** Failures that the controller survives: which of them resume, and the effects whose failure strands the work. */
module HandoffFailures {
  import opened Wrappers
  import opened Handoff
  import opened HandoffInvariant
  import opened HandoffRecovery
  import opened HandoffCompletion
  import opened HandoffLosses

  /** The configuration after an effect has failed and the stop is recorded. */
  function AfterFailure(c: Config, failed: Choice, later: Choice): Config
    requires GitOk(c.disk.git)
  {
    StepKeepsGit(c, Go(failed));
    Run(Run(c, failed), later)
  }

  // ---------- Before publication ----------

  /** An effect on the way from a restart, or from captured work, to the recorded pull request. */
  predicate BeforeReview(pc: Pc) { InValidation(pc) || InCommitPhase(pc) || InPublication(pc) }

  /** The record of the commit, and the record of a fresh run or a fix that it begins to verify. */
  predicate StrandsWork(c: Config) {
    c.pc.Record? || (c.pc.Verify? && !c.pc.goal.recovering && !RecoverableState(c.disk.status.state))
  }

  /** One failing effect, and then only crashes and successes: the work is published unless that effect was one of
      the two. */
  lemma OneFailureResumes(c: Config, failed: Choice, later: Choice, schedule: seq<Action>, base: Sha, tree: Tree, n: nat)
    requires Good(c, base, tree, n) && BeforeReview(c.pc) && !failed.ok
    requires AllHard(schedule) && EndsQuietly(schedule, RESTART_EFFECTS) && GitOk(c.disk.git)
    ensures GitOk(AfterFailure(c, failed, later).disk.git)
    ensures Publishes(AfterFailure(c, failed, later), schedule, base, tree, n) <==> !StrandsWork(c)
  {
    FailureStops(c, failed, later, base, tree, n);
    var stopping := Run(c, failed);
    StepKeepsGit(c, Go(failed));
    StepKeepsGit(stopping, Go(later));
    hide Good, Run, Publishes, GivesUp, GivenUp, Refused, StrandsWork, GitOk;
    if StrandsWork(c) {
      GivingUp(stopping, Go(later), base, tree, n);
      assert NoEdits(schedule) by { assert forall i :: 0 <= i < |schedule| ==> Hard(schedule[i]); }
      if Refused(Step(stopping, Go(later))) {
        RefusedIsNeverPublished(Step(stopping, Go(later)), schedule, base, tree, n);
      } else {
        GivenUpIsNeverPublished(Step(stopping, Go(later)), schedule, base, tree, n);
      }
    } else {
      FailKeepsGood(stopping, later, base, tree, n);
      RankOfFail(stopping.pc, Run(stopping, later).pc);
      HardPublishes(Run(stopping, later), schedule, base, tree, n);
    }
  }

  lemma RankOfFail(failing: Pc, after: Pc)
    requires failing.Fail? && Rank(after) < Rank(failing)
    ensures !after.Fail?
  {
  }

  lemma FailureStops(c: Config, failed: Choice, later: Choice, base: Sha, tree: Tree, n: nat)
    requires Good(c, base, tree, n) && BeforeReview(c.pc) && !failed.ok
    ensures Good(Run(c, failed), base, tree, n) && Run(c, failed).pc.Fail? && Run(c, failed).disk == c.disk
    ensures GivesUp(Run(c, failed), Go(later)) <==> StrandsWork(c)
  {
    if c.pc.InVerification? {
      VerificationKeepsGood(c, failed, base, tree, n);
    } else {
      FailureKeepsGood(c, failed, base, tree, n);
    }
    CleanMeans(c.disk.git);
    hide Dirty, TakeSnapshot, Unreverted, Inv;
  }

  // ---------- Behind a recorded commit ----------

  /** Before anything is published, the operator makes the controller record STOPPED. */
  ghost predicate HaltsIn(c: Config, schedule: seq<Action>, base: Sha, tree: Tree, n: nat)
    requires GitOk(c.disk.git)
    decreases |schedule|
  {
    && !Published(c, base, tree, n) && schedule != []
    && (schedule[0].Halt? || (StepKeepsGit(c, schedule[0]); HaltsIn(Step(c, schedule[0]), schedule[1..], base, tree, n)))
  }

  lemma CheckpointStays(c: Config, a: Action, base: Sha, tree: Tree, n: nat)
    requires Good(c, base, tree, n) && Completed(c.disk.status) >= 1 && !a.Edit?
    ensures (GivesUp(c, a) <==> a.Halt?) && Completed(Step(c, a).disk.status) >= 1
  {
    RecordedPcs(c, base, tree, n);
    hide Good, Dirty, TakeSnapshot, ValidScope, ProvenCommit, CapturedScope, ValidCommitted, HasManifest;
  }

  lemma RecordedPcs(c: Config, base: Sha, tree: Tree, n: nat)
    requires Good(c, base, tree, n) && Completed(c.disk.status) >= 1
    ensures !InCommitPhase(c.pc) && !InReviewLoop(c.pc) && c.disk.git.head < |c.disk.git.commits|
    ensures c.pc == Fail(false) ==> RecoverableState(c.disk.status.state)
  {
  }

  /** Once the commit is recorded, the work is published whatever fails, crashes and stops come before enough
      successes, exactly unless the controller is made to record STOPPED. */
  lemma RecordedWorkResumes(c: Config, schedule: seq<Action>, base: Sha, tree: Tree, n: nat)
    requires Good(c, base, tree, n) && Completed(c.disk.status) >= 1 && GitOk(c.disk.git)
    requires NoEdits(schedule) && EndsQuietly(schedule, RESTART_EFFECTS)
    ensures Publishes(c, schedule, base, tree, n) <==> !HaltsIn(c, schedule, base, tree, n)
  {
    OnlyHaltsGiveUp(c, schedule, base, tree, n);
    hide Good, Publishes, GivesUpIn, HaltsIn, EndsQuietly;
    if GivesUpIn(c, schedule, base, tree, n) {
      GivenUpIsNotPublished(c, schedule, base, tree, n);
    } else {
      GoodPublishes(c, schedule, base, tree, n);
    }
  }

  lemma {:induction false} OnlyHaltsGiveUp(c: Config, schedule: seq<Action>, base: Sha, tree: Tree, n: nat)
    requires Good(c, base, tree, n) && Completed(c.disk.status) >= 1 && GitOk(c.disk.git) && NoEdits(schedule)
    ensures GivesUpIn(c, schedule, base, tree, n) <==> HaltsIn(c, schedule, base, tree, n)
    decreases |schedule|
  {
    hide Good, Published, Step, GivesUp, Completed;
    if schedule != [] && !Published(c, base, tree, n) {
      var a := schedule[0];
      CheckpointStays(c, a, base, tree, n);
      StepKeepsGit(c, a);
      if !a.Halt? {
        StepKeepsGood(c, a, base, tree, n);
        if !Published(Step(c, a), base, tree, n) {
          OnlyHaltsGiveUp(Step(c, a), schedule[1..], base, tree, n);
        }
      }
    }
  }

  // ---------- In the review loop ----------

  /** The controller waits for a child to start or for the reviewer to end, or records that review has passed. */
  predicate InReview(pc: Pc) { pc.Launch? || pc.Review? || pc.EndReview? || pc.LaunchFix? || pc.StartFix? || pc.Passed? }

  /** A fixer fails to start, or a reviewer of a fresh run fails to start and only LAUNCHING is on record. */
  predicate Strands(pc: Pc, failed: Choice) { pc.StartFix? || (pc.Review? && !pc.goal.recovering && !failed.recorded) }

  lemma StrandedStart(c: Config, failed: Choice, later: Choice)
    requires Inv(c) && Strands(c.pc, failed) && !failed.ok
    ensures Refused(AfterFailure(c, failed, later)) || GivenUp(AfterFailure(c, failed, later))
  {
    hide Dirty, CheckpointTrue;
  }

  /** A recorded stop keeps the checkpoint. */
  lemma StopKeepsCheckpoint(d: Disk, pc: Pc, base: Sha, tree: Tree, n: nat)
    requires base < n && d.git.onBranch && Inv(Config(d, pc)) && CommittedOnce(d, base, tree, n) && Completed(d.status) >= 1
    ensures
      var e := Put(d, Only(RecoverableChanges));
      Good(Config(e, Down), base, tree, n) && Completed(e.status) == Completed(d.status)
  {
    hide Dirty, TakeSnapshot, Unreverted;
  }

  /** The failure leaves the checkpoint, in a state that can be resumed. */
  lemma ReviewFails(c: Config, failed: Choice)
    requires Inv(c) && InReview(c.pc) && !Strands(c.pc, failed) && !failed.ok
    ensures
      var d, recovering := Run(c, failed).disk, c.pc.goal.recovering;
      && Run(c, failed).pc == Fail(recovering) && (recovering || RecoverableState(d.status.state))
      && Completed(d.status) >= 2 && d.git == c.disk.git
  {
    hide Dirty, TakeSnapshot, CheckpointTrue, GitOk;
  }

  lemma ReviewFailureStops(c: Config, failed: Choice, later: Choice, base: Sha, tree: Tree, n: nat)
    requires Inv(c) && ChangeSet(c, base, tree, n) && c.disk.git.onBranch && InReview(c.pc) && !failed.ok
    ensures
      var stopped := AfterFailure(c, failed, later);
      && GitOk(stopped.disk.git)
      && if Strands(c.pc, failed) then Refused(stopped) || GivenUp(stopped)
         else Good(stopped, base, tree, n) && Completed(stopped.disk.status) >= 2
  {
    StepKeepsGit(c, Go(failed));
    StepKeepsGit(Run(c, failed), Go(later));
    if Strands(c.pc, failed) {
      StrandedStart(c, failed, later);
      hide Inv, ChangeSet, Refused, GivenUp, Run, GitOk;
    } else {
      ReviewFails(c, failed);
      RunKeepsInv(c, failed);
      var stopping := Run(c, failed);
      assert base < n && CommittedOnce(stopping.disk, base, tree, n) by { hide Dirty, Run, Inv; }
      assert Run(stopping, later) == Config(Put(stopping.disk, Only(RecoverableChanges)), Down);
      StopKeepsCheckpoint(stopping.disk, stopping.pc, base, tree, n);
      hide Inv, ChangeSet, Good, Run, Put, Completed, GitOk;
    }
  }

  /** A failure in the review loop, before a fixer runs or while none does, resumes from the checkpoint: under every
      schedule with enough successes in the end and no halt, review starts again behind the same one commit and the one
      pull request, unless the failure was that of a child to start behind a LAUNCHING record. Then nothing ever
      resumes. */
  lemma ReviewFailureResumes(c: Config, failed: Choice, later: Choice, schedule: seq<Action>, base: Sha, tree: Tree, n: nat)
    requires Inv(c) && ChangeSet(c, base, tree, n) && c.disk.git.onBranch && InReview(c.pc) && !failed.ok
    requires NoEdits(schedule) && EndsQuietly(schedule, RESTART_EFFECTS)
    ensures GitOk(AfterFailure(c, failed, later).disk.git)
    ensures Publishes(AfterFailure(c, failed, later), schedule, base, tree, n)
       <==> !Strands(c.pc, failed) && !HaltsIn(AfterFailure(c, failed, later), schedule, base, tree, n)
  {
    ReviewFailureStops(c, failed, later, base, tree, n);
    var stopped := AfterFailure(c, failed, later);
    hide Good, GivenUp, AfterFailure, Publishes, HaltsIn, Dirty;
    if !Strands(c.pc, failed) {
      RecordedWorkResumes(stopped, schedule, base, tree, n);
    } else if Refused(stopped) {
      RefusedIsNeverPublished(stopped, schedule, base, tree, n);
    } else {
      GivenUpIsNeverPublished(stopped, schedule, base, tree, n);
    }
  }

  lemma ReviewCrashes(c: Config, base: Sha, tree: Tree, n: nat)
    requires Inv(c) && ChangeSet(c, base, tree, n) && c.disk.git.onBranch && InReview(c.pc)
    ensures var stopped := Step(c, Crash);
            if c.pc.StartFix? then GivenUp(stopped) else Good(stopped, base, tree, n) && Completed(stopped.disk.status) >= 1
  {
    hide Dirty, TakeSnapshot;
  }

  lemma ReviewIsInterrupted(c: Config, base: Sha, tree: Tree, n: nat)
    requires Inv(c) && ChangeSet(c, base, tree, n) && c.disk.git.onBranch && InReview(c.pc)
    ensures var stopped := Step(c, Interrupt);
            if c.pc.StartFix? then GivenUp(stopped) else Good(stopped, base, tree, n) && Completed(stopped.disk.status) >= 1
  {
    StepKeepsInv(c, Interrupt);
    if c.pc.StartFix? {
      hide Dirty, TakeSnapshot, CheckpointTrue, Good;
    } else {
      var d := ChildStopped(c.disk, c.pc);
      ChildStoppedKeepsCheckpoint(c, base, tree, n);
      assert Step(c, Interrupt) == Config(Put(d, Only(RecoverableChanges)), Down);
      StopKeepsCheckpoint(d, Down, base, tree, n);
      hide *;
    }
  }

  lemma ChildStoppedKeepsCheckpoint(c: Config, base: Sha, tree: Tree, n: nat)
    requires Inv(c) && ChangeSet(c, base, tree, n) && InReview(c.pc) && !c.pc.StartFix?
    ensures
      var d := ChildStopped(c.disk, c.pc);
      && base < n && d.git == c.disk.git && Inv(Config(d, Down)) && CommittedOnce(d, base, tree, n)
      && Completed(d.status) >= 1 && d.status.checkpoint.Some?
  {
    hide Dirty, TakeSnapshot;
  }

  /** A crash or an interruption in the review loop resumes likewise, behind a reviewer that may be alive still, except
      between the reset of the checkpoint and the start of a fixer. Then nothing ever resumes. */
  lemma ReviewStopResumes(c: Config, a: Action, schedule: seq<Action>, base: Sha, tree: Tree, n: nat)
    requires Inv(c) && ChangeSet(c, base, tree, n) && c.disk.git.onBranch && InReview(c.pc) && (a.Crash? || a.Interrupt?)
    requires NoEdits(schedule) && EndsQuietly(schedule, RESTART_EFFECTS)
    ensures GitOk(Step(c, a).disk.git)
    ensures Publishes(Step(c, a), schedule, base, tree, n)
       <==> !c.pc.StartFix? && !HaltsIn(Step(c, a), schedule, base, tree, n)
  {
    assert GitOk(c.disk.git);
    StepKeepsGit(c, a);
    hide Inv, ChangeSet, Good, GivenUp, Publishes, HaltsIn, Step, Dirty, EndsQuietly, NoEdits;
    if a.Crash? {
      ReviewCrashes(c, base, tree, n);
    } else {
      ReviewIsInterrupted(c, base, tree, n);
    }
    if c.pc.StartFix? {
      GivenUpIsNeverPublished(Step(c, a), schedule, base, tree, n);
    } else {
      RecordedWorkResumes(Step(c, a), schedule, base, tree, n);
    }
  }

  /** A fixer that ends without changes, successfully or not, ends the task: nothing is ever published again. */
  lemma IdleFixIsRefused(c: Config, ended: Choice, later: Choice, schedule: seq<Action>, base: Sha, tree: Tree, n: nat)
    requires Inv(c) && c.pc.EndFix? && Dirty(c.disk.git) == {} && NoEdits(schedule)
    ensures var stopped := AfterFailure(c, ended, later);
            GivenUp(stopped) && !Publishes(stopped, schedule, base, tree, n)
  {
    IdleFixStops(c, ended, later);
    hide GivenUp, AfterFailure, Publishes, Dirty, Inv;
    GivenUpIsNeverPublished(AfterFailure(c, ended, later), schedule, base, tree, n);
  }

  lemma IdleFixStops(c: Config, ended: Choice, later: Choice)
    requires Inv(c) && c.pc.EndFix? && Dirty(c.disk.git) == {}
    ensures GivenUp(AfterFailure(c, ended, later))
  {
    FixEnds(c, ended);
    var stopping := Run(c, ended);
    assert Run(stopping, later) == Config(Stop(stopping.disk, c.pc.goal.recovering), Down);
    hide Dirty, CheckpointTrue, Run, PcTrue;
  }

  /** The record of its end keeps a fix without a checkpoint. */
  lemma FixEnds(c: Config, ended: Choice)
    requires Inv(c) && c.pc.EndFix?
    ensures
      var e, goal := Run(c, ended), c.pc.goal;
      && GitOk(c.disk.git) && e.disk.git == c.disk.git && e.disk.status.checkpoint.None? && e.disk.status.state == Fixing
      && e.pc == if (!ended.ok && !ended.yes) || Dirty(c.disk.git) == {} then Fail(goal.recovering)
                 else if ended.ok then Verify(goal, 0) else Preserve(goal)
  {
    hide Dirty, CheckpointTrue;
  }

  /** The scope of the fix is preserved: the fixer has failed and is heard of, or a recovery has it on record. */
  predicate Preserves(pc: Pc, failed: Choice)
    requires pc.EndFix?
  {
    failed.yes || (failed.recorded && pc.goal.recovering)
  }

  lemma PreservedFixStops(c: Config, failed: Choice, later: Choice)
    requires Inv(c) && c.disk.git.onBranch && c.pc.EndFix? && Unreverted(c.disk.git) && Dirty(c.disk.git) != {}
    requires !failed.ok && later.ok && Preserves(c.pc, failed)
    ensures
      var stopped := AfterFailure(c, failed, later);
      stopped.pc.Down? && Good(stopped, c.disk.git.head, c.disk.git.work, |c.disk.git.commits|)
  {
    RunKeepsInv(c, failed);
    RunKeepsInv(Run(c, failed), later);
    FixEnds(c, failed);
    hide Dirty, TakeSnapshot, Unreverted, Inv, VerifyStep, CommitStep, PublishStep, Reconcile;
  }

  /** Dirty work without any scope: a start only asks for confirmation. */
  ghost predicate Unclaimable(c: Config) {
    var s, g := c.disk.status, c.disk.git;
    c.pc.Down? && GitOk(g) && Dirty(g) != {} && s.paths.None? && s.checkpoint.None? && !s.pid && s.state != Committing
  }

  lemma UnclaimableStays(c: Config, a: Action)
    requires Unclaimable(c) && Hard(a)
    ensures Unclaimable(Step(c, a))
  {
    hide Dirty;
  }

  lemma {:induction false} UnclaimableIsNotPublished(c: Config, schedule: seq<Action>, base: Sha, tree: Tree, n: nat)
    requires Unclaimable(c) && AllHard(schedule)
    ensures !Publishes(c, schedule, base, tree, n)
    decreases |schedule|
  {
    hide Step, Dirty;
    if schedule != [] {
      assert Hard(schedule[0]);
      UnclaimableStays(c, schedule[0]);
      UnclaimableIsNotPublished(Step(c, schedule[0]), schedule[1..], base, tree, n);
    }
  }

  lemma UnheardFixStops(c: Config, failed: Choice, later: Choice)
    requires Inv(c) && c.pc.EndFix? && Dirty(c.disk.git) != {} && !failed.ok && !Preserves(c.pc, failed)
    ensures Refused(AfterFailure(c, failed, later)) || Unclaimable(AfterFailure(c, failed, later))
  {
    hide Dirty, CheckpointTrue;
  }

  /** A fix that fails, and has put back nothing that it had staged, leaves its work to be verified, committed and
      pushed by the next start, through all crashes: exactly if it has changed something, and its scope is preserved.
      It is not if the record of its end fails in a fresh run, or fails for good. */
  lemma FailedFixResumes(c: Config, failed: Choice, later: Choice, schedule: seq<Action>)
    requires Inv(c) && c.disk.git.onBranch && c.pc.EndFix? && Unreverted(c.disk.git) && !failed.ok && later.ok
    requires AllHard(schedule) && EndsQuietly(schedule, RESTART_EFFECTS)
    ensures GitOk(AfterFailure(c, failed, later).disk.git)
    ensures Publishes(AfterFailure(c, failed, later), schedule, c.disk.git.head, c.disk.git.work, |c.disk.git.commits|)
            <==> Dirty(c.disk.git) != {} && Preserves(c.pc, failed)
  {
    var stopped := AfterFailure(c, failed, later);
    var base, tree, n := c.disk.git.head, c.disk.git.work, |c.disk.git.commits|;
    assert NoEdits(schedule) by { assert forall i :: 0 <= i < |schedule| ==> Hard(schedule[i]); }
    StepKeepsGit(c, Go(failed));
    StepKeepsGit(Run(c, failed), Go(later));
    hide Good, GivenUp, Refused, Unclaimable, AfterFailure, Preserves, Publishes, Dirty, Unreverted, Inv, AllHard;
    if Dirty(c.disk.git) == {} {
      IdleFixIsRefused(c, failed, later, schedule, base, tree, n);
    } else if Preserves(c.pc, failed) {
      PreservedFixStops(c, failed, later);
      HardPublishes(stopped, schedule, base, tree, n);
    } else {
      UnheardFixStops(c, failed, later);
      if Refused(stopped) {
        RefusedIsNeverPublished(stopped, schedule, base, tree, n);
      } else {
        UnclaimableIsNotPublished(stopped, schedule, base, tree, n);
      }
    }
  }

  // ---------- A commit that was not recorded ----------

  /** A restart finds a commit that was made but not recorded exactly when the state still says that the
      commit phase is on. Otherwise it gives the commit up. */
  lemma UnrecordedCommitIsFound(d: Disk, choice: Choice, base: Sha, tree: Tree, n: nat)
    requires GitOk(d.git) && d.git.onBranch && CommittedOnce(d, base, tree, n) && Restartable(d.status)
    requires d.status.checkpoint == Some(Staged) && ProvenCommit(d.status, d.git)
    ensures Reconcile(d, choice).pc == Recover <==> d.status.state == Committing
    ensures Reconcile(d, choice).pc == Blocked <==> d.status.state != Committing
  {
    CleanMeans(d.git);
    hide Dirty;
  }

  lemma StoppedAfterCommit(c: Config, failed: Choice, later: Choice, base: Sha, tree: Tree, n: nat)
    requires Good(c, base, tree, n) && c.pc.Record? && !failed.ok && GitOk(c.disk.git)
    ensures Unrecorded(c.disk, base, tree, n) && c.disk.git.onBranch
    ensures AfterFailure(c, failed, later) == Config(Put(c.disk, Only(RecoverableChanges)), Down)
  {
    hide Dirty, Inv, VerifyStep, PublishStep, ReviewStep, ProvenCommit;
  }

  /** So a crash at that point is recovered, but a failure that the controller survives is not: it rewrites the
      state, and the next start blocks and records a failure, with the commit left in place. */
  lemma FailureAfterCommitIsRefused(c: Config, failed: Choice, later: Choice, choice: Choice, base: Sha, tree: Tree, n: nat)
    requires Good(c, base, tree, n) && c.pc.Record? && !failed.ok && GitOk(c.disk.git)
    ensures Reconcile(Step(c, Crash).disk, choice).pc == Recover
    ensures
      var stopped := AfterFailure(c, failed, later);
      && stopped.pc == Down && stopped.disk.status.state == RecoverableChanges
      && Reconcile(stopped.disk, choice).pc == Blocked
      && stopped.disk.git == c.disk.git && CommittedOnce(stopped.disk, base, tree, n)
  {
    StoppedAfterCommit(c, failed, later, base, tree, n);
    UnrecordedCommitIsFound(c.disk, choice, base, tree, n);
    hide Good, Dirty, Reconcile, AfterFailure;
    UnrecordedCommitIsFound(Put(c.disk, Only(RecoverableChanges)), choice, base, tree, n);
  }

  // ---------- Every work can be stranded ----------

  const FAIL := Go(Choice(false, false, false, map[], map[], 0))

  lemma {:induction false} StepsAppend(c: Config, first: seq<Action>, second: seq<Action>)
    requires GitOk(c.disk.git)
    ensures GitOk(Steps(c, first).disk.git) && Steps(c, first + second) == Steps(Steps(c, first), second)
    decreases |first|
  {
    hide Step;
    if first == [] {
      assert first + second == second;
    } else {
      StepKeepsGit(c, first[0]);
      assert (first + second)[1..] == first[1..] + second;
      StepsAppend(Step(c, first[0]), first[1..], second);
    }
  }

  /** A fresh run before its pull request. */
  predicate Fresh(pc: Pc) {
    (pc.Verify? || pc.InVerification? || InCommitPhase(pc) || InPublication(pc)) && pc.goal == Goal(false, 0)
  }

  lemma FreshStays(c: Config, choice: Choice)
    requires Inv(c) && Fresh(c.pc)
    ensures var pc := Run(c, choice).pc; Fresh(pc) || pc == Launch(Goal(false, 1)) || pc.Fail?
  {
    hide Dirty, ValidScope, CheckpointTrue;
  }

  lemma StepsCons(c: Config, schedule: seq<Action>, k: nat)
    requires GitOk(c.disk.git) && k < |schedule|
    ensures GitOk(Step(c, schedule[0]).disk.git)
    ensures Steps(c, schedule[..k + 1]) == Steps(Step(c, schedule[0]), schedule[1..][..k])
  {
    hide Step;
    StepKeepsGit(c, schedule[0]);
    assert schedule[..k + 1][1..] == schedule[1..][..k];
  }

  lemma UnderwayStep(c: Config, a: Action, base: Sha, tree: Tree, n: nat)
    requires GitOk(c.disk.git) && Underway(c, base, tree, n) && tree != HeadTree(c.disk.git) && Succeeds(a)
    ensures GitOk(Step(c, a).disk.git) && Rank(c.pc) >= 7 && (Fresh(c.pc) ==> Fresh(Step(c, a).pc))
    ensures if c.pc.MakeCommit? then Good(Step(c, a), base, tree, n) && Step(c, a).pc.Record?
            else Underway(Step(c, a), base, tree, n) && tree != HeadTree(Step(c, a).disk.git) && Rank(Step(c, a).pc) == Rank(c.pc) - 1
  {
    UnderwayPcs(c, base, tree, n);
    StepKeepsGit(c, a);
    if Fresh(c.pc) {
      UnderwayInv(c, base, tree, n);
      FreshStays(c, a.choice);
    }
    hide Underway, Good, GitOk, Run;
    if c.pc.MakeCommit? {
      ChangeIsCommitted(c, a.choice, base, tree, n);
    } else {
      if InValidation(c.pc) { VerificationIsUnderway(c, a.choice, base, tree, n); }
      else { CommitIsUnderway(c, a.choice, base, tree, n); }
      SameHead(c, a, base, tree, n);
      UnderwayPcs(Step(c, a), base, tree, n);
    }
  }

  lemma UnderwayInv(c: Config, base: Sha, tree: Tree, n: nat)
    requires Underway(c, base, tree, n)
    ensures Inv(c)
  {
  }

  /** Successes alone take a change to the record of its commit. */
  lemma {:induction false} ReachesRecord(c: Config, schedule: seq<Action>, base: Sha, tree: Tree, n: nat) returns (k: nat)
    requires GitOk(c.disk.git) && Underway(c, base, tree, n) && tree != HeadTree(c.disk.git)
    requires AllSucceed(schedule) && |schedule| >= Rank(c.pc)
    ensures k <= |schedule| - 6 && Good(Steps(c, schedule[..k]), base, tree, n) && Steps(c, schedule[..k]).pc.Record?
    ensures Fresh(c.pc) ==> Fresh(Steps(c, schedule[..k]).pc)
    decreases |schedule|
  {
    UnderwayPcs(c, base, tree, n);
    var next := Step(c, schedule[0]);
    hide Underway, Good, GitOk, Step, Fresh, Rank;
    UnderwayStep(c, schedule[0], base, tree, n);
    if c.pc.MakeCommit? {
      k := 0;
      assert Steps(next, []) == next;
    } else {
      k := ReachesRecord(next, schedule[1..], base, tree, n);
    }
    StepsCons(c, schedule, k);
    k := k + 1;
  }

  lemma GoodStep(c: Config, a: Action, base: Sha, tree: Tree, n: nat)
    requires GitOk(c.disk.git) && Good(c, base, tree, n) && Fresh(c.pc) && Succeeds(a)
    ensures GitOk(Step(c, a).disk.git) && Rank(c.pc) >= 1
    ensures if Published(Step(c, a), base, tree, n) then Step(c, a).pc == Launch(Goal(false, 1))
            else Good(Step(c, a), base, tree, n) && Fresh(Step(c, a).pc) && Rank(Step(c, a).pc) < Rank(c.pc)
  {
    assert Inv(c);
    FreshStays(c, a.choice);
    StepKeepsGood(c, a, base, tree, n);
    StepKeepsGit(c, a);
    if Published(Step(c, a), base, tree, n) {
      PublishedAtLaunch(Step(c, a), base, tree, n);
    } else {
      GoodPcs(Step(c, a), base, tree, n);
    }
    hide Good, Published, Run, GitOk, Inv;
  }

  /** And a fresh run on to its first review. */
  lemma {:induction false} ReachesReview(c: Config, schedule: seq<Action>, base: Sha, tree: Tree, n: nat) returns (k: nat)
    requires GitOk(c.disk.git) && Good(c, base, tree, n) && Fresh(c.pc) && AllSucceed(schedule) && |schedule| >= Rank(c.pc)
    ensures k <= |schedule| && Published(Steps(c, schedule[..k]), base, tree, n)
    ensures Steps(c, schedule[..k]).pc == Launch(Goal(false, 1))
    decreases |schedule|
  {
    RankIsPositive(c.pc);
    var next := Step(c, schedule[0]);
    hide Good, GitOk, Step, Published, Fresh, Rank;
    GoodStep(c, schedule[0], base, tree, n);
    if Published(next, base, tree, n) {
      k := 0;
      assert Steps(next, []) == next;
    } else {
      k := ReachesReview(next, schedule[1..], base, tree, n);
    }
    StepsCons(c, schedule, k);
    k := k + 1;
  }

  lemma PublishedAtLaunch(c: Config, base: Sha, tree: Tree, n: nat)
    requires Published(c, base, tree, n)
    ensures c.pc.Launch? && CommittedOnce(c.disk, base, tree, n) && c.disk.remote == Some(n) && |c.disk.prs| == 1
  {
  }

  lemma CapturedIsUnderway(c: Config)
    requires CapturedWork(c)
    ensures Underway(c, c.disk.git.head, c.disk.git.work, |c.disk.git.commits|) && GitOk(c.disk.git) && Rank(c.pc) == 12
  {
    hide Dirty, TakeSnapshot;
  }

  lemma TwoSteps(c: Config, a: Action, b: Action)
    requires GitOk(c.disk.git)
    ensures GitOk(Step(c, a).disk.git) && GitOk(Step(Step(c, a), b).disk.git)
    ensures Steps(c, [a, b]) == Step(Step(c, a), b)
  {
    StepKeepsGit(c, a);
    StepKeepsGit(Step(c, a), b);
    hide Step;
    assert [a, b][1..] == [b] && [b][1..] == [];
    assert Steps(Step(c, a), [b]) == Step(Step(c, a), b);
  }

  /** Committed, and never published. */
  ghost predicate StrandedCommit(c: Config, base: Sha, tree: Tree, n: nat) {
    && GitOk(c.disk.git) && CommittedOnce(c.disk, base, tree, n)
    && forall schedule :: NoEdits(schedule) ==> !Publishes(c, schedule, base, tree, n)
  }

  lemma RecordFails(c: Config, base: Sha, tree: Tree, n: nat)
    requires GitOk(c.disk.git) && Good(c, base, tree, n) && c.pc.Record?
    ensures StrandedCommit(Steps(c, [FAIL, SUCCEED]), base, tree, n)
  {
    hide Good, Run, Publishes, GivenUp, CommittedOnce, Dirty;
    TwoSteps(c, FAIL, SUCCEED);
    var e := AfterFailure(c, FAIL.choice, SUCCEED.choice);
    FailureAfterCommitIsRefused(c, FAIL.choice, SUCCEED.choice, SUCCEED.choice, base, tree, n);
    FailureStops(c, FAIL.choice, SUCCEED.choice, base, tree, n);
    GivingUp(Run(c, FAIL.choice), SUCCEED, base, tree, n);
    forall schedule | NoEdits(schedule)
      ensures !Publishes(e, schedule, base, tree, n)
    {
      GivenUpIsNeverPublished(e, schedule, base, tree, n);
    }
  }

  /** A failure of the record strands every change: it is committed, and never published. */
  lemma FailedRecordStrandsTheWork(c: Config)
    requires CapturedWork(c) && c.disk.git.work != HeadTree(c.disk.git)
    ensures GitOk(c.disk.git)
    ensures exists successes :: AllSucceed(successes) &&
              StrandedCommit(Steps(c, successes + [FAIL, SUCCEED]), c.disk.git.head, c.disk.git.work, |c.disk.git.commits|)
  {
    var before := WorkReachesRecord(c);
    hide *;
    StepsAppend(c, before, [FAIL, SUCCEED]);
    RecordFails(Steps(c, before), c.disk.git.head, c.disk.git.work, |c.disk.git.commits|);
  }

  lemma SomeSucceed(schedule: seq<Action>, k: nat)
    requires AllSucceed(schedule) && k <= |schedule|
    ensures AllSucceed(schedule[..k]) && AllSucceed(schedule[k..])
  {
  }

  /** No start ever looks at the task again. */
  ghost predicate StaysRefused(c: Config)
    requires GitOk(c.disk.git)
  {
    forall schedule :: NoEdits(schedule) ==> Refused(Steps(c, schedule)) && Untouched(c.disk, Steps(c, schedule).disk)
  }

  lemma StrandedForever(c: Config)
    requires Refused(c) && GitOk(c.disk.git)
    ensures StaysRefused(c)
  {
    forall schedule | NoEdits(schedule)
      ensures Refused(Steps(c, schedule)) && Untouched(c.disk, Steps(c, schedule).disk)
    {
      RefusedForever(c, schedule);
    }
  }

  /** A halt strands whatever work there is, committed and pushed work included. */
  lemma HaltIsFinal(c: Config)
    requires GitOk(c.disk.git)
    ensures GitOk(Step(c, Halt).disk.git) && Untouched(c.disk, Step(c, Halt).disk) && StaysRefused(Step(c, Halt))
  {
    StepKeepsGit(c, Halt);
    assert Refused(Step(c, Halt)) && Untouched(c.disk, Step(c, Halt).disk) by { hide Dirty, TakeSnapshot; }
    StrandedForever(Step(c, Halt));
  }

  /** Committed, with the commit on record, and no start ever looks at it. */
  ghost predicate StrandedRecord(c: Config, base: Sha, tree: Tree, n: nat) {
    && GitOk(c.disk.git) && CommittedOnce(c.disk, base, tree, n) && c.disk.status.checkpoint == Some(Committed)
    && StaysRefused(c)
  }

  lemma ThreeSteps(c: Config, a: Action, b: Action, d: Action)
    requires GitOk(c.disk.git)
    ensures GitOk(Step(c, a).disk.git) && GitOk(Step(Step(c, a), b).disk.git)
    ensures Steps(c, [a, b, d]) == Step(Step(Step(c, a), b), d)
  {
    StepKeepsGit(c, a);
    TwoSteps(Step(c, a), b, d);
    hide Step, GitOk;
    assert [a, b, d][1..] == [b, d];
  }

  lemma CrashKeepsDisk(c: Config)
    requires GitOk(c.disk.git)
    ensures Step(c, Crash).disk == c.disk
  {
  }

  lemma HaltKeepsCheckpoint(c: Config)
    requires GitOk(c.disk.git)
    ensures Step(c, Halt).disk.status.checkpoint == c.disk.status.checkpoint
  {
    hide Dirty, TakeSnapshot;
  }

  lemma RecordThenHalt(c: Config, base: Sha, tree: Tree, n: nat)
    requires GitOk(c.disk.git) && Good(c, base, tree, n) && c.pc.Record?
    ensures StrandedRecord(Steps(c, [SUCCEED, Crash, Halt]), base, tree, n)
  {
    hide Good, Step, Steps, StaysRefused, Dirty;
    RecordIsMade(c, base, tree, n);
    ThreeSteps(c, SUCCEED, Crash, Halt);
    var stopped := Step(Step(c, SUCCEED), Crash);
    CrashKeepsDisk(Step(c, SUCCEED));
    HaltIsFinal(stopped);
    HaltKeepsCheckpoint(stopped);
  }

  lemma RecordIsMade(c: Config, base: Sha, tree: Tree, n: nat)
    requires GitOk(c.disk.git) && Good(c, base, tree, n) && c.pc.Record?
    ensures var d := Step(c, SUCCEED).disk;
            GitOk(d.git) && CommittedOnce(d, base, tree, n) && d.status.checkpoint == Some(Committed)
  {
    StepKeepsGit(c, SUCCEED);
    hide Inv, Dirty, ProvenCommit, VerifyStep, PublishStep, ReviewStep, EndStep;
  }

  /** Every change can be stranded so: a crash after the record of its commit, and then one interruption of the
      controller that starts again. */
  lemma HaltStrandsCommittedWork(c: Config)
    requires CapturedWork(c) && c.disk.git.work != HeadTree(c.disk.git)
    ensures GitOk(c.disk.git)
    ensures exists successes :: AllSucceed(successes) &&
              StrandedRecord(Steps(c, successes + [Crash, Halt]), c.disk.git.head, c.disk.git.work, |c.disk.git.commits|)
  {
    var before := WorkReachesRecord(c);
    RecordCanHalt(c, before, c.disk.git.head, c.disk.git.work, |c.disk.git.commits|);
    hide *;
  }

  /** The schedule of captured work up to the record of its commit. */
  lemma WorkReachesRecord(c: Config) returns (successes: seq<Action>)
    requires CapturedWork(c) && c.disk.git.work != HeadTree(c.disk.git)
    ensures GitOk(c.disk.git) && AllSucceed(successes) && Steps(c, successes).pc.Record?
    ensures Good(Steps(c, successes), c.disk.git.head, c.disk.git.work, |c.disk.git.commits|)
  {
    CapturedIsUnderway(c);
    var schedule := seq(12, _ => SUCCEED);
    assert AllSucceed(schedule);
    hide *;
    var k := ReachesRecord(c, schedule, c.disk.git.head, c.disk.git.work, |c.disk.git.commits|);
    SomeSucceed(schedule, k);
    successes := schedule[..k];
  }

  lemma RecordCanHalt(c: Config, before: seq<Action>, base: Sha, tree: Tree, n: nat)
    requires GitOk(c.disk.git) && AllSucceed(before) && Steps(c, before).pc.Record? && Good(Steps(c, before), base, tree, n)
    ensures var successes := before + [SUCCEED];
            AllSucceed(successes) && StrandedRecord(Steps(c, successes + [Crash, Halt]), base, tree, n)
  {
    assert AllSucceed([SUCCEED]);
    assert (before + [SUCCEED]) + [Crash, Halt] == before + [SUCCEED, Crash, Halt];
    StepsAppend(c, before, [SUCCEED, Crash, Halt]);
    hide *;
    RecordThenHalt(Steps(c, before), base, tree, n);
    AppendSucceeds(before, [SUCCEED]);
  }

  /** A failure of a fresh run, or of a fix in it, before it has begun to verify: the work stays uncommitted, and the
      task is refused for ever. */
  lemma FailureBeforeVerificationStrandsTheWork(c: Config)
    requires CapturedWork(c) && !c.pc.goal.recovering
    ensures GitOk(c.disk.git)
    ensures var e := Steps(c, [FAIL, SUCCEED]);
            && GitOk(e.disk.git) && e.disk.git == c.disk.git && StaysRefused(e)
  {
    FailBeforeVerification(c);
    TwoSteps(c, FAIL, SUCCEED);
    hide *;
    StrandedForever(Steps(c, [FAIL, SUCCEED]));
  }

  lemma PutsState(d: Disk, state: State)
    ensures Put(d, Only(state)).status.state == state && Put(d, Only(state)).git == d.git
    ensures !StaleState(state) ==> Refused(Config(Put(d, Only(state)), Down))
  {
  }

  lemma FailBeforeVerification(c: Config)
    requires CapturedWork(c) && !c.pc.goal.recovering
    ensures GitOk(c.disk.git) && GitOk(Step(c, FAIL).disk.git)
    ensures Refused(Step(Step(c, FAIL), SUCCEED)) && Step(Step(c, FAIL), SUCCEED).disk.git == c.disk.git
  {
    var stopping := Config(c.disk, Fail(false));
    assert GitOk(c.disk.git) && Step(c, FAIL) == stopping && !RecoverableState(c.disk.status.state);
    assert Step(stopping, SUCCEED) == Config(Put(c.disk, Only(FailedState)), Down);
    hide *;
    PutsState(c.disk, FailedState);
  }

  lemma FirstReviewerFails(c: Config, base: Sha, tree: Tree, n: nat)
    requires GitOk(c.disk.git) && c.pc == Launch(Goal(false, 1)) && CommittedOnce(c.disk, base, tree, n)
    ensures
      var e := Steps(c, [SUCCEED, FAIL, SUCCEED]);
      && GitOk(e.disk.git) && CommittedOnce(e.disk, base, tree, n) && Refused(e)
      && e.disk.remote == c.disk.remote && e.disk.prs == c.disk.prs
  {
    LaunchThenFail(c);
    hide Step, Steps, CommittedOnce;
    ThreeSteps(c, SUCCEED, FAIL, SUCCEED);
  }

  lemma LaunchThenFail(c: Config)
    requires GitOk(c.disk.git) && c.pc == Launch(Goal(false, 1))
    ensures GitOk(Step(c, SUCCEED).disk.git) && GitOk(Step(Step(c, SUCCEED), FAIL).disk.git)
    ensures
      var e := Step(Step(Step(c, SUCCEED), FAIL), SUCCEED);
      Refused(e) && e.disk.git == c.disk.git && e.disk.remote == c.disk.remote && e.disk.prs == c.disk.prs
  {
    var launched := Config(Put(c.disk, Only(Launching).(base := Some(c.disk.git.head))), Review(Goal(false, 1)));
    assert Step(c, SUCCEED) == launched;
    assert Step(launched, FAIL) == Config(launched.disk, Fail(false));
    hide Dirty, VerifyStep, CommitStep, PublishStep, ReviewStep, Reconcile;
  }

  /** Pushed, with an open pull request, and refused for ever. */
  ghost predicate StrandedRun(c: Config, base: Sha, tree: Tree, n: nat) {
    && GitOk(c.disk.git) && CommittedOnce(c.disk, base, tree, n) && c.disk.remote == Some(n) && |c.disk.prs| == 1
    && StaysRefused(c)
  }

  lemma ReviewerFails(c: Config, base: Sha, tree: Tree, n: nat)
    requires GitOk(c.disk.git) && c.pc == Launch(Goal(false, 1)) && Published(c, base, tree, n)
    ensures StrandedRun(Steps(c, [SUCCEED, FAIL, SUCCEED]), base, tree, n)
  {
    PublishedAtLaunch(c, base, tree, n);
    hide Steps, CommittedOnce, Published;
    FirstReviewerFails(c, base, tree, n);
    StrandedForever(Steps(c, [SUCCEED, FAIL, SUCCEED]));
  }

  /** The schedule of a fresh run up to its first review. */
  lemma FreshRunReachesReview(c: Config) returns (successes: seq<Action>)
    requires FreshWork(c) && c.disk.git.work != HeadTree(c.disk.git)
    ensures GitOk(c.disk.git) && AllSucceed(successes) && Steps(c, successes).pc == Launch(Goal(false, 1))
    ensures Published(Steps(c, successes), c.disk.git.head, c.disk.git.work, |c.disk.git.commits|)
  {
    var base, tree, n := c.disk.git.head, c.disk.git.work, |c.disk.git.commits|;
    FreshIsUnderway(c);
    var schedule := seq(12, _ => SUCCEED);
    assert AllSucceed(schedule);
    hide *;
    var k := ReachesRecord(c, schedule, base, tree, n);
    SomeSucceed(schedule, k);
    RecordRank(Steps(c, schedule[..k]).pc);
    var m := ReachesReview(Steps(c, schedule[..k]), schedule[k..], base, tree, n);
    SomeSucceed(schedule[k..], m);
    StepsAppend(c, schedule[..k], schedule[k..][..m]);
    successes := schedule[..k] + schedule[k..][..m];
    AppendSucceeds(schedule[..k], schedule[k..][..m]);
  }

  lemma FreshIsUnderway(c: Config)
    requires FreshWork(c)
    ensures Underway(c, c.disk.git.head, c.disk.git.work, |c.disk.git.commits|) && GitOk(c.disk.git) && Rank(c.pc) == 12 && Fresh(c.pc)
  {
    CapturedIsWork(c);
    CapturedIsUnderway(c);
    hide Underway, Inv, Dirty, TakeSnapshot;
  }

  lemma RecordRank(pc: Pc)
    requires pc.Record?
    ensures Rank(pc) == 6
  {
  }

  /** A failing start of the first reviewer strands every fresh run that changes something: its commit is pushed, its
      pull request is open, and the task is refused for ever. */
  lemma FailedReviewerStrandsTheRun(c: Config)
    requires FreshWork(c) && c.disk.git.work != HeadTree(c.disk.git)
    ensures GitOk(c.disk.git)
    ensures exists successes :: AllSucceed(successes) &&
              StrandedRun(Steps(c, successes + [FAIL, SUCCEED]), c.disk.git.head, c.disk.git.work, |c.disk.git.commits|)
  {
    var before := FreshRunReachesReview(c);
    ReviewerCanFail(c, before, c.disk.git.head, c.disk.git.work, |c.disk.git.commits|);
    hide *;
  }

  lemma ReviewerCanFail(c: Config, before: seq<Action>, base: Sha, tree: Tree, n: nat)
    requires GitOk(c.disk.git) && AllSucceed(before) && Steps(c, before).pc == Launch(Goal(false, 1))
    requires Published(Steps(c, before), base, tree, n)
    ensures var successes := before + [SUCCEED];
            AllSucceed(successes) && StrandedRun(Steps(c, successes + [FAIL, SUCCEED]), base, tree, n)
  {
    assert AllSucceed([SUCCEED]);
    assert (before + [SUCCEED]) + [FAIL, SUCCEED] == before + [SUCCEED, FAIL, SUCCEED];
    StepsAppend(c, before, [SUCCEED, FAIL, SUCCEED]);
    hide *;
    ReviewerFails(Steps(c, before), base, tree, n);
    AppendSucceeds(before, [SUCCEED]);
  }

  lemma AppendSucceeds(first: seq<Action>, second: seq<Action>)
    requires AllSucceed(first) && AllSucceed(second)
    ensures AllSucceed(first + second)
  {
  }
}
