/** One captured change set becomes at most one commit. */
module HandoffRecovery {
  import opened Wrappers
  import opened Handoff
  import opened HandoffInvariant

  // ---------- At most one commit per change set ----------

  /** The change set `tree` on `base` is still uncommitted: HEAD is the base and there are `n` commits. */
  predicate Uncommitted(d: Disk, base: Sha, tree: Tree, n: nat) {
    |d.git.commits| == n && d.git.head == base && d.git.work == tree
  }

  /** It is the one new commit, on its base, and the tree is clean. */
  predicate CommittedOnce(d: Disk, base: Sha, tree: Tree, n: nat) {
    && |d.git.commits| == n + 1 && d.git.head == n
    && d.git.commits[n].parent == Some(base) && d.git.commits[n].tree == tree
    && d.git.index == tree && d.git.work == tree
  }

  /** Uncommitted without any claim to the contrary, or committed once. */
  ghost predicate ChangeSet(c: Config, base: Sha, tree: Tree, n: nat) {
    var d := c.disk;
    && base < n
    && GitOk(d.git)
    && ((Uncommitted(d, base, tree, n) && Completed(d.status) == 0 && !c.pc.Record?
         && (d.status.checkpoint.Some? ==> d.status.preCommit == Some(base)))
        || CommittedOnce(d, base, tree, n))
  }

  /** The step does not edit files: it is no outside edit and no work of a fixing child. */
  predicate LeavesWork(c: Config, a: Action) { !a.Edit? && !(c.pc.InFix? && a.Go?) }

  ghost predicate Quiet(c: Config, schedule: seq<Action>)
    requires GitOk(c.disk.git)
    decreases |schedule|
  {
    schedule == []
    || (LeavesWork(c, schedule[0]) && (StepKeepsGit(c, schedule[0]); Quiet(Step(c, schedule[0]), schedule[1..])))
  }

  lemma CommitStepKeepsChangeSet(d: Disk, pc: Pc, c: Choice, base: Sha, tree: Tree, n: nat)
    requires Inv(Config(d, pc)) && InCommitPhase(pc)
    requires ChangeSet(Config(d, pc), base, tree, n)
    ensures ChangeSet(CommitStep(d, pc, c), base, tree, n)
  {
    hide Dirty;
    CleanMeans(d.git);
  }

  lemma PublishStepKeepsChangeSet(d: Disk, pc: Pc, c: Choice, base: Sha, tree: Tree, n: nat)
    requires Inv(Config(d, pc)) && InPublication(pc)
    requires ChangeSet(Config(d, pc), base, tree, n)
    ensures ChangeSet(PublishStep(d, pc, c), base, tree, n)
  {
    hide Dirty;
  }

  lemma ReviewStepKeepsChangeSet(d: Disk, pc: Pc, c: Choice, base: Sha, tree: Tree, n: nat)
    requires Inv(Config(d, pc))
    requires InReviewLoop(pc) && !pc.InFix?
    requires ChangeSet(Config(d, pc), base, tree, n)
    ensures ChangeSet(ReviewStep(d, pc, c), base, tree, n)
  {
    hide Dirty, TakeSnapshot;
  }

  /** A restart never takes the base for the interrupted commit: a commit is younger than its parent. */
  lemma ReconcileKeepsChangeSet(d: Disk, c: Choice, base: Sha, tree: Tree, n: nat)
    requires ChangeSet(Config(d, Down), base, tree, n)
    ensures ChangeSet(Reconcile(d, c), base, tree, n)
  {
    hide Dirty, HasManifest, ChildState;
  }

  lemma EndStepKeepsChangeSet(d: Disk, pc: Pc, c: Choice, base: Sha, tree: Tree, n: nat)
    requires ChangeSet(Config(d, pc), base, tree, n) && !InValidation(pc) && !InCommitPhase(pc)
    ensures ChangeSet(EndStep(d, pc, c), base, tree, n)
  {
    hide Dirty, TakeSnapshot, Reconcile;
    if !pc.Blocked? && !pc.Preserve? && !pc.Fail? && !pc.Passed? {
      ReconcileKeepsChangeSet(d, c, base, tree, n);
    }
  }

  lemma VerifyStepKeepsChangeSet(d: Disk, pc: Pc, c: Choice, base: Sha, tree: Tree, n: nat)
    requires ChangeSet(Config(d, pc), base, tree, n) && InValidation(pc)
    ensures ChangeSet(VerifyStep(d, pc, c), base, tree, n)
  {
    hide Dirty, ValidScope, ValidCommitted, CapturedScope;
  }

  lemma RunKeepsChangeSet(c: Config, choice: Choice, base: Sha, tree: Tree, n: nat)
    requires Inv(c) && ChangeSet(c, base, tree, n) && !c.pc.InFix?
    ensures ChangeSet(Run(c, choice), base, tree, n)
  {
    assert c.disk.git.head < |c.disk.git.commits|;
    hide Dirty, VerifyStep, CommitStep, PublishStep, ReviewStep, EndStep, Inv, ChangeSet;
    if InValidation(c.pc) {
      VerifyStepKeepsChangeSet(c.disk, c.pc, choice, base, tree, n);
    } else if InCommitPhase(c.pc) {
      CommitStepKeepsChangeSet(c.disk, c.pc, choice, base, tree, n);
    } else if InPublication(c.pc) {
      PublishStepKeepsChangeSet(c.disk, c.pc, choice, base, tree, n);
    } else if InReviewLoop(c.pc) {
      ReviewStepKeepsChangeSet(c.disk, c.pc, choice, base, tree, n);
    } else {
      EndStepKeepsChangeSet(c.disk, c.pc, choice, base, tree, n);
    }
  }

  lemma StepKeepsChangeSet(c: Config, a: Action, base: Sha, tree: Tree, n: nat)
    requires Inv(c) && ChangeSet(c, base, tree, n) && LeavesWork(c, a)
    ensures ChangeSet(Step(c, a), base, tree, n)
  {
    if a.Go? {
      RunKeepsChangeSet(c, a.choice, base, tree, n);
    } else {
      hide Dirty, TakeSnapshot;
    }
  }

  lemma QuietHasNoEdits(c: Config, schedule: seq<Action>)
    requires GitOk(c.disk.git) && Quiet(c, schedule)
    ensures NoEdits(schedule)
    decreases |schedule|
  {
    if schedule != [] {
      StepKeepsGit(c, schedule[0]);
      QuietHasNoEdits(Step(c, schedule[0]), schedule[1..]);
      assert forall i :: 1 <= i < |schedule| ==> schedule[i] == schedule[1..][i - 1];
    }
  }

  /** From a captured change set, whatever effects, crashes, restarts, interruptions and confirmations
      follow while nobody edits files: HEAD advances by at most one commit, which has the captured tree and
      the captured base as parent, and it has advanced by exactly one whenever the checkpoint says so. */
  lemma {:induction false} AtMostOneCommit(c: Config, schedule: seq<Action>, base: Sha, tree: Tree, n: nat)
    requires Inv(c) && ChangeSet(c, base, tree, n) && Quiet(c, schedule)
    ensures NoEdits(schedule)
    ensures ChangeSet(Steps(c, schedule), base, tree, n)
    ensures Completed(Steps(c, schedule).disk.status) >= 1 ==> CommittedOnce(Steps(c, schedule).disk, base, tree, n)
    decreases |schedule|
  {
    hide Step, CheckpointTrue, PcTrue, ChangeSet;
    QuietHasNoEdits(c, schedule);
    if schedule != [] {
      StepKeepsChangeSet(c, schedule[0], base, tree, n);
      StepKeepsInv(c, schedule[0]);
      AtMostOneCommit(Step(c, schedule[0]), schedule[1..], base, tree, n);
    } else {
      CompletedMeansCommitted(c, base, tree, n);
    }
  }

  lemma CompletedMeansCommitted(c: Config, base: Sha, tree: Tree, n: nat)
    requires ChangeSet(c, base, tree, n)
    ensures Completed(c.disk.status) >= 1 ==> CommittedOnce(c.disk, base, tree, n)
  {
  }

  /** Captured work, of a fresh run or of a review fix, is such an uncommitted change set. */
  lemma CapturedIsChangeSet(c: Config)
    requires CapturedWork(c)
    ensures ChangeSet(c, c.disk.git.head, c.disk.git.work, |c.disk.git.commits|)
  {
    hide Dirty, TakeSnapshot;
  }
}
