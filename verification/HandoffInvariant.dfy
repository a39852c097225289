/** The durable checkpoint never claims more than has happened, over every schedule of effects, failures, crashes,
    restarts, interruptions and confirmations. */
module HandoffInvariant {
  import opened Wrappers
  import opened Handoff

  // ---------- Git facts ----------

  lemma CleanMeans(g: Git)
    requires g.head < |g.commits|
    ensures Dirty(g) == {} <==> g.index == HeadTree(g) && g.work == g.index
  {
    if Dirty(g) == {} {
      forall p
        ensures At(g.index, p) == At(HeadTree(g), p) && At(g.work, p) == At(g.index, p)
      {
        assert p !in Dirty(g);
      }
      SameTree(g.index, HeadTree(g));
      SameTree(g.work, g.index);
    }
  }

  lemma SameTree(a: Tree, b: Tree)
    requires forall p :: At(a, p) == At(b, p)
    ensures a == b
  {
    assert forall p :: p in a <==> At(a, p).Some?;
    assert forall p :: p in b <==> At(b, p).Some?;
    assert a.Keys == b.Keys;
    assert forall p :: p in a ==> At(a, p) == Some(a[p]);
  }

  // ---------- What the checkpoint claims ----------

  ghost predicate CheckpointTrue(d: Disk)
    requires d.git.head < |d.git.commits|
  {
    && |d.prs| <= 1
    && (Completed(d.status) >= 1 ==> d.status.commitSha == Some(d.git.head) && Dirty(d.git) == {})
    && (Completed(d.status) >= 2 ==> d.remote == Some(d.git.head))
    && (Completed(d.status) >= 3 ==> d.status.prUrl.Some? && d.prs == [d.status.prUrl.value])
  }

  /** Rounds stay within the bound; a fresh run has opened no pull request before its first review, and every
      fix round has one. */
  predicate GoalTrue(goal: Goal, d: Disk) {
    goal.round <= MAX_FIX_ROUNDS && (goal == Goal(false, 0) ==> d.prs == []) && (goal.round > 0 ==> d.prs != [])
  }

  predicate ReviewGoal(goal: Goal, d: Disk) { 1 <= goal.round <= MAX_FIX_ROUNDS + 1 && d.prs != [] }

  predicate FixGoal(goal: Goal, d: Disk) { 1 <= goal.round <= MAX_FIX_ROUNDS && d.prs != [] }

  /** A fix round has dropped checkpoint and scope. */
  predicate Unclaimed(s: Status) { s.checkpoint.None? && s.paths.None? }

  /** Only a recovery starts behind a checkpoint. */
  predicate EntryTrue(goal: Goal, completed: nat, d: Disk) {
    GoalTrue(goal, d) && Completed(d.status) == completed && (completed > 0 ==> goal == Goal(true, 0))
  }

  /** What holds before each effect. */
  ghost predicate PcTrue(c: Config)
    requires c.disk.git.head < |c.disk.git.commits|
  {
    var d, s, g := c.disk, c.disk.status, c.disk.git;
    match c.pc
    case Verify(goal, completed) => EntryTrue(goal, completed, d)
    case InVerification(goal, completed) => EntryTrue(goal, completed, d)
    case Stage(goal, _) => GoalTrue(goal, d) && Completed(s) == 0
    case Add(goal, _) => GoalTrue(goal, d) && s.checkpoint == Some(Staging)
    case WriteTree(goal, _) => GoalTrue(goal, d) && s.checkpoint == Some(Staging) && g.index == g.work
    case MakeCommit(goal, _) =>
      GoalTrue(goal, d) && s.checkpoint == Some(Staged) && g.index == g.work && s.pendingTree == Some(g.index)
    case Record(goal) => GoalTrue(goal, d) && s.checkpoint == Some(Staged) && Dirty(g) == {}
    case Announce(goal) => GoalTrue(goal, d) && Completed(s) == 1 && goal.round == 0
    case Push(goal) => GoalTrue(goal, d) && Completed(s) == 1
    case RecordPush(goal) => GoalTrue(goal, d) && Completed(s) == 1 && d.remote == Some(g.head)
    case OpenPr(goal, completed) => GoalTrue(goal, d) && Completed(s) == completed >= 2 && goal.round == 0
    case RecordPr(goal, url) => Completed(s) >= 2 && d.prs == [url]
    case Launch(goal) => ReviewGoal(goal, d) && Completed(s) >= 2 && !s.pid && (s.state == PushedState || s.state == PrCreatedState)
    case Review(goal) => ReviewGoal(goal, d) && Completed(s) >= 2 && !s.pid && s.state == Launching
    case EndReview(goal) => ReviewGoal(goal, d) && Completed(s) >= 2 && s.pid && s.state == Reviewing && s.base == Some(g.head)
    case LaunchFix(goal) => FixGoal(goal, d) && Completed(s) >= 2 && !s.pid && s.state == Reviewing
    case StartFix(goal) => FixGoal(goal, d) && Unclaimed(s) && !s.pid && s.state == Launching && Dirty(g) == {}
    case InFix(goal) => FixGoal(goal, d) && Unclaimed(s) && s.state == Fixing
    case EndFix(goal) => FixGoal(goal, d) && Unclaimed(s) && s.state == Fixing
    case Passed(goal) => ReviewGoal(goal, d) && Completed(s) >= 2 && !s.pid && s.state == Reviewing
    case _ => true
  }

  ghost predicate Inv(c: Config) {
    GitOk(c.disk.git) && CheckpointTrue(c.disk) && PcTrue(c)
  }

  /** A fresh run whose child has ended: its work is captured and nothing has been committed or published. */
  ghost predicate FreshWork(c: Config) {
    var d, g := c.disk, c.disk.git;
    && GitOk(g) && g.onBranch && Dirty(g) != {}
    && d.status == Only(Implementing).(paths := Some(Dirty(g)), snapshot := Some(TakeSnapshot(g, Dirty(g))), base := Some(g.head))
    && d.remote == None && d.prs == [] && c.pc == Verify(Goal(false, 0), 0)
  }

  /** Captured work of a fresh run or of a review fix, about to be verified and committed. */
  ghost predicate CapturedWork(c: Config) {
    var d, s, g := c.disk, c.disk.status, c.disk.git;
    && Inv(c) && g.onBranch && c.pc.Verify? && c.pc.completed == 0 && Dirty(g) != {}
    && s.paths == Some(Dirty(g)) && s.snapshot == Some(TakeSnapshot(g, Dirty(g))) && s.checkpoint.None? && !s.pid
    && s.state == (if c.pc.goal.round == 0 then Implementing else Fixing)
  }

  /** So starts a fresh run. */
  lemma CapturedIsWork(c: Config)
    requires FreshWork(c)
    ensures CapturedWork(c)
  {
    hide TakeSnapshot, Dirty;
  }

  /** And so ends the child of every fix round that succeeds and has changed something. */
  lemma FixIsWork(c: Config, choice: Choice)
    requires Inv(c) && c.disk.git.onBranch && c.pc.EndFix? && choice.ok && Dirty(c.disk.git) != {}
    ensures CapturedWork(Run(c, choice))
  {
    RunKeepsInv(c, choice);
    hide TakeSnapshot, Dirty, Inv;
    assert c.disk.status.checkpoint.None? by { CheckpointDropped(c); }
  }

  lemma CheckpointDropped(c: Config)
    requires Inv(c) && c.pc.EndFix?
    ensures c.disk.status.checkpoint.None? && 1 <= c.pc.goal.round
  {
  }

  lemma CommitStepKeepsInv(d: Disk, pc: Pc, c: Choice)
    requires Inv(Config(d, pc)) && InCommitPhase(pc)
    ensures Inv(CommitStep(d, pc, c))
  {
    hide Dirty;
    CleanMeans(d.git);
    CleanMeans(CommitStep(d, pc, c).disk.git);
  }

  lemma PublishStepKeepsInv(d: Disk, pc: Pc, c: Choice)
    requires Inv(Config(d, pc)) && InPublication(pc)
    ensures Inv(PublishStep(d, pc, c))
  {
    hide Dirty;
  }

  lemma ChildStartKeepsInv(d: Disk, pc: Pc, c: Choice)
    requires Inv(Config(d, pc)) && (pc.Launch? || pc.Review? || pc.LaunchFix? || pc.StartFix?)
    ensures Inv(ReviewStep(d, pc, c))
  {
    hide Dirty;
  }

  lemma ChildEndKeepsInv(d: Disk, pc: Pc, c: Choice)
    requires Inv(Config(d, pc)) && (pc.EndReview? || pc.InFix? || pc.EndFix?)
    ensures Inv(ReviewStep(d, pc, c))
  {
    hide Dirty, TakeSnapshot;
  }

  lemma ReviewStepKeepsInv(d: Disk, pc: Pc, c: Choice)
    requires Inv(Config(d, pc))
    requires InReviewLoop(pc)
    ensures Inv(ReviewStep(d, pc, c))
  {
    hide Inv, ReviewStep;
    if pc.EndReview? || pc.InFix? || pc.EndFix? {
      ChildEndKeepsInv(d, pc, c);
    } else {
      ChildStartKeepsInv(d, pc, c);
    }
  }

  lemma VerifyStepKeepsInv(d: Disk, pc: Pc, c: Choice)
    requires Inv(Config(d, pc)) && InValidation(pc)
    ensures Inv(VerifyStep(d, pc, c))
  {
    hide Dirty, ValidScope, CapturedScope;
  }

  lemma ReconcileKeepsInv(d: Disk, c: Choice)
    requires GitOk(d.git) && CheckpointTrue(d)
    ensures Inv(Reconcile(d, c))
  {
    hide Dirty, ProvenCommit, HasManifest, ChildState, GitOk;
  }

  lemma EndStepKeepsInv(d: Disk, pc: Pc, c: Choice)
    requires Inv(Config(d, pc))
    ensures Inv(EndStep(d, pc, c))
  {
    hide Dirty, TakeSnapshot, Reconcile;
    if !pc.Blocked? && !pc.Preserve? && !pc.Fail? && !pc.Passed? {
      ReconcileKeepsInv(d, c);
    }
  }

  lemma RunKeepsInv(c: Config, choice: Choice)
    requires Inv(c)
    ensures Inv(Run(c, choice))
  {
    hide Dirty, VerifyStep, CommitStep, PublishStep, ReviewStep, EndStep, CheckpointTrue, PcTrue;
    if InValidation(c.pc) {
      VerifyStepKeepsInv(c.disk, c.pc, choice);
    } else if InCommitPhase(c.pc) {
      CommitStepKeepsInv(c.disk, c.pc, choice);
    } else if InPublication(c.pc) {
      PublishStepKeepsInv(c.disk, c.pc, choice);
    } else if InReviewLoop(c.pc) {
      ReviewStepKeepsInv(c.disk, c.pc, choice);
    } else {
      EndStepKeepsInv(c.disk, c.pc, choice);
    }
  }

  lemma StepKeepsInv(c: Config, a: Action)
    requires Inv(c) && !a.Edit?
    ensures Inv(Step(c, a))
  {
    StepKeepsGit(c, a);
    if a.Go? {
      RunKeepsInv(c, a.choice);
    } else {
      hide Dirty;
    }
  }

  predicate NoEdits(schedule: seq<Action>) { forall i :: 0 <= i < |schedule| ==> !schedule[i].Edit? }

  /** The checkpoint is true after every schedule, over fresh runs, fix rounds and recoveries; and at most
      one pull request is ever opened. */
  lemma {:induction false} CheckpointNeverOverclaims(c: Config, schedule: seq<Action>)
    requires Inv(c) && NoEdits(schedule)
    ensures Inv(Steps(c, schedule))
    decreases |schedule|
  {
    hide Step, CheckpointTrue, PcTrue;
    if schedule != [] {
      StepKeepsInv(c, schedule[0]);
      CheckpointNeverOverclaims(Step(c, schedule[0]), schedule[1..]);
    }
  }

  /** So in every reached configuration at most one pull request is open, a child that fixes runs behind no
      checkpoint, and a checkpoint is never ahead of HEAD. */
  lemma FixStartsWithoutCheckpoint(c: Config, schedule: seq<Action>)
    requires Inv(c) && NoEdits(schedule)
    ensures
      var d, pc := Steps(c, schedule).disk, Steps(c, schedule).pc;
      && |d.prs| <= 1
      && (pc.StartFix? || pc.InFix? ==> d.status.checkpoint.None? && |d.prs| == 1)
      && (d.status.checkpoint.Some? && d.status.checkpoint.value.Committed? ==> d.status.commitSha == Some(d.git.head))
  {
    hide Steps, Dirty;
    CheckpointNeverOverclaims(c, schedule);
    var e := Steps(c, schedule);
    assert CheckpointTrue(e.disk) && PcTrue(e);
    hide Inv;
  }

  lemma CapturedInv(c: Config)
    requires FreshWork(c)
    ensures Inv(c)
  {
  }
}
