/** What a start and a recovery refuse, on every disk, whatever somebody else has made of the repository meanwhile. */
module HandoffGuards {
  import opened Wrappers
  import opened Handoff
  import opened HandoffInvariant

  // ---------- A start ----------

  predicate Clean(g: Git)
    requires g.head < |g.commits|
  {
    g.index == g.commits[g.head].tree && g.work == g.index
  }

  /** A child that is on record and may be alive. */
  predicate ChildOnRecord(s: Status) {
    s.pid && (s.state == Implementing || s.state == Fixing || s.state == Reviewing || s.state == RecoveryBlocked)
  }

  predicate Scoped(s: Status) { s.paths.Some? && s.paths.value != {} && (s.snapshot.Some? || s.content.Some?) }

  predicate ClaimsCommit(s: Status) {
    s.checkpoint == Some(Committed) || s.checkpoint == Some(Pushed) || s.checkpoint == Some(PrCreated)
  }

  predicate MidCommit(s: Status) { s.state == Committing && s.checkpoint == Some(Staged) }

  /** HEAD is one commit after the recorded HEAD, with the recorded tree, and with the recorded subject if that is one
      of the three that the controller writes. */
  predicate IsPendingCommit(s: Status, g: Git)
    requires g.head < |g.commits|
  {
    var c := g.commits[g.head];
    && s.preCommit.Some? && c.parent == s.preCommit && s.pendingTree == Some(c.tree)
    && (s.subject == Some(Resolve) || s.subject == Some(ReviewFix(1)) || s.subject == Some(ReviewFix(2))
        ==> c.subject == s.subject.value)
    && (s.subject == Some(Resolve) || s.subject == Some(ReviewFix(1)) || s.subject == Some(ReviewFix(2))
        || c.subject == Resolve)
  }

  /** A start goes on exactly with the work of a task on its branch: dirty work with a scope that no child has touched
      since, a recorded commit, or the one commit of an interrupted commit phase. */
  predicate GoesOn(d: Disk, choice: Choice)
    requires d.git.head < |d.git.commits|
  {
    var s, g := d.status, d.git;
    && s.state != FailedState && s.state != StoppedState && s.state != ConfirmationRequired
    && g.onBranch
    && (ChildOnRecord(s) ==> choice.ok && s.base == Some(g.head) && Clean(g))
    && if !Clean(g) then Scoped(s) else ClaimsCommit(s) || (MidCommit(s) && IsPendingCommit(s, g))
  }

  lemma StartGoesOn(d: Disk, choice: Choice)
    requires d.git.head < |d.git.commits|
    ensures Reconcile(d, choice).pc == Recover <==> GoesOn(d, choice)
    ensures var e := Reconcile(d, choice).disk; e.git == d.git && e.remote == d.remote && e.prs == d.prs
    ensures GoesOn(d, choice) ==>
              var e := Reconcile(d, choice).disk.status;
              && e.state == RecoverableChanges && !e.pid
              && if MidCommit(d.status) && Clean(d.git) then e.checkpoint == Some(Committed) && e.commitSha == Some(d.git.head)
                 else e.checkpoint == d.status.checkpoint && e.commitSha == d.status.commitSha
  {
    CleanMeans(d.git);
    hide Dirty;
  }

  /** A start ends as failed exactly if the task is on its branch, no child is in the way, and there is nothing left. */
  lemma StartBlocks(d: Disk, choice: Choice)
    requires d.git.head < |d.git.commits|
    ensures
      var s, g := d.status, d.git;
      Reconcile(d, choice).pc == Blocked
      <==> && s.state != FailedState && s.state != StoppedState && s.state != ConfirmationRequired
           && g.onBranch && (ChildOnRecord(s) ==> choice.ok && s.base == Some(g.head))
           && Clean(g) && !ClaimsCommit(s) && !MidCommit(s)
  {
    CleanMeans(d.git);
    hide Dirty;
  }

  /** A start asks for confirmation exactly if the work is dirty and has no scope, or a child may have changed it. */
  lemma StartAsks(d: Disk, choice: Choice)
    requires d.git.head < |d.git.commits| && d.status.state != ConfirmationRequired
    ensures
      var s, g := d.status, d.git;
      Reconcile(d, choice).disk.status.state == ConfirmationRequired
      <==> && s.state != FailedState && s.state != StoppedState && g.onBranch && !Clean(g)
           && (if ChildOnRecord(s) then choice.ok && s.base == Some(g.head) else !Scoped(s))
  {
    CleanMeans(d.git);
    hide Dirty;
  }

  /** An operator's confirmation goes on exactly with dirty work on the branch and on the recorded base, and only where
      a start has asked for it; it puts the present scope on record. */
  lemma ConfirmationGoesOn(d: Disk)
    requires GitOk(d.git)
    ensures
      var s, g, e := d.status, d.git, Step(Config(d, Down), Confirm);
      && (e.pc == Recover <==> s.state == ConfirmationRequired && g.onBranch && (s.base.Some? ==> s.base == Some(g.head)) && !Clean(g))
      && (e.pc != Recover ==> e == Config(d, Down))
      && (e.pc == Recover ==> && e.disk == d.(status := e.disk.status) && e.disk.status.state == RecoverableChanges
                              && e.disk.status.checkpoint == s.checkpoint && ValidScope(e.disk.status, g))
  {
    CleanMeans(d.git);
    hide Dirty, TakeSnapshot;
  }

  // ---------- A stop ----------

  /** A recorded failure keeps a recovery, and a fresh run between its first verification and its last review that has
      a scope or a recorded commit. Otherwise the task has failed. Nothing but the state is rewritten. */
  lemma FailureIsRecorded(d: Disk, recovering: bool, choice: Choice)
    requires GitOk(d.git)
    ensures
      var s, e := d.status, Step(Config(d, Fail(recovering)), Go(choice));
      && e.pc == Down && e.disk == d.(status := e.disk.status) && !e.disk.status.pid
      && e.disk.status == s.(state := e.disk.status.state, pid := false)
      && e.disk.status.state ==
           if recovering
              || ((Scoped(s) || ClaimsCommit(s))
                  && s.state in {Verifying, Committing, CommittedState, PushingState, PushedState, PrCreatedState, Reviewing, ReviewPassed})
           then RecoverableChanges else FailedState
  {
  }

  /** An interrupted task keeps what has a scope or any checkpoint. Without, a fresh run has failed and a recovery just
      stops. */
  lemma InterruptionIsRecorded(d: Disk, pc: Pc)
    requires GitOk(d.git) && (InValidation(pc) || InCommitPhase(pc) || InPublication(pc) || pc.Fail?)
    ensures
      var s, e := d.status, Step(Config(d, pc), Interrupt);
      && e.pc == Down && e.disk == d.(status := e.disk.status)
      && e.disk.status == s.(state := e.disk.status.state, pid := false)
      && (e.disk.status.state == RecoverableChanges <==> Scoped(s) || s.checkpoint.Some?)
      && (e.disk.status.state != RecoverableChanges ==> e.disk.status.state == FailedState || e.disk.status.state == StoppedState)
  {
  }

  // ---------- A recovery behind a checkpoint ----------

  /** The checkpoint claims more than there is, or the tree is dirty. */
  predicate Overclaims(d: Disk)
    requires d.git.head < |d.git.commits|
  {
    && ClaimsCommit(d.status)
    && (|| d.status.commitSha != Some(d.git.head)
        || (d.status.checkpoint != Some(Committed) && d.remote != Some(d.git.head))
        || (d.status.checkpoint == Some(PrCreated) && (d.status.prUrl.None? || d.status.prUrl.value !in d.prs))
        || !Clean(d.git))
  }

  /** A recovery refuses at once, and changes nothing. */
  lemma OverclaimIsRefused(d: Disk, choice: Choice)
    requires GitOk(d.git) && Overclaims(d)
    ensures Step(Config(d, Recover), Go(choice)) == Config(d, Fail(true))
  {
    CleanMeans(d.git);
    hide Dirty;
  }

  /** And it goes on behind every checkpoint that is true. */
  lemma TrueClaimGoesOn(d: Disk, choice: Choice)
    requires GitOk(d.git) && ClaimsCommit(d.status) && !Overclaims(d) && choice.ok
    ensures exists completed :: Step(Config(d, Recover), Go(choice)) == Config(d, Verify(Goal(true, 0), completed)) && completed > 0
  {
    CleanMeans(d.git);
    hide Dirty;
    assert Step(Config(d, Recover), Go(choice)) == Config(d, Verify(Goal(true, 0), Completed(d.status)));
  }

  /** After the gates a checkpoint goes on only if the tree is still clean, and where it has left off. */
  lemma GatesAreFollowedByAProof(d: Disk, goal: Goal, completed: nat, choice: Choice)
    requires GitOk(d.git) && completed > 0 && choice.ok
    ensures Step(Config(d, InVerification(goal, completed)), Go(choice))
         == Config(d, if !Clean(d.git) then Fail(goal.recovering) else if completed == 1 then Announce(goal) else OpenPr(goal, completed))
  {
    CleanMeans(d.git);
    hide Dirty;
  }

  /** A recovery without a checkpoint stages exactly the recorded scope: before the gates and after them the dirty paths
      are the recorded ones, on the recorded HEAD, with the recorded index and content, or, once staging has begun, with the
      recorded content on the recorded base. */
  ghost predicate IsScope(s: Status, g: Git)
    requires g.head < |g.commits|
  {
    && Scoped(s) && (forall p :: p in s.paths.value <==> DirtyPath(g, p))
    && (|| (&& s.snapshot.Some? && s.snapshot.value.head == g.head && s.snapshot.value.lines == StatusLines(g)
            && SameContent(s.snapshot.value.index, s.paths.value, g.index)
            && SameContent(s.snapshot.value.content, s.paths.value, g.work))
        || (&& (s.checkpoint == Some(Staging) || s.checkpoint == Some(Staged))
            && s.content.Some? && s.base == Some(g.head) && SameContent(s.content.value, s.paths.value, g.work)))
  }

  /** Index and HEAD, or worktree and index, differ in the path. */
  predicate DirtyPath(g: Git, p: Path)
    requires g.head < |g.commits|
  {
    Lookup(g.index, p) != Lookup(g.commits[g.head].tree, p) || Lookup(g.work, p) != Lookup(g.index, p)
  }

  function Lookup(t: Tree, p: Path): Option<Blob> { if p in t then Some(t[p]) else None }

  predicate SameContent(c: Content, paths: set<Path>, t: Tree) { c.Keys == paths && forall p :: p in paths ==> c[p] == Lookup(t, p) }

  lemma ScopeMeans(s: Status, g: Git)
    requires g.head < |g.commits|
    ensures ValidScope(s, g) <==> IsScope(s, g)
  {
    forall p
      ensures p in Dirty(g) <==> DirtyPath(g, p)
    {
    }
    hide Dirty, DirtyPath, StatusLines;
    if s.paths.Some? {
      var paths := s.paths.value;
      RestrictMeans(g.index, paths);
      RestrictMeans(g.work, paths);
      assert Dirty(g) == paths <==> forall p :: p in paths <==> p in Dirty(g);
    }
  }

  lemma RestrictMeans(t: Tree, paths: set<Path>)
    ensures forall c :: c == Restrict(t, paths) <==> SameContent(c, paths, t)
  {
    forall c: Content | SameContent(c, paths, t)
      ensures c == Restrict(t, paths)
    {
    }
  }

  lemma ScopeIsProvenTwice(d: Disk, choice: Choice)
    requires GitOk(d.git) && !ClaimsCommit(d.status) && choice.ok
    ensures Step(Config(d, Recover), Go(choice)) == Config(d, if IsScope(d.status, d.git) then Verify(Goal(true, 0), 0) else Fail(true))
    ensures var e := Step(Config(d, InVerification(Goal(true, 0), 0)), Go(choice));
            e.disk == d && (e.pc.Stage? <==> IsScope(d.status, d.git)) && (e.pc.Fail? <==> !IsScope(d.status, d.git))
  {
    ScopeMeans(d.status, d.git);
    hide ValidScope, IsScope, Dirty, CapturedScope;
  }

  // ---------- What is pushed ----------

  /** Somebody edits only while the controller is down. The controller does not look at HEAD again after the gates. */
  ghost predicate DownEdits(c: Config, schedule: seq<Action>)
    requires GitOk(c.disk.git)
    decreases |schedule|
  {
    schedule == []
    || ((schedule[0].Edit? ==> c.pc.Down?) && (StepKeepsGit(c, schedule[0]); DownEdits(Step(c, schedule[0]), schedule[1..])))
  }

  predicate OnRecord(d: Disk) { d.status.commitSha == Some(d.git.head) }

  predicate OnRemote(d: Disk) { OnRecord(d) && d.remote == Some(d.git.head) }

  /** Behind the proof of a checkpoint HEAD is the recorded commit. */
  predicate StandsOnRecord(c: Config) {
    match c.pc
    case Verify(_, completed) => (completed >= 1 ==> OnRecord(c.disk)) && (completed >= 2 ==> OnRemote(c.disk))
    case InVerification(_, completed) => (completed >= 1 ==> OnRecord(c.disk)) && (completed >= 2 ==> OnRemote(c.disk))
    case Announce(_) => OnRecord(c.disk)
    case Push(_) => OnRecord(c.disk)
    case RecordPush(_) => OnRemote(c.disk)
    case OpenPr(_, _) => OnRemote(c.disk)
    case RecordPr(_, _) => OnRemote(c.disk)
    case _ => true
  }

  lemma StepStandsOnRecord(c: Config, a: Action)
    requires GitOk(c.disk.git) && StandsOnRecord(c) && (a.Edit? ==> c.pc.Down?)
    ensures StandsOnRecord(Step(c, a))
  {
    hide Dirty, ValidScope, CapturedScope, TakeSnapshot, ProvenCommit;
  }

  lemma {:induction false} StepsStandOnRecord(c: Config, schedule: seq<Action>)
    requires GitOk(c.disk.git) && StandsOnRecord(c) && DownEdits(c, schedule)
    ensures StandsOnRecord(Steps(c, schedule))
    decreases |schedule|
  {
    hide Step, StandsOnRecord;
    if schedule != [] {
      StepKeepsGit(c, schedule[0]);
      StepStandsOnRecord(c, schedule[0]);
      StepsStandOnRecord(Step(c, schedule[0]), schedule[1..]);
    }
  }

  /** From every disk, over every schedule whose edits come while the controller is down: only the recorded commit is
      pushed, and a pull request is opened only for the recorded commit that is the remote head. */
  lemma OnlyTheRecordedCommitIsPublished(d: Disk, schedule: seq<Action>)
    requires GitOk(d.git) && DownEdits(Config(d, Down), schedule)
    ensures
      var e := Steps(Config(d, Down), schedule);
      && (e.pc.Push? || e.pc.OpenPr? ==> e.disk.status.commitSha == Some(e.disk.git.head))
      && (e.pc.OpenPr? ==> e.disk.remote == e.disk.status.commitSha)
  {
    StepsStandOnRecord(Config(d, Down), schedule);
  }

  // ---------- States ----------

  /** The recorded state names the phase that the controller is in. */
  predicate NamesPhase(c: Config) {
    var state := c.disk.status.state;
    match c.pc
    case Recover => state == RecoverableChanges
    case Blocked => state == RecoveryBlocked
    case Verify(goal, completed) => completed > 0 ==> goal.round == 0
    case InVerification(goal, completed) => state == Verifying && (completed > 0 ==> goal.round == 0)
    case Stage(_, _) => state == Verifying
    case Add(_, _) => state == Committing
    case WriteTree(_, _) => state == Committing
    case MakeCommit(_, _) => state == Committing
    case Record(_) => state == Committing
    case Announce(goal) => goal.round == 0 && (state == CommittedState || state == Verifying)
    case Push(goal) => state == if goal.round == 0 then PushingState else CommittedState
    case RecordPush(goal) => state == if goal.round == 0 then PushingState else CommittedState
    case OpenPr(_, _) => state == PushedState || state == Verifying
    case RecordPr(_, _) => state == PushedState || state == Verifying
    case Launch(goal) => if goal.round <= 1 then state == PrCreatedState else state == PushedState
    case Review(_) => state == Launching
    case EndReview(_) => state == Reviewing
    case LaunchFix(_) => state == Reviewing
    case StartFix(_) => state == Launching
    case InFix(_) => state == Fixing
    case EndFix(_) => state == Fixing
    case Preserve(_) => state == Fixing
    case Passed(_) => state == Reviewing
    case _ => true
  }

  lemma WorkNamesPhase(d: Disk, pc: Pc, choice: Choice)
    requires GitOk(d.git) && NamesPhase(Config(d, pc)) && (InCommitPhase(pc) || InPublication(pc))
    ensures InCommitPhase(pc) ==> NamesPhase(CommitStep(d, pc, choice))
    ensures InPublication(pc) ==> NamesPhase(PublishStep(d, pc, choice))
  {
    hide Dirty;
  }

  lemma ChildStartNamesPhase(d: Disk, pc: Pc, choice: Choice)
    requires GitOk(d.git) && NamesPhase(Config(d, pc)) && (pc.Launch? || pc.Review? || pc.LaunchFix? || pc.StartFix?)
    ensures NamesPhase(ReviewStep(d, pc, choice))
  {
    hide Dirty, TakeSnapshot;
  }

  lemma ChildEndNamesPhase(d: Disk, pc: Pc, choice: Choice)
    requires GitOk(d.git) && NamesPhase(Config(d, pc)) && (pc.EndReview? || pc.InFix? || pc.EndFix?)
    ensures NamesPhase(ReviewStep(d, pc, choice))
  {
    hide Dirty, TakeSnapshot;
  }

  lemma ReviewNamesPhase(d: Disk, pc: Pc, choice: Choice)
    requires GitOk(d.git) && NamesPhase(Config(d, pc)) && InReviewLoop(pc)
    ensures NamesPhase(ReviewStep(d, pc, choice))
  {
    hide NamesPhase, ReviewStep;
    if pc.EndReview? || pc.InFix? || pc.EndFix? {
      ChildEndNamesPhase(d, pc, choice);
    } else {
      ChildStartNamesPhase(d, pc, choice);
    }
  }

  lemma EntryNamesPhase(d: Disk, pc: Pc, choice: Choice)
    requires GitOk(d.git) && NamesPhase(Config(d, pc)) && InValidation(pc)
    ensures NamesPhase(VerifyStep(d, pc, choice))
  {
    hide Dirty, ValidScope, ValidCommitted, CapturedScope;
  }

  lemma EndNamesPhase(d: Disk, pc: Pc, choice: Choice)
    requires GitOk(d.git)
    ensures NamesPhase(EndStep(d, pc, choice))
  {
    hide Dirty, TakeSnapshot, ProvenCommit, HasManifest;
  }

  lemma StepNamesPhase(c: Config, a: Action)
    requires GitOk(c.disk.git) && NamesPhase(c)
    ensures NamesPhase(Step(c, a))
  {
    hide NamesPhase, CommitStep, PublishStep, ReviewStep, VerifyStep, EndStep, Interrupted, ChildStopped, Dirty, TakeSnapshot;
    if a.Go? {
      if InValidation(c.pc) {
        EntryNamesPhase(c.disk, c.pc, a.choice);
      } else if InCommitPhase(c.pc) || InPublication(c.pc) {
        WorkNamesPhase(c.disk, c.pc, a.choice);
      } else if InReviewLoop(c.pc) {
        ReviewNamesPhase(c.disk, c.pc, a.choice);
      } else {
        EndNamesPhase(c.disk, c.pc, a.choice);
      }
    } else {
      OthersNamePhase(c, a);
    }
  }

  lemma OthersNamePhase(c: Config, a: Action)
    requires GitOk(c.disk.git) && NamesPhase(c) && !a.Go?
    ensures NamesPhase(Step(c, a))
  {
    hide Run, Interrupted, ChildStopped, Dirty, TakeSnapshot;
  }

  /** It does from every start on, over every schedule, edits included. */
  lemma {:induction false} StateNamesPhase(c: Config, schedule: seq<Action>)
    requires GitOk(c.disk.git) && NamesPhase(c)
    ensures NamesPhase(Steps(c, schedule))
    decreases |schedule|
  {
    hide Step, NamesPhase;
    if schedule != [] {
      StepKeepsGit(c, schedule[0]);
      StepNamesPhase(c, schedule[0]);
      StateNamesPhase(Step(c, schedule[0]), schedule[1..]);
    }
  }

  // ---------- Commits and verdicts ----------

  /** What is staged becomes a commit on HEAD, with the subject of its round, unless nothing is staged. */
  lemma CommitIsMade(d: Disk, goal: Goal, scope: Option<Captured>, choice: Choice)
    requires GitOk(d.git) && choice.ok
    ensures
      var e := Step(Config(d, MakeCommit(goal, scope)), Go(choice));
      if d.git.index == d.git.commits[d.git.head].tree then e == Config(d, Fail(goal.recovering))
      else
        && e.pc == Record(goal) && e.disk == d.(git := e.disk.git) && e.disk.git.work == d.git.work
        && e.disk.git.index == d.git.index && e.disk.git.onBranch == d.git.onBranch && e.disk.git.head == |d.git.commits|
        && e.disk.git.commits
           == d.git.commits + [Commit(Some(d.git.head), d.git.index, if goal.round == 0 then Resolve else ReviewFix(goal.round))]
  {
  }

  /** A review that ends passes, or asks for a fix in the first and second round, or ends the task as defective in the
      third. */
  lemma ReviewIsDecided(d: Disk, goal: Goal, choice: Choice)
    requires GitOk(d.git)
    ensures
      Step(Config(d, EndReview(goal)), Go(choice)).pc
      == if !choice.ok then Fail(goal.recovering) else if choice.yes then Passed(goal)
         else if goal.round <= 2 then LaunchFix(goal) else Fail(goal.recovering)
  {
  }

  /** A fix that ends is verified if it has succeeded, and preserved if it has failed, but only with changes. */
  lemma FixIsDecided(d: Disk, goal: Goal, choice: Choice)
    requires GitOk(d.git) && (choice.ok || choice.yes)
    ensures
      Step(Config(d, EndFix(goal)), Go(choice)).pc
      == if Clean(d.git) then Fail(goal.recovering) else if choice.ok then Verify(goal, 0) else Preserve(goal)
  {
    CleanMeans(d.git);
    hide Dirty;
  }

  /** A passed review is recorded. */
  lemma PassIsRecorded(d: Disk, goal: Goal, choice: Choice)
    requires GitOk(d.git) && choice.ok
    ensures var e := Step(Config(d, Passed(goal)), Go(choice));
            e == Config(d.(status := d.status.(state := ReviewPassed, pid := false)), Down)
  {
  }

  // ---------- The pull request ----------

  /** A recovery adopts the one open draft, if a recorded one is that; it refuses several. A fresh run opens one. */
  lemma PullRequestIsAdopted(d: Disk, goal: Goal, completed: nat, choice: Choice)
    requires GitOk(d.git) && choice.ok && (completed >= 3 <==> d.status.checkpoint == Some(PrCreated))
    ensures
      var e := Step(Config(d, OpenPr(goal, completed)), Go(choice));
      if goal.recovering && |d.prs| > 1 then e == Config(d, Fail(true))
      else if d.status.checkpoint == Some(PrCreated) && (d.status.prUrl.None? || !goal.recovering || d.prs != [d.status.prUrl.value])
      then e == Config(d, Fail(goal.recovering))
      else if goal.recovering && |d.prs| == 1 then e == Config(d, RecordPr(goal, d.prs[0]))
      else e == Config(d.(prs := d.prs + [choice.url]), RecordPr(goal, choice.url))
  {
  }
}
