/** What a recovery commits when somebody else may edit the repository: nothing, or exactly a recorded
    capture. */
module HandoffEdits {
  import opened Wrappers
  import opened Handoff
  import opened HandoffInvariant

  /** A moment at which the controller recorded the present scope: its HEAD and its worktree. */
  datatype Moment = Moment(base: Sha, work: Tree)

  /** The step records what a child left, what the operator confirmed, or what a fresh run is about to stage. */
  predicate Records(c: Config, a: Action)
    requires GitOk(c.disk.git)
  {
    match a
    case Go(choice) =>
      || ((c.pc.Review? || c.pc.EndReview? || c.pc.StartFix?) && (choice.ok || choice.recorded))
      || (c.pc.EndFix? && (choice.ok || choice.yes || choice.recorded))
      || (c.pc.Preserve? && choice.ok)
      || (c.pc.Stage? && c.pc.scope.None? && choice.ok)
    case Interrupt => c.pc.InFix? || c.pc.EndReview?
    case Halt => c.pc.InFix? || c.pc.EndReview?
    case Confirm => Step(c, a) != c
    case _ => false
  }

  function NewMoments(c: Config, a: Action): seq<Moment>
    requires GitOk(c.disk.git)
  {
    if Records(c, a) then [Moment(c.disk.git.head, c.disk.git.work)] else []
  }

  /** The recorded moments of a run, oldest first. */
  ghost function Moments(c: Config, schedule: seq<Action>): seq<Moment>
    requires GitOk(c.disk.git)
    decreases |schedule|
  {
    if schedule == [] then []
    else
      StepKeepsGit(c, schedule[0]);
      NewMoments(c, schedule[0]) + Moments(Step(c, schedule[0]), schedule[1..])
  }

  /** The captured base and content are those of a recorded moment. */
  ghost predicate Vouched(base: Sha, content: Content, g: Git, log: seq<Moment>) {
    && base < |g.commits|
    && exists m <- log :: m.base == base && m.work == Overlay(g.commits[base].tree, content)
  }

  /** Every durable capture is vouched for. */
  ghost predicate StatusVouched(s: Status, g: Git, log: seq<Moment>) {
    && (s.snapshot.Some? ==> Vouched(s.snapshot.value.head, s.snapshot.value.content, g, log))
    && (s.checkpoint == Some(Staging) || s.checkpoint == Some(Staged)
        ==> s.base.Some? && s.content.Some? && Vouched(s.base.value, s.content.value, g, log))
  }

  /** The worktree is the one of a recorded moment on the present HEAD. */
  ghost predicate AtMoment(g: Git, log: seq<Moment>) { Moment(g.head, g.work) in log }

  /** What a recovery has validated is the captured base and content of a recorded moment, and HEAD and worktree
      are still those. */
  ghost predicate Holds(goal: Goal, scope: Option<Captured>, g: Git, log: seq<Moment>)
    requires g.head < |g.commits|
  {
    && (goal == Goal(true, 0) ==> scope.Some?)
    && (scope.Some? ==>
          && AtMoment(g, log) && scope.value.base == g.head
          && g.work == Overlay(HeadTree(g), scope.value.content))
  }

  /** A recovery in its commit phase works on a recorded moment; nothing rewrites a base behind a staged scope. */
  ghost predicate PcVouched(c: Config, log: seq<Moment>)
    requires c.disk.git.head < |c.disk.git.commits|
  {
    var d, g := c.disk, c.disk.git;
    match c.pc
    case Stage(goal, scope) => Holds(goal, scope, g, log)
    case Add(goal, scope) => Holds(goal, scope, g, log) && d.status.checkpoint == Some(Staging)
    case WriteTree(goal, scope) => Holds(goal, scope, g, log) && d.status.checkpoint == Some(Staging) && g.index == g.work
    case MakeCommit(goal, scope) => Holds(goal, scope, g, log) && g.index == g.work
    case Verify(_, completed) => completed > 0 ==> Completed(d.status) >= 1
    case InVerification(_, completed) => completed > 0 ==> Completed(d.status) >= 1
    case RecordPush(_) => Completed(d.status) >= 1
    case Push(_) => Completed(d.status) >= 1
    case Announce(_) => Completed(d.status) >= 1
    case OpenPr(_, _) => Completed(d.status) >= 1
    case RecordPr(_, _) => Completed(d.status) >= 1
    case Launch(_) => Completed(d.status) >= 1
    case Review(_) => Completed(d.status) >= 1
    case _ => true
  }

  ghost predicate Faithful(c: Config, log: seq<Moment>) {
    GitOk(c.disk.git) && StatusVouched(c.disk.status, c.disk.git, log) && PcVouched(c, log)
  }

  /** A worktree is its HEAD tree with the content of the dirty paths laid over it. */
  lemma WorkIsOverlay(g: Git)
    requires g.head < |g.commits|
    ensures g.work == Overlay(HeadTree(g), Restrict(g.work, Dirty(g)))
  {
    var t := Overlay(HeadTree(g), Restrict(g.work, Dirty(g)));
    forall p
      ensures p in t <==> p in g.work
      ensures p in t ==> t[p] == g.work[p]
    {
      assert p !in Dirty(g) ==> At(g.index, p) == At(HeadTree(g), p) && At(g.work, p) == At(g.index, p);
    }
  }

  /** A recorded scope vouches for itself. */
  lemma PresentIsVouched(g: Git, log: seq<Moment>)
    requires GitOk(g) && AtMoment(g, log)
    ensures Vouched(g.head, Restrict(g.work, Dirty(g)), g, log)
  {
    WorkIsOverlay(g);
  }

  /** A valid scope shows that HEAD and worktree are those of a recorded moment, whatever happened since. */
  lemma ValidScopeIsMoment(s: Status, g: Git, log: seq<Moment>)
    requires GitOk(g) && StatusVouched(s, g, log) && ValidScope(s, g)
    ensures AtMoment(g, log)
    ensures CapturedScope(s, g).base == g.head && g.work == Overlay(HeadTree(g), CapturedScope(s, g).content)
  {
    hide Overlay, Dirty, Restrict;
    WorkIsOverlay(g);
  }

  lemma MoreMoments(s: Status, g: Git, h: Git, log: seq<Moment>, more: seq<Moment>)
    requires StatusVouched(s, g, log) && g.commits <= h.commits
    ensures StatusVouched(s, h, log + more)
  {
    hide Overlay;
  }

  // ---------- Every step stays faithful ----------

  /** The log after a step. */
  function Log(c: Config, a: Action, log: seq<Moment>): seq<Moment>
    requires GitOk(c.disk.git)
  {
    log + NewMoments(c, a)
  }

  lemma CommitStepFaithful(c: Config, choice: Choice, log: seq<Moment>)
    requires Faithful(c, log) && InCommitPhase(c.pc)
    ensures Faithful(Run(c, choice), Log(c, Go(choice), log))
  {
    hide Vouched, Dirty, Restrict, Overlay;
    var g, l := c.disk.git, Log(c, Go(choice), log);
    StepKeepsGit(c, Go(choice));
    MoreMoments(c.disk.status, g, Run(c, choice).disk.git, log, NewMoments(c, Go(choice)));
    if c.pc.Stage? && c.pc.scope.None? && choice.ok {
      assert l[|log|] == Moment(g.head, g.work);
      PresentIsVouched(g, l);
    } else {
      assert l == log;
      if c.pc.Stage? && choice.ok { PresentIsVouched(g, log); }
    }
  }

  lemma PublishStepFaithful(c: Config, choice: Choice, log: seq<Moment>)
    requires Faithful(c, log)
    requires InPublication(c.pc)
    ensures Faithful(Run(c, choice), Log(c, Go(choice), log))
  {
    hide Vouched;
    assert Log(c, Go(choice), log) == log;
  }

  /** An update with the present scope keeps every capture vouched for, once that scope is recorded. */
  lemma ScopeFaithful(previous: Status, u: Status, reset: bool, g: Git, log: seq<Moment>)
    requires GitOk(g) && StatusVouched(previous, g, log) && AtMoment(g, log)
    requires u.snapshot.None? && u.content.None? && u.checkpoint.None?
    requires u.base.Some? ==> reset || (previous.checkpoint != Some(Staging) && previous.checkpoint != Some(Staged))
    ensures StatusVouched(Write(previous, WithScope(u, g), reset), g, log)
  {
    hide Vouched, Dirty, Restrict;
    PresentIsVouched(g, log);
  }

  lemma ReviewStepFaithful(c: Config, choice: Choice, log: seq<Moment>)
    requires Faithful(c, log)
    requires InReviewLoop(c.pc)
    ensures Faithful(Run(c, choice), Log(c, Go(choice), log))
  {
    hide Vouched, Dirty, TakeSnapshot, Holds, VerifyStep, CommitStep, PublishStep, EndStep;
    var d, g, l := c.disk, c.disk.git, Log(c, Go(choice), log);
    MoreMoments(d.status, g, Run(c, choice).disk.git, log, NewMoments(c, Go(choice)));
    if Records(c, Go(choice)) {
      assert l[|log|] == Moment(g.head, g.work);
      MoreMoments(d.status, g, g, log, NewMoments(c, Go(choice)));
      if choice.ok && c.pc.Review? {
        ScopeFaithful(d.status, Only(Reviewing).(pid := true, base := Some(g.head)), false, g, l);
      } else if choice.ok && c.pc.StartFix? {
        ScopeFaithful(d.status, Only(Fixing).(pid := true, base := Some(g.head)), true, g, l);
      } else {
        ScopeFaithful(d.status, Only(if c.pc.Review? || c.pc.EndReview? then Reviewing else Fixing), false, g, l);
      }
    }
  }

  /** After verification a recovery goes on only with a recorded moment before it. */
  lemma VerificationFaithful(c: Config, choice: Choice, log: seq<Moment>)
    requires Faithful(c, log) && c.pc.InVerification?
    ensures Faithful(Run(c, choice), Log(c, Go(choice), log))
  {
    hide Vouched, Dirty, ValidScope, CapturedScope;
    assert Log(c, Go(choice), log) == log;
    if ValidScope(c.disk.status, c.disk.git) { ValidScopeIsMoment(c.disk.status, c.disk.git, log); }
  }

  /** A start records no scope; it may only take an unrecorded commit for made. */
  lemma ReconcileKeepsCaptures(d: Disk, choice: Choice)
    requires d.git.head < |d.git.commits|
    ensures
      var e := Reconcile(d, choice);
      && e.disk.git == d.git && (e.pc.Down? || e.pc.Recover? || e.pc.Blocked?)
      && e.disk.status.snapshot == d.status.snapshot && e.disk.status.content == d.status.content
      && e.disk.status.base == d.status.base
      && (e.disk.status.checkpoint == d.status.checkpoint || e.disk.status.checkpoint == Some(Committed))
  {
    hide Dirty, ProvenCommit, HasManifest, ChildState, Completed;
  }

  lemma ReconcileFaithful(c: Config, choice: Choice, log: seq<Moment>)
    requires Faithful(c, log) && c.pc.Down?
    ensures Faithful(Run(c, choice), Log(c, Go(choice), log))
  {
    assert Log(c, Go(choice), log) == log;
    assert Run(c, choice) == Reconcile(c.disk, choice);
    ReconcileKeepsCaptures(c.disk, choice);
    hide Vouched, Reconcile, Run, Holds;
  }

  lemma EntryFaithful(c: Config, choice: Choice, log: seq<Moment>)
    requires Faithful(c, log) && (c.pc.Recover? || c.pc.Verify?)
    ensures Faithful(Run(c, choice), Log(c, Go(choice), log))
  {
    assert Log(c, Go(choice), log) == log;
    assert Run(c, choice) == VerifyStep(c.disk, c.pc, choice);
    hide Vouched, Dirty, ValidScope, ValidCommitted, Holds, Run;
  }

  lemma StateKeepsCaptures(d: Disk, state: State)
    ensures
      var e := Put(d, Only(state));
      && e.git == d.git && e.status.snapshot == d.status.snapshot && e.status.content == d.status.content
      && e.status.base == d.status.base && e.status.checkpoint == d.status.checkpoint
  {
  }

  lemma EndFaithful(c: Config, choice: Choice, log: seq<Moment>)
    requires Faithful(c, log) && (c.pc.Passed? || c.pc.Fail? || c.pc.Blocked?)
    ensures Faithful(Run(c, choice), Log(c, Go(choice), log))
  {
    assert Log(c, Go(choice), log) == log;
    assert Run(c, choice) == EndStep(c.disk, c.pc, choice);
    StateKeepsCaptures(c.disk, ReviewPassed);
    StateKeepsCaptures(c.disk, RecoverableChanges);
    StateKeepsCaptures(c.disk, FailedState);
    hide Vouched, Dirty, Holds, Run, Reconcile, Put, HasManifest, Completed;
  }

  lemma PreserveFaithful(c: Config, choice: Choice, log: seq<Moment>)
    requires Faithful(c, log) && c.pc.Preserve?
    ensures Faithful(Run(c, choice), Log(c, Go(choice), log))
  {
    hide Vouched, Dirty, TakeSnapshot;
    var g, l := c.disk.git, Log(c, Go(choice), log);
    if choice.ok {
      assert l[|log|] == Moment(g.head, g.work);
      MoreMoments(c.disk.status, g, g, log, NewMoments(c, Go(choice)));
      ScopeFaithful(c.disk.status, Only(RecoverableChanges), false, g, l);
    } else {
      assert l == log;
    }
  }

  lemma RunFaithful(c: Config, choice: Choice, log: seq<Moment>)
    requires Faithful(c, log)
    ensures Faithful(Run(c, choice), Log(c, Go(choice), log))
  {
    hide Faithful, Run, Log;
    if InCommitPhase(c.pc) {
      CommitStepFaithful(c, choice, log);
    } else if InPublication(c.pc) {
      PublishStepFaithful(c, choice, log);
    } else if InReviewLoop(c.pc) {
      ReviewStepFaithful(c, choice, log);
    } else if c.pc.Preserve? {
      PreserveFaithful(c, choice, log);
    } else if c.pc.InVerification? {
      VerificationFaithful(c, choice, log);
    } else if c.pc.Down? {
      ReconcileFaithful(c, choice, log);
    } else if c.pc.Recover? || c.pc.Verify? {
      EntryFaithful(c, choice, log);
    } else {
      EndFaithful(c, choice, log);
    }
  }

  lemma StepFaithful(c: Config, a: Action, log: seq<Moment>)
    requires Faithful(c, log)
    ensures Faithful(Step(c, a), Log(c, a, log))
  {
    hide Vouched, Dirty, TakeSnapshot, Run;
    var d, g, l := c.disk, c.disk.git, Log(c, a, log);
    StepKeepsGit(c, a);
    MoreMoments(d.status, g, Step(c, a).disk.git, log, NewMoments(c, a));
    match a {
      case Go(choice) => RunFaithful(c, choice, log);
      case Interrupt =>
        if Records(c, a) {
          assert l[|log|] == Moment(g.head, g.work);
          ScopeFaithful(d.status, Only(d.status.state), false, g, l);
        }
      case Halt =>
        if Records(c, a) {
          assert l[|log|] == Moment(g.head, g.work);
          ScopeFaithful(d.status, Only(d.status.state), false, g, l);
        }
      case Confirm =>
        if Records(c, a) {
          assert l[|log|] == Moment(g.head, g.work);
          ScopeFaithful(d.status, Only(RecoverableChanges), false, g, l);
        }
      case _ =>
    }
  }

  // ---------- Whole runs ----------

  /** Whatever happens, every durable capture and every running recovery answers to a recorded moment. */
  lemma {:induction false} RunsAreFaithful(c: Config, schedule: seq<Action>, log: seq<Moment>)
    requires Faithful(c, log)
    ensures Faithful(Steps(c, schedule), log + Moments(c, schedule))
    decreases |schedule|
  {
    hide Step, StatusVouched, PcVouched, NewMoments;
    if schedule == [] {
      assert log + Moments(c, schedule) == log;
    } else {
      StepFaithful(c, schedule[0], log);
      StepKeepsGit(c, schedule[0]);
      RunsAreFaithful(Step(c, schedule[0]), schedule[1..], Log(c, schedule[0], log));
      assert log + Moments(c, schedule) == Log(c, schedule[0], log) + Moments(Step(c, schedule[0]), schedule[1..]);
    }
  }

  /** The new history is the old one, or one more commit. If a recovery makes it, its parent is the captured base,
      and its tree is the tree of that base with the captured content; HEAD and worktree were exactly these at a
      recorded moment. */
  ghost predicate CommitsCapture(now: Config, after: seq<Commit>, log: seq<Moment>)
    requires GitOk(now.disk.git)
  {
    var before := now.disk.git.commits;
    || after == before
    || (&& now.pc.MakeCommit?
        && (now.pc.goal == Goal(true, 0) ==>
              && now.pc.scope.Some? && now.pc.scope.value.base < |before|
              && var captured := now.pc.scope.value;
                 var tree := Overlay(before[captured.base].tree, captured.content);
                 after == before + [Commit(Some(captured.base), tree, Resolve)] && Moment(captured.base, tree) in log))
  }

  /** The controller changes history only by committing; and a recovery commits a recorded capture or nothing. */
  lemma RecoveryCommitsACapture(c: Config, schedule: seq<Action>, log: seq<Moment>, choice: Choice)
    requires Faithful(c, log)
    ensures GitOk(Steps(c, schedule).disk.git)
    ensures CommitsCapture(Steps(c, schedule), Run(Steps(c, schedule), choice).disk.git.commits, log + Moments(c, schedule))
  {
    RunsAreFaithful(c, schedule, log);
    OnlyCommitsExtend(Steps(c, schedule), choice, log + Moments(c, schedule));
  }

  lemma OnlyCommitsExtend(now: Config, choice: Choice, log: seq<Moment>)
    requires Faithful(now, log)
    ensures CommitsCapture(now, Run(now, choice).disk.git.commits, log)
  {
    hide Vouched, StatusVouched, Dirty, ValidScope, TakeSnapshot, CapturedScope, ValidCommitted, ProvenCommit, Overlay, HasManifest;
  }

  /** A fresh run starts faithful to the one moment its child has left. */
  lemma CapturedFaithful(c: Config)
    requires FreshWork(c)
    ensures Faithful(c, [Moment(c.disk.git.head, c.disk.git.work)])
  {
    var log := [Moment(c.disk.git.head, c.disk.git.work)];
    assert log[0] == Moment(c.disk.git.head, c.disk.git.work);
    PresentIsVouched(c.disk.git, log);
  }

  /** From the captured work of a fresh run on, under any schedule with edits while the controller is down or
      verifies: what a recovery commits is what a child has left, an operator has confirmed, or a fresh run was
      about to stage. */
  lemma RecoveryAfterFreshRun(c: Config, schedule: seq<Action>, choice: Choice)
    requires FreshWork(c)
    ensures GitOk(Steps(c, schedule).disk.git)
    ensures CommitsCapture(Steps(c, schedule), Run(Steps(c, schedule), choice).disk.git.commits,
                           [Moment(c.disk.git.head, c.disk.git.work)] + Moments(c, schedule))
  {
    hide CommitsCapture, Faithful, Run, Steps, Moments, FreshWork;
    CapturedFaithful(c);
    RecoveryCommitsACapture(c, schedule, [Moment(c.disk.git.head, c.disk.git.work)], choice);
  }
}
