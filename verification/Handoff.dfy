/** The crash-recoverable finalisation of a captured change set: durable status, git, remote and pull
    request, advanced by a controller that can stop between any two effects. */
module Handoff {
  import opened Wrappers

  // ---------- Git ----------

  type Path = string
  type Sha = nat
  type Url = nat

  datatype Blob = Blob(mode: nat, content: nat)
  type Tree = map<Path, Blob>
  /** Content per path; None is a missing file. */
  type Content = map<Path, Option<Blob>>

  datatype Subject = Resolve | ReviewFix(round: nat)

  /** A commit is named by its position in the history of the repository. */
  datatype Commit = Commit(parent: Option<Sha>, tree: Tree, subject: Subject)

  /** `onBranch` tells whether the checkout is the task's branch. */
  datatype Git = Git(commits: seq<Commit>, head: Sha, index: Tree, work: Tree, onBranch: bool)

  predicate GitOk(g: Git) {
    && g.head < |g.commits|
    && forall i :: 0 <= i < |g.commits| && g.commits[i].parent.Some? ==> g.commits[i].parent.value < i
  }

  function At(t: Tree, p: Path): Option<Blob> { if p in t then Some(t[p]) else None }

  function HeadTree(g: Git): Tree
    requires g.head < |g.commits|
  {
    g.commits[g.head].tree
  }

  /** The paths of `git status`: staged, unstaged, deleted or untracked. */
  function Dirty(g: Git): set<Path>
    requires g.head < |g.commits|
  {
    set p | p in HeadTree(g).Keys + g.index.Keys + g.work.Keys
            && (At(g.index, p) != At(HeadTree(g), p) || At(g.work, p) != At(g.index, p))
  }

  function Restrict(t: Tree, paths: set<Path>): Content { map p | p in paths :: At(t, p) }

  /** A tree with some paths replaced. */
  function Overlay(t: Tree, c: Content): Tree {
    map p | p in t.Keys + c.Keys && (p in c ==> c[p].Some?) :: if p in c then c[p].value else t[p]
  }

  function AddAll(g: Git): Git { g.(index := g.work) }

  predicate SomethingStaged(g: Git)
    requires g.head < |g.commits|
  {
    g.index != HeadTree(g)
  }

  function CommitIndex(g: Git, subject: Subject): Git {
    g.(commits := g.commits + [Commit(Some(g.head), g.index, subject)], head := |g.commits|)
  }

  // ---------- Snapshots ----------

  datatype Change = Same | Added | Deleted | Modified

  function ChangeOf(old_: Option<Blob>, new_: Option<Blob>): Change {
    if old_ == new_ then Same else if old_.None? then Added else if new_.None? then Deleted else Modified
  }

  /** One status line per dirty path: index against HEAD, worktree against index. */
  function StatusLines(g: Git): map<Path, (Change, Change)>
    requires g.head < |g.commits|
  {
    map p | p in Dirty(g) :: (ChangeOf(At(HeadTree(g), p), At(g.index, p)), ChangeOf(At(g.index, p), At(g.work, p)))
  }

  /** HEAD, status, index entries and content of the given paths. */
  datatype Snapshot = Snapshot(head: Sha, lines: map<Path, (Change, Change)>, index: Content, content: Content)

  function TakeSnapshot(g: Git, paths: set<Path>): Snapshot
    requires g.head < |g.commits|
  {
    Snapshot(g.head, StatusLines(g), Restrict(g.index, paths), Restrict(g.work, paths))
  }

  // ---------- The durable status ----------

  datatype State =
    | Implementing | Fixing | Reviewing | Launching | Verifying | RecoverableChanges | Committing | CommittedState
    | PushingState | PushedState | PrCreatedState | ReviewPassed | RecoveryBlocked | ConfirmationRequired | FailedState
    | StoppedState

  datatype Checkpoint = Staging | Staged | Committed | Pushed | PrCreated

  /** `pid` tells whether a child process is recorded; it alone is not sticky. */
  datatype Status = Status(
    state: State, pid: bool,
    paths: Option<set<Path>>, snapshot: Option<Snapshot>, content: Option<Content>,
    checkpoint: Option<Checkpoint>, commitSha: Option<Sha>, preCommit: Option<Sha>, subject: Option<Subject>,
    base: Option<Sha>, pendingTree: Option<Tree>, prUrl: Option<Url>)

  /** An update that sets nothing but the state. */
  function Only(state: State): Status { Status(state, false, None, None, None, None, None, None, None, None, None, None) }

  function Or<T>(a: Option<T>, b: Option<T>): Option<T> { if a.Some? then a else b }

  /** Fields that an update leaves out keep their previous value, unless recovery is reset. */
  function Write(previous: Status, u: Status, reset: bool): Status {
    var p := if reset then Only(previous.state) else previous;
    Status(u.state, u.pid, Or(u.paths, p.paths), Or(u.snapshot, p.snapshot), Or(u.content, p.content),
           Or(u.checkpoint, p.checkpoint), Or(u.commitSha, p.commitSha), Or(u.preCommit, p.preCommit),
           Or(u.subject, p.subject), Or(u.base, p.base), Or(u.pendingTree, p.pendingTree), Or(u.prUrl, p.prUrl))
  }

  /** An update with the present dirty scope; a clean tree adds nothing. */
  function WithScope(u: Status, g: Git): Status
    requires g.head < |g.commits|
  {
    if Dirty(g) == {} then u else u.(paths := Some(Dirty(g)), snapshot := Some(TakeSnapshot(g, Dirty(g))))
  }

  predicate HasManifest(s: Status) { s.paths.Some? && s.paths.value != {} && (s.snapshot.Some? || s.content.Some?) }

  function Completed(s: Status): nat {
    match s.checkpoint
    case Some(Committed) => 1
    case Some(Pushed) => 2
    case Some(PrCreated) => 3
    case _ => 0
  }

  // ---------- What survives a crash ----------

  /** `prs` are the open draft pull requests of the branch; their head is the remote branch. */
  datatype Disk = Disk(status: Status, git: Git, remote: Option<Sha>, prs: seq<Url>)

  predicate ExactSnapshot(s: Status, g: Git)
    requires g.head < |g.commits| && s.paths.Some?
  {
    s.snapshot.Some? && TakeSnapshot(g, s.paths.value) == s.snapshot.value
  }

  predicate StagedContent(s: Status, g: Git)
    requires s.paths.Some?
  {
    && (s.checkpoint == Some(Staging) || s.checkpoint == Some(Staged))
    && s.content.Some? && s.base == Some(g.head) && Restrict(g.work, s.paths.value) == s.content.value
  }

  /** The dirty paths are exactly the captured ones, with exactly the captured content. */
  predicate ValidScope(s: Status, g: Git)
    requires g.head < |g.commits|
  {
    && HasManifest(s) && Dirty(g) == s.paths.value
    && (ExactSnapshot(s, g) || StagedContent(s, g))
  }

  /** The captured base and content that a valid scope vouches for. */
  datatype Captured = Captured(base: Sha, content: Content)

  function CapturedScope(s: Status, g: Git): Captured
    requires g.head < |g.commits| && ValidScope(s, g)
  {
    if ExactSnapshot(s, g) then Captured(s.snapshot.value.head, s.snapshot.value.content)
    else Captured(s.base.value, s.content.value)
  }

  /** The recorded commit is HEAD, the remote head and the head of the recorded pull request, as far as the
      checkpoint claims. */
  predicate ValidCommitted(d: Disk, completed: nat) {
    && d.status.commitSha == Some(d.git.head)
    && (completed >= 2 ==> d.remote == Some(d.git.head))
    && (completed >= 3 ==> d.status.prUrl.Some? && d.status.prUrl.value in d.prs)
  }

  // ---------- The controller ----------

  /** A fresh run or a recovery; round 0 is the implementation, rounds 1 and 2 are review fixes. */
  datatype Goal = Goal(recovering: bool, round: nat)

  const MAX_FIX_ROUNDS := 2

  function SubjectOf(goal: Goal): Subject { if goal.round == 0 then Resolve else ReviewFix(goal.round) }

  /** The next effect of the controller. `scope` is what a recovery has validated. */
  datatype Pc =
    | Down
    | Recover
    | Verify(goal: Goal, completed: nat)
    | InVerification(goal: Goal, completed: nat)
    | Stage(goal: Goal, scope: Option<Captured>)
    | Add(goal: Goal, scope: Option<Captured>)
    | WriteTree(goal: Goal, scope: Option<Captured>)
    | MakeCommit(goal: Goal, scope: Option<Captured>)
    | Record(goal: Goal)
    | Announce(goal: Goal)
    | Push(goal: Goal)
    | RecordPush(goal: Goal)
    | OpenPr(goal: Goal, completed: nat)
    | RecordPr(goal: Goal, url: Url)
    | Launch(goal: Goal)
    | Review(goal: Goal)
    | EndReview(goal: Goal)
    | LaunchFix(goal: Goal)
    | StartFix(goal: Goal)
    | InFix(goal: Goal)
    | EndFix(goal: Goal)
    | Passed(goal: Goal)
    | Preserve(goal: Goal)
    | Fail(recovering: bool)
    | Blocked

  predicate InValidation(pc: Pc) { pc.Recover? || pc.Verify? || pc.InVerification? }

  predicate InCommitPhase(pc: Pc) { pc.Stage? || pc.Add? || pc.WriteTree? || pc.MakeCommit? || pc.Record? }

  predicate InPublication(pc: Pc) { pc.Announce? || pc.Push? || pc.RecordPush? || pc.OpenPr? || pc.RecordPr? }

  predicate InReviewLoop(pc: Pc) {
    pc.Launch? || pc.Review? || pc.EndReview? || pc.LaunchFix? || pc.StartFix? || pc.InFix? || pc.EndFix?
  }

  datatype Config = Config(disk: Disk, pc: Pc)

  function Put(d: Disk, u: Status): Disk { d.(status := Write(d.status, u, false)) }

  /** A start looks at these states only. */
  predicate StaleState(s: State) { s != FailedState && s != StoppedState }

  predicate ChildState(s: State) { s == Implementing || s == Fixing || s == Reviewing || s == RecoveryBlocked }

  /** The commit that an interrupted commit phase made before it could record it. */
  predicate ProvenCommit(s: Status, g: Git)
    requires g.head < |g.commits|
  {
    var c := g.commits[g.head];
    var expected := if s.subject.Some? && (s.subject.value == Resolve || s.subject.value.round == 1 || s.subject.value.round == 2)
                    then s.subject.value else Resolve;
    && s.preCommit.Some? && c.parent == s.preCommit && c.subject == expected
    && s.pendingTree == Some(c.tree)
  }

  /** What the world lets an effect do: whether the command or child succeeds, what it answers (the reviewer's
      verdict, or that the child has ended), whether a failing child is on record, what it leaves behind, and a
      new URL. */
  datatype Choice = Choice(ok: bool, yes: bool, recorded: bool, index: Tree, work: Tree, url: Url)

  /** Startup: refuse, wait, ask for confirmation, or recover what an interrupted run left. A recorded child may
      be alive still: then this does nothing, or blocks if the child cannot be identified. */
  function Reconcile(d: Disk, c: Choice): Config
    requires d.git.head < |d.git.commits|
  {
    var s, g := d.status, d.git;
    var stopped := ChildState(s.state) && s.pid;
    var changed := Dirty(g) != {};
    if !StaleState(s.state) || s.state == ConfirmationRequired then Config(d, Down)
    else if stopped && !c.ok then
      if c.yes then Config(d, Down) else Config(Put(d, Only(RecoveryBlocked).(pid := true)), Down)
    else if !g.onBranch || (stopped && s.base != Some(g.head)) then
      Config(Put(d, Only(RecoveryBlocked).(pid := s.pid)), Down)
    else if s.state == Committing && !changed && s.checkpoint == Some(Staged) then
      if ProvenCommit(s, g) then
        Config(Put(d, Only(RecoverableChanges).(checkpoint := Some(Committed), commitSha := Some(g.head))), Recover)
      else Config(d, Down)
    else if !changed && Completed(s) == 0 then Config(Put(d, Only(RecoveryBlocked)), Blocked)
    else if changed && !stopped && !HasManifest(s) then Config(Put(d, Only(ConfirmationRequired)), Down)
    else if changed && stopped then Config(Put(d, Only(ConfirmationRequired).(pid := true)), Down)
    else Config(Put(d, Only(RecoverableChanges)), Recover)
  }

  predicate RecoverableState(s: State) {
    s == Verifying || s == Committing || s == CommittedState || s == PushingState || s == PushedState
    || s == PrCreatedState || s == Reviewing || s == ReviewPassed
  }

  /** A failure keeps resumable work; a fresh run without any is recorded as failed. */
  function Stop(d: Disk, recovering: bool): Disk {
    if recovering || (RecoverableState(d.status.state) && (HasManifest(d.status) || Completed(d.status) > 0))
    then Put(d, Only(RecoverableChanges))
    else Put(d, Only(FailedState))
  }

  /** The commit phase. Every command may fail, before it has an effect. */
  function CommitStep(d: Disk, pc: Pc, c: Choice): Config
    requires d.git.head < |d.git.commits| && InCommitPhase(pc)
  {
    var g := d.git;
    if !c.ok then Config(d, Fail(pc.goal.recovering))
    else
    match pc
    case Stage(goal, scope) =>
      if Dirty(g) == {} then Config(d, Fail(goal.recovering))
      else
        Config(Put(d, Only(Committing).(
                      preCommit := Some(g.head), subject := Some(SubjectOf(goal)), checkpoint := Some(Staging),
                      paths := Some(Dirty(g)), content := Some(Restrict(g.work, Dirty(g))), base := Some(g.head))),
               Add(goal, scope))
    case Add(goal, scope) => Config(d.(git := AddAll(g)), WriteTree(goal, scope))
    case WriteTree(goal, scope) =>
      Config(Put(d, Only(Committing).(checkpoint := Some(Staged), pendingTree := Some(g.index))), MakeCommit(goal, scope))
    case MakeCommit(goal, _) =>
      if !SomethingStaged(g) then Config(d, Fail(goal.recovering))
      else Config(d.(git := CommitIndex(g, SubjectOf(goal))), Record(goal))
    case Record(goal) =>
      Config(Put(d, Only(CommittedState).(checkpoint := Some(Committed), commitSha := Some(g.head))),
             if goal.round == 0 then Announce(goal) else Push(goal))
  }

  /** Push and pull request. */
  function PublishStep(d: Disk, pc: Pc, c: Choice): Config
    requires InPublication(pc)
  {
    if !c.ok then Config(d, Fail(pc.goal.recovering))
    else
    match pc
    case Announce(goal) => Config(Put(d, Only(PushingState)), Push(goal))
    case Push(goal) => Config(d.(remote := Some(d.git.head)), RecordPush(goal))
    case RecordPush(goal) =>
      Config(Put(d, Only(PushedState).(checkpoint := Some(Pushed), commitSha := d.status.commitSha)),
             if goal.round == 0 then OpenPr(goal, 2) else Launch(goal.(round := goal.round + 1)))
    case OpenPr(goal, completed) =>
      if goal.recovering && |d.prs| > 1 then Config(d, Fail(goal.recovering))
      else
        var found := if goal.recovering && d.prs != [] then Some(d.prs[0]) else None;
        if completed >= 3 && (d.status.prUrl.None? || found != d.status.prUrl) then Config(d, Fail(goal.recovering))
        else if found.Some? then Config(d, RecordPr(goal, found.value))
        else Config(d.(prs := d.prs + [c.url]), RecordPr(goal, c.url))
    case RecordPr(goal, url) =>
      Config(Put(d, Only(PrCreatedState).(prUrl := Some(url), checkpoint := Some(PrCreated), commitSha := d.status.commitSha)),
             Launch(goal.(round := 1)))
  }

  /** A failing child is recorded with the present scope, if that record does not fail too. */
  function ChildFailed(d: Disk, goal: Goal, state: State, recorded: bool): Config
    requires d.git.head < |d.git.commits|
  {
    Config(if recorded then Put(d, WithScope(Only(state), d.git)) else d, Fail(goal.recovering))
  }

  /** The review loop: three reviews and two fixes at most. A child may fail to start, before or after it is
      recorded, and it may fail; and so may the record of its end. */
  function ReviewStep(d: Disk, pc: Pc, c: Choice): Config
    requires d.git.head < |d.git.commits|
    requires InReviewLoop(pc)
  {
    var g := d.git;
    match pc
    case Launch(goal) =>
      if !c.ok then Config(d, Fail(goal.recovering))
      else Config(Put(d, Only(Launching).(base := Some(g.head))), Review(goal))
    case Review(goal) =>
      if !c.ok then ChildFailed(d, goal, Reviewing, c.recorded)
      else Config(Put(d, WithScope(Only(Reviewing).(pid := true, base := Some(g.head)), g)), EndReview(goal))
    case EndReview(goal) =>
      if !c.ok then ChildFailed(d, goal, Reviewing, c.recorded)
      else
        Config(Put(d, WithScope(Only(Reviewing), g)),
               if c.yes then Passed(goal) else if goal.round > MAX_FIX_ROUNDS then Fail(goal.recovering) else LaunchFix(goal))
    case LaunchFix(goal) =>
      if !c.ok then Config(d, Fail(goal.recovering))
      else Config(d.(status := Write(d.status, Only(Launching).(base := Some(g.head)), true)), StartFix(goal))
    case StartFix(goal) =>
      if !c.ok then ChildFailed(d, goal, Fixing, c.recorded)
      else Config(d.(status := Write(d.status, WithScope(Only(Fixing).(pid := true, base := Some(g.head)), g), true)), InFix(goal))
    case InFix(goal) =>
      Config(d.(git := g.(index := c.index, work := c.work)), if c.yes then EndFix(goal) else InFix(goal))
    case EndFix(goal) =>
      if !c.ok && !c.yes then ChildFailed(d, goal, Fixing, c.recorded)
      else
        Config(Put(d, WithScope(Only(Fixing), g)),
               if Dirty(g) == {} then Fail(goal.recovering) else if c.ok then Verify(goal, 0) else Preserve(goal))
  }

  /** Verification, which a recovery enters only behind a proven scope or checkpoint, and leaves only so. */
  function VerifyStep(d: Disk, pc: Pc, c: Choice): Config
    requires d.git.head < |d.git.commits| && InValidation(pc)
  {
    var g := d.git;
    if !c.ok then Config(d, Fail(pc.Recover? || pc.goal.recovering))
    else
    match pc
    case Recover =>
      if Completed(d.status) == 0 then
        if ValidScope(d.status, g) then Config(d, Verify(Goal(true, 0), 0)) else Config(d, Fail(true))
      else if Dirty(g) == {} && ValidCommitted(d, Completed(d.status)) then Config(d, Verify(Goal(true, 0), Completed(d.status)))
      else Config(d, Fail(true))
    case Verify(goal, completed) => Config(Put(d, Only(Verifying)), InVerification(goal, completed))
    case InVerification(goal, completed) =>
      if completed == 0 then
        if goal.recovering && goal.round == 0 then
          if ValidScope(d.status, g) then Config(d, Stage(goal, Some(CapturedScope(d.status, g)))) else Config(d, Fail(true))
        else Config(d, Stage(goal, None))
      else if Dirty(g) != {} then Config(d, Fail(goal.recovering))
      else Config(d, if completed < 2 then Announce(goal) else OpenPr(goal, completed))
  }

  /** The last record of a controller, and the first act of the next one. */
  function EndStep(d: Disk, pc: Pc, c: Choice): Config
    requires d.git.head < |d.git.commits|
  {
    match pc
    case Blocked => Config(Put(d, Only(FailedState)), Down)
    case Preserve(goal) =>
      if c.ok then Config(Put(d, WithScope(Only(RecoverableChanges), d.git)), Down) else Config(d, Fail(goal.recovering))
    case Fail(recovering) => Config(Stop(d, recovering), Down)
    case Passed(goal) => if c.ok then Config(Put(d, Only(ReviewPassed)), Down) else Config(d, Fail(goal.recovering))
    case _ => Reconcile(d, c)
  }

  /** One effect of the controller. */
  function Run(c: Config, choice: Choice): Config
    requires c.disk.git.head < |c.disk.git.commits|
  {
    if InValidation(c.pc) then VerifyStep(c.disk, c.pc, choice)
    else if InCommitPhase(c.pc) then CommitStep(c.disk, c.pc, choice)
    else if InPublication(c.pc) then PublishStep(c.disk, c.pc, choice)
    else if InReviewLoop(c.pc) then ReviewStep(c.disk, c.pc, choice)
    else EndStep(c.disk, c.pc, choice)
  }

  /** An interrupted child leaves its scope recorded. */
  function ChildStopped(d: Disk, pc: Pc): Disk
    requires d.git.head < |d.git.commits|
  {
    if pc.InFix? || pc.EndReview? then Put(d, WithScope(Only(d.status.state), d.git)) else d
  }

  predicate Recovering(pc: Pc) {
    match pc
    case Down => false
    case Blocked => false
    case Recover => true
    case Fail(recovering) => recovering
    case _ => pc.goal.recovering
  }

  /** Resumable work is marked recoverable; without any, a task has failed, and a recovery just stops. */
  function Interrupted(d: Disk, pc: Pc): Disk
    requires d.git.head < |d.git.commits|
  {
    var e := ChildStopped(d, pc);
    Put(e, Only(if HasManifest(e.status) || e.status.checkpoint.Some? then RecoverableChanges
                else if Recovering(pc) then StoppedState else FailedState))
  }

  datatype Action =
    | Go(choice: Choice)   // the next effect, or a restart
    | Crash                // the controller stops at once
    | Interrupt            // the operator interrupts a task: the controller records that work is preserved
    | Halt                 // the operator interrupts a controller that starts, waits or handles a stop: it records STOPPED
    | Confirm              // the operator authorises the present scope
    | Edit(git: Git)       // somebody else changes the repository

  /** Edits happen while the controller is down or verification runs; commits are never lost. */
  predicate EditAllowed(pc: Pc) { pc.Down? || pc.InVerification? }

  function Step(c: Config, a: Action): Config
    requires c.disk.git.head < |c.disk.git.commits|
  {
    match a
    case Go(choice) => Run(c, choice)
    case Crash => Config(c.disk, Down)
    case Interrupt => Config(if c.pc.Down? || c.pc.Blocked? then c.disk else Interrupted(c.disk, c.pc), Down)
    case Halt => Config(Put(ChildStopped(c.disk, c.pc), Only(StoppedState)), Down)
    case Confirm =>
      var s, g := c.disk.status, c.disk.git;
      if c.pc.Down? && s.state == ConfirmationRequired && g.onBranch && (s.base.Some? ==> s.base.value == g.head) && Dirty(g) != {} then
        Config(Put(c.disk, WithScope(Only(RecoverableChanges), g)), Recover)
      else c
    case Edit(git) => if EditAllowed(c.pc) && GitOk(git) && c.disk.git.commits <= git.commits then c.(disk := c.disk.(git := git)) else c
  }

  /** History only grows, whoever takes the step. */
  lemma StepKeepsGit(c: Config, a: Action)
    requires GitOk(c.disk.git)
    ensures GitOk(Step(c, a).disk.git) && c.disk.git.commits <= Step(c, a).disk.git.commits
  {
    hide Dirty, ValidScope, ValidCommitted, ProvenCommit, TakeSnapshot, CapturedScope;
  }

  /** Any schedule of effects, restarts, crashes, interruptions, confirmations and edits. */
  ghost function Steps(c: Config, schedule: seq<Action>): Config
    requires GitOk(c.disk.git)
    decreases |schedule|
  {
    if schedule == [] then c
    else
      StepKeepsGit(c, schedule[0]);
      Steps(Step(c, schedule[0]), schedule[1..])
  }
}
