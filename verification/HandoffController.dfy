/** The controller as straight-line code: it updates the durable status, the repository, the remote branch
    and the pull requests in place. Any command may fail, and a crash may come after any number of effects.
    Each procedure is exactly a run of the protocol's effects, so what holds of every run holds of it. */
module HandoffController {
  import opened Wrappers
  import opened Handoff
  import opened HandoffGuards
  import opened HandoffInvariant

  // ---------- Runs of effects ----------

  /** What the world lets each effect do, in the order of the effects. */
  type World = nat -> Choice

  /** The configuration after `n` effects; the first of them is number `from`. */
  ghost function RunN(c: Config, world: World, from: nat, n: nat): (r: Config)
    requires GitOk(c.disk.git)
    ensures GitOk(r.disk.git)
  {
    if n == 0 then c
    else
      var r := RunN(c, world, from, n - 1);
      StepKeepsGit(r, Go(world(from + n - 1)));
      Run(r, world(from + n - 1))
  }

  lemma {:induction false} RunNAppend(c: Config, world: World, from: nat, m: nat, n: nat)
    requires GitOk(c.disk.git)
    ensures RunN(RunN(c, world, from, m), world, from + m, n) == RunN(c, world, from, m + n)
  {
    hide Run, GitOk;
    if n > 0 { RunNAppend(c, world, from, m, n - 1); }
  }

  lemma RunNNone(c: Config, world: World, from: nat)
    requires GitOk(c.disk.git)
    ensures RunN(c, world, from, 0) == c
  {
  }

  lemma RunNStep(c: Config, world: World, from: nat, n: nat)
    requires GitOk(c.disk.git)
    ensures RunN(c, world, from, n + 1) == Run(RunN(c, world, from, n), world(from + n))
  {
  }

  lemma StillGit(c: Config, world: World, from: nat, n: nat)
    requires GitOk(c.disk.git)
    ensures GitOk(RunN(c, world, from, n).disk.git)
  {
  }

  function Schedule(world: World, from: nat, n: nat): seq<Action> { seq(n, i requires 0 <= i < n => Go(world(from + i))) }

  lemma ScheduleHead(world: World, from: nat, n: nat)
    requires n > 0
    ensures Schedule(world, from, n) == [Go(world(from))] + Schedule(world, from + 1, n - 1)
  {
  }

  /** A run of effects is a schedule of them. */
  lemma {:induction false} RunNIsSteps(c: Config, world: World, from: nat, n: nat)
    requires GitOk(c.disk.git)
    ensures RunN(c, world, from, n) == Steps(c, Schedule(world, from, n))
    decreases n
  {
    hide Run;
    if n > 0 {
      var first := Go(world(from));
      ScheduleHead(world, from, n);
      StepKeepsGit(c, first);
      RunNIsSteps(Step(c, first), world, from + 1, n - 1);
      RunNNone(c, world, from);
      RunNStep(c, world, from, 0);
      RunNAppend(c, world, from, 1, n - 1);
      assert Schedule(world, from, n)[1..] == Schedule(world, from + 1, n - 1);
      hide RunN, Schedule;
    }
  }

  lemma RunNKeepsInv(c: Config, world: World, from: nat, n: nat)
    requires Inv(c)
    ensures Inv(RunN(c, world, from, n))
  {
    RunNIsSteps(c, world, from, n);
    CheckpointNeverOverclaims(c, Schedule(world, from, n));
  }

  /** Where a finalisation starts. */
  function Beginning(d: Disk, recovering: bool): Config {
    Config(d, if recovering then Recover else Verify(Goal(false, 0), 0))
  }

  function AfterCommit(goal: Goal): Pc { if goal.round == 0 then Announce(goal) else Push(goal) }

  /** Verification is over: the work goes on where the checkpoint leaves off. */
  predicate GatesPassed(at: Pc, goal: Goal) { (at.Stage? || at.Announce? || at.OpenPr?) && at.goal == goal }

  class Controller {
    var status: Status
    var git: Git
    var remote: Option<Sha>
    var prs: seq<Url>

    function Disk(): Disk
      reads this
    {
      Handoff.Disk(status, git, remote, prs)
    }

    /** Fields that the update leaves out keep their value, unless recovery is reset; `pid` alone does not. */
    method WriteStatus(u: Status, reset: bool)
      modifies `status
      ensures status == Write(old(status), u, reset) && status.state == u.state
    {
      var previous := if reset then Only(status.state) else status;
      status := Status(
        u.state, u.pid, Or(u.paths, previous.paths), Or(u.snapshot, previous.snapshot), Or(u.content, previous.content),
        Or(u.checkpoint, previous.checkpoint), Or(u.commitSha, previous.commitSha), Or(u.preCommit, previous.preCommit),
        Or(u.subject, previous.subject), Or(u.base, previous.base), Or(u.pendingTree, previous.pendingTree),
        Or(u.prUrl, previous.prUrl));
    }

    /** Refuse, wait for a live child, ask for confirmation, or surface the work of an interrupted run. */
    method ReconcileStaleRun(choice: Choice) returns (at: Pc)
      requires GitOk(git)
      modifies `status
      ensures Config(Disk(), at) == Reconcile(old(Disk()), choice)
    {
      hide Dirty, Write;
      if !StaleState(status.state) || status.state == ConfirmationRequired { return Down; }
      var stopped := ChildState(status.state) && status.pid;
      if stopped && !choice.ok {
        if !choice.yes { WriteStatus(Only(RecoveryBlocked).(pid := true), false); }
        return Down;
      }
      if !git.onBranch || (stopped && status.base != Some(git.head)) {
        WriteStatus(Only(RecoveryBlocked).(pid := status.pid), false);
        return Down;
      }
      var changed := Dirty(git) != {};
      if status.state == Committing && !changed && status.checkpoint == Some(Staged) {
        if !ProvenCommit(status, git) { return Down; }
        WriteStatus(Only(RecoverableChanges).(checkpoint := Some(Committed), commitSha := Some(git.head)), false);
        return Recover;
      }
      if !changed && Completed(status) == 0 {
        WriteStatus(Only(RecoveryBlocked), false);
        return Blocked;
      }
      if changed && (stopped || !HasManifest(status)) {
        WriteStatus(Only(ConfirmationRequired).(pid := stopped), false);
        return Down;
      }
      WriteStatus(Only(RecoverableChanges), false);
      at := Recover;
    }

    // Below, `budget` effects happen before a crash; `n` is how many did, and `at` where control stands.

    /** The durable record before staging. */
    method RecordStaging(goal: Goal, scope: Option<Captured>, choice: Choice) returns (at: Pc)
      requires GitOk(git)
      modifies `status
      ensures Config(Disk(), at) == Run(Config(old(Disk()), Stage(goal, scope)), choice)
      ensures at == Add(goal, scope) || at == Fail(goal.recovering)
    {
      hide Dirty, Write;
      if !choice.ok { return Fail(goal.recovering); }
      var preCommit, paths := git.head, Dirty(git);
      if paths == {} { return Fail(goal.recovering); }
      WriteStatus(Only(Committing).(
                    preCommit := Some(preCommit), subject := Some(SubjectOf(goal)), checkpoint := Some(Staging),
                    paths := Some(paths), content := Some(Restrict(git.work, paths)), base := Some(preCommit)), false);
      at := Add(goal, scope);
    }

    /** Stage everything between two durable records. */
    method StageWithCheckpoint(goal: Goal, scope: Option<Captured>, budget: nat, world: World, from: nat) returns (at: Pc, n: nat)
      requires GitOk(git)
      modifies this
      ensures n <= budget && Config(Disk(), at) == RunN(Config(old(Disk()), Stage(goal, scope)), world, from, n)
      ensures (at == MakeCommit(goal, scope) && n == 3) || at == Fail(goal.recovering) || (n == budget < 3 && InCommitPhase(at))
    {
      ghost var start := Config(Disk(), Stage(goal, scope));
      RunNNone(start, world, from);
      hide Run, RunN, GitOk;
      at, n := Stage(goal, scope), 0;
      if n == budget { return; }
      RunNStep(start, world, from, 0);
      n := 1;
      at := RecordStaging(goal, scope, world(from));
      if at.Fail? || n == budget { return; }
      RunNStep(start, world, from, 1);
      n := 2;
      at := AddEverything(goal, scope, world(from + 1));
      if at.Fail? || n == budget { return; }
      RunNStep(start, world, from, 2);
      n := 3;
      at := RecordStaged(goal, scope, world(from + 2));
    }

    method AddEverything(goal: Goal, scope: Option<Captured>, choice: Choice) returns (at: Pc)
      requires git.head < |git.commits|
      modifies `git
      ensures Config(Disk(), at) == Run(Config(old(Disk()), Add(goal, scope)), choice)
      ensures at == WriteTree(goal, scope) || at == Fail(goal.recovering)
    {
      if !choice.ok { return Fail(goal.recovering); }
      git := git.(index := git.work);
      at := WriteTree(goal, scope);
    }

    method RecordStaged(goal: Goal, scope: Option<Captured>, choice: Choice) returns (at: Pc)
      requires git.head < |git.commits|
      modifies `status
      ensures Config(Disk(), at) == Run(Config(old(Disk()), WriteTree(goal, scope)), choice)
      ensures at == MakeCommit(goal, scope) || at == Fail(goal.recovering)
    {
      hide Write;
      if !choice.ok { return Fail(goal.recovering); }
      WriteStatus(Only(Committing).(checkpoint := Some(Staged), pendingTree := Some(git.index)), false);
      at := MakeCommit(goal, scope);
    }

    /** Commit what is staged; an empty commit is refused. */
    method CommitStaged(goal: Goal, scope: Option<Captured>, choice: Choice) returns (at: Pc)
      requires git.head < |git.commits|
      modifies `git
      ensures Config(Disk(), at) == Run(Config(old(Disk()), MakeCommit(goal, scope)), choice)
      ensures at == Record(goal) || at == Fail(goal.recovering)
    {
      if !choice.ok || !SomethingStaged(git) { return Fail(goal.recovering); }
      git := CommitIndex(git, SubjectOf(goal));
      at := Record(goal);
    }

    method RecordCommitted(goal: Goal, choice: Choice) returns (at: Pc)
      requires git.head < |git.commits|
      modifies `status
      ensures Config(Disk(), at) == Run(Config(old(Disk()), Record(goal)), choice)
      ensures at == AfterCommit(goal) || at == Fail(goal.recovering)
    {
      hide Write;
      if !choice.ok { return Fail(goal.recovering); }
      WriteStatus(Only(CommittedState).(checkpoint := Some(Committed), commitSha := Some(git.head)), false);
      at := AfterCommit(goal);
    }

    /** Stage and commit, with a durable record before, between and after. */
    method CommitWithRecoveryCheckpoint(goal: Goal, scope: Option<Captured>, budget: nat, world: World, from: nat)
      returns (at: Pc, n: nat)
      requires GitOk(git)
      modifies this
      ensures n <= budget && Config(Disk(), at) == RunN(Config(old(Disk()), Stage(goal, scope)), world, from, n)
      ensures at == AfterCommit(goal) || at == Fail(goal.recovering) || (n == budget < 5 && InCommitPhase(at))
    {
      ghost var start := Config(Disk(), Stage(goal, scope));
      hide Run, RunN;
      at, n := StageWithCheckpoint(goal, scope, budget, world, from);
      if at != MakeCommit(goal, scope) || n == budget { return; }
      StillGit(start, world, from, n);
      RunNStep(start, world, from, n);
      at := CommitStaged(goal, scope, world(from + n));
      n := n + 1;
      if at.Fail? || n == budget { return; }
      StillGit(start, world, from, n);
      RunNStep(start, world, from, n);
      at := RecordCommitted(goal, world(from + n));
      n := n + 1;
    }

    lemma OverclaimFails(choice: Choice)
      requires GitOk(git)
      ensures Overclaims(Disk()) ==> Run(Config(Disk(), Recover), choice).pc == Fail(true)
    {
      if Overclaims(Disk()) { OverclaimIsRefused(Disk(), choice); }
    }

    /** A recovery proves its scope or its checkpoint before it runs anything. */
    method ProveScope(choice: Choice) returns (at: Pc)
      requires GitOk(git)
      ensures Config(Disk(), at) == Run(Config(Disk(), Recover), choice)
      ensures at == Fail(true) || (at.Verify? && at.goal == Goal(true, 0))
      ensures Overclaims(Disk()) ==> at == Fail(true)
    {
      OverclaimFails(choice);
      hide Dirty, ValidCommitted, ValidScope, Overclaims;
      if !choice.ok { return Fail(true); }
      var completed := Completed(status);
      var proven := if completed == 0 then ValidScope(status, git) else Dirty(git) == {} && ValidCommitted(Disk(), completed);
      at := if proven then Verify(Goal(true, 0), completed) else Fail(true);
    }

    /** The second proof of the scope, and what comes next. */
    method AfterGates(goal: Goal, completed: nat, choice: Choice) returns (at: Pc)
      requires GitOk(git) && goal.round == 0 && (completed > 0 ==> goal.recovering)
      ensures Config(Disk(), at) == Run(Config(Disk(), InVerification(goal, completed)), choice)
      ensures at == Fail(goal.recovering) || GatesPassed(at, goal)
    {
      hide Dirty, ValidScope, CapturedScope;
      if !choice.ok { return Fail(goal.recovering); }
      if completed == 0 {
        if !goal.recovering { return Stage(goal, None); }
        if !ValidScope(status, git) { return Fail(true); }
        return Stage(goal, Some(CapturedScope(status, git)));
      }
      if Dirty(git) != {} { return Fail(goal.recovering); }
      at := if completed < 2 then Announce(goal) else OpenPr(goal, completed);
    }

    /** The record that the gates run. */
    method RecordVerifying(goal: Goal, completed: nat, choice: Choice) returns (at: Pc)
      requires GitOk(git)
      modifies `status
      ensures Config(Disk(), at) == Run(Config(old(Disk()), Verify(goal, completed)), choice)
      ensures at == InVerification(goal, completed) || at == Fail(goal.recovering)
    {
      hide Write;
      if !choice.ok { return Fail(goal.recovering); }
      WriteStatus(Only(Verifying), false);
      at := InVerification(goal, completed);
    }

    /** The gates run behind a durable record. */
    method RunVerification(goal: Goal, completed: nat, budget: nat, world: World, from: nat) returns (at: Pc, n: nat)
      requires GitOk(git) && goal.round == 0 && (completed > 0 ==> goal.recovering)
      modifies `status
      ensures n <= budget && Config(Disk(), at) == RunN(Config(old(Disk()), Verify(goal, completed)), world, from, n)
      ensures GatesPassed(at, goal) || at == Fail(goal.recovering) || (n == budget && InValidation(at))
    {
      ghost var start := Config(Disk(), Verify(goal, completed));
      RunNNone(start, world, from);
      hide Run, RunN, GitOk, GatesPassed;
      at, n := Verify(goal, completed), 0;
      if n == budget { return; }
      RunNStep(start, world, from, 0);
      n := 1;
      at := RecordVerifying(goal, completed, world(from));
      if at.Fail? || n == budget { return; }
      RunNStep(start, world, from, 1);
      n := 2;
      at := AfterGates(goal, completed, world(from + 1));
    }

    /** Verification; a recovery proves its scope before and after. */
    method VerifyScope(recovering: bool, budget: nat, world: World, from: nat) returns (at: Pc, n: nat)
      requires GitOk(git)
      modifies `status
      ensures n <= budget && Config(Disk(), at) == RunN(Beginning(old(Disk()), recovering), world, from, n)
      ensures GatesPassed(at, Goal(recovering, 0)) || at == Fail(recovering) || (n == budget && InValidation(at))
      ensures recovering && Overclaims(old(Disk())) ==> status == old(status) && (at == Fail(true) || (n == 0 && at == Recover))
    {
      ghost var start := Beginning(Disk(), recovering);
      hide RunN, Run, GitOk, GatesPassed, Overclaims;
      if recovering {
        RunNNone(start, world, from);
        at, n := Recover, 0;
        if n == budget { return; }
        RunNStep(start, world, from, 0);
        n := 1;
        at := ProveScope(world(from));
        if at.Verify? {
          var m;
          at, m := RunVerification(at.goal, at.completed, budget - 1, world, from + 1);
          RunNAppend(start, world, from, 1, m);
          n := m + 1;
        }
      } else {
        at, n := RunVerification(Goal(false, 0), 0, budget, world, from);
      }
    }

    method AnnouncePush(goal: Goal, choice: Choice) returns (at: Pc)
      requires GitOk(git)
      modifies `status
      ensures Config(Disk(), at) == Run(Config(old(Disk()), Announce(goal)), choice)
      ensures at == Push(goal) || at == Fail(goal.recovering)
    {
      hide Write;
      if !choice.ok { return Fail(goal.recovering); }
      WriteStatus(Only(PushingState), false);
      at := Push(goal);
    }

    method RecordPushed(goal: Goal, choice: Choice) returns (at: Pc)
      requires GitOk(git) && goal.round == 0
      modifies `status
      ensures Config(Disk(), at) == Run(Config(old(Disk()), RecordPush(goal)), choice)
      ensures at == OpenPr(goal, 2) || at == Fail(goal.recovering)
    {
      hide Write;
      if !choice.ok { return Fail(goal.recovering); }
      WriteStatus(Only(PushedState).(checkpoint := Some(Pushed), commitSha := status.commitSha), false);
      at := OpenPr(goal, 2);
    }

    method PushBranch(goal: Goal, choice: Choice) returns (at: Pc)
      requires GitOk(git)
      modifies `remote
      ensures Config(Disk(), at) == Run(Config(old(Disk()), Push(goal)), choice)
      ensures at == RecordPush(goal) || at == Fail(goal.recovering)
    {
      if !choice.ok { return Fail(goal.recovering); }
      remote := Some(git.head);
      at := RecordPush(goal);
    }

    /** Push the branch between two durable records. */
    method PublishBranch(goal: Goal, budget: nat, world: World, from: nat) returns (at: Pc, n: nat)
      requires GitOk(git) && goal.round == 0
      modifies this
      ensures git == old(git) && n <= budget
      ensures Config(Disk(), at) == RunN(Config(old(Disk()), Announce(goal)), world, from, n)
      ensures at == OpenPr(goal, 2) || at == Fail(goal.recovering) || n == budget
    {
      ghost var start := Config(Disk(), Announce(goal));
      RunNNone(start, world, from);
      hide Run, RunN, GitOk;
      at, n := Announce(goal), 0;
      if n == budget { return; }
      RunNStep(start, world, from, 0);
      n := 1;
      at := AnnouncePush(goal, world(from));
      if at.Fail? || n == budget { return; }
      RunNStep(start, world, from, 1);
      n := 2;
      at := PushBranch(goal, world(from + 1));
      if at.Fail? || n == budget { return; }
      RunNStep(start, world, from, 2);
      n := 3;
      at := RecordPushed(goal, world(from + 2));
    }

    /** A recovery adopts the one open draft; otherwise a draft is opened. */
    method FindOrCreatePr(goal: Goal, completed: nat, choice: Choice) returns (at: Pc)
      requires GitOk(git)
      modifies `prs
      ensures Config(Disk(), at) == Run(Config(old(Disk()), OpenPr(goal, completed)), choice)
      ensures (at.RecordPr? && at.goal == goal) || at == Fail(goal.recovering)
    {
      if !choice.ok || (goal.recovering && |prs| > 1) { return Fail(goal.recovering); }
      var found := if goal.recovering && prs != [] then Some(prs[0]) else None;
      if completed >= 3 && (status.prUrl.None? || found != status.prUrl) { return Fail(goal.recovering); }
      var url := if found.Some? then found.value else choice.url;
      if found.None? { prs := prs + [url]; }
      at := RecordPr(goal, url);
    }

    method RecordPullRequest(goal: Goal, url: Url, choice: Choice) returns (at: Pc)
      requires GitOk(git)
      modifies `status
      ensures Config(Disk(), at) == Run(Config(old(Disk()), RecordPr(goal, url)), choice)
      ensures at == Launch(goal.(round := 1)) || at == Fail(goal.recovering)
    {
      hide Write;
      if !choice.ok { return Fail(goal.recovering); }
      WriteStatus(Only(PrCreatedState).(prUrl := Some(url), checkpoint := Some(PrCreated), commitSha := status.commitSha), false);
      at := Launch(goal.(round := 1));
    }

    /** The draft pull request, and its durable record. */
    method OpenPullRequest(goal: Goal, completed: nat, budget: nat, world: World, from: nat) returns (at: Pc, n: nat)
      requires GitOk(git)
      modifies this
      ensures n <= budget
      ensures Config(Disk(), at) == RunN(Config(old(Disk()), OpenPr(goal, completed)), world, from, n)
      ensures at == Launch(goal.(round := 1)) || at == Fail(goal.recovering) || n == budget
    {
      ghost var start := Config(Disk(), OpenPr(goal, completed));
      RunNNone(start, world, from);
      hide Run, RunN, GitOk;
      at, n := OpenPr(goal, completed), 0;
      if n == budget { return; }
      RunNStep(start, world, from, 0);
      n := 1;
      at := FindOrCreatePr(goal, completed, world(from));
      if at.Fail? || n == budget { return; }
      RunNStep(start, world, from, 1);
      n := 2;
      at := RecordPullRequest(goal, at.url, world(from + 1));
    }

    /** Push and open the pull request, or open it only. */
    method Publish(first: Pc, goal: Goal, budget: nat, world: World, from: nat) returns (at: Pc, n: nat)
      requires GitOk(git) && goal.round == 0 && GatesPassed(first, goal) && !first.Stage?
      modifies this
      ensures n <= budget && Config(Disk(), at) == RunN(Config(old(Disk()), first), world, from, n)
      ensures at == Launch(goal.(round := 1)) || at == Fail(goal.recovering) || n == budget
    {
      hide RunN, Run, GitOk;
      if first.OpenPr? {
        at, n := OpenPullRequest(goal, first.completed, budget, world, from);
      } else {
        ghost var start := Config(Disk(), Announce(goal));
        at, n := PublishBranch(goal, budget, world, from);
        if at != OpenPr(goal, 2) || n == budget { return; }
        var m;
        StillGit(start, world, from, n);
        at, m := OpenPullRequest(goal, 2, budget - n, world, from + n);
        RunNAppend(start, world, from, n, m);
        n := n + m;
      }
    }

    /** Verify, commit, push and open the pull request, or as much of it as the recorded checkpoint leaves. */
    method FinalizeChanges(recovering: bool, budget: nat, world: World, from: nat) returns (at: Pc, n: nat)
      requires GitOk(git)
      modifies this
      ensures n <= budget && Config(Disk(), at) == RunN(Beginning(old(Disk()), recovering), world, from, n)
      ensures at == Launch(Goal(recovering, 1)) || at == Fail(recovering) || n == budget
      ensures Inv(Beginning(old(Disk()), recovering)) ==> Inv(Config(Disk(), at))
      ensures recovering && Overclaims(old(Disk())) ==> Disk() == old(Disk()) && (at == Fail(true) || (n == 0 && at == Recover))
    {
      ghost var start := Beginning(Disk(), recovering);
      hide RunN, Run, GitOk, Inv, Overclaims;
      at, n := VerifyScope(recovering, budget, world, from);
      var m;
      if at.Stage? {
        StillGit(start, world, from, n);
        at, m := CommitWithRecoveryCheckpoint(at.goal, at.scope, budget - n, world, from + n);
        RunNAppend(start, world, from, n, m);
        n := n + m;
      }
      if at.Announce? || at.OpenPr? {
        StillGit(start, world, from, n);
        at, m := Publish(at, Goal(recovering, 0), budget - n, world, from + n);
        RunNAppend(start, world, from, n, m);
        n := n + m;
      }
      if Inv(start) { RunNKeepsInv(start, world, from, n); }
    }

    /** Finalise preserved work; a failure keeps it recoverable. */
    method RecoverChanges(budget: nat, world: World, from: nat) returns (at: Pc, n: nat)
      requires GitOk(git)
      modifies this
      ensures n <= budget && Config(Disk(), at) == RunN(Config(old(Disk()), Recover), world, from, n)
      ensures at == Launch(Goal(true, 1)) || n == budget || (at == Down && status.state == RecoverableChanges)
      ensures Overclaims(old(Disk())) ==> git == old(git) && remote == old(remote) && prs == old(prs)
    {
      ghost var start := Config(Disk(), Recover);
      hide RunN, GitOk, Write, Inv;
      at, n := FinalizeChanges(true, budget, world, from);
      if at == Fail(true) && n < budget {
        StillGit(start, world, from, n);
        RunNStep(start, world, from, n);
        n := n + 1;
        WriteStatus(Only(RecoverableChanges), false);
        at := Down;
      }
    }
  }
}
