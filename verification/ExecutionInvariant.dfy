/** What every interleaving of execution sessions keeps: the audit events replay to the rows. */
module ExecutionInvariant {
  import opened Wrappers
  import opened Execution

  // ---------- Replaying the audit events ----------

  /** The statuses of a job's runs, attempt 1 first, according to the events. */
  function History(audit: seq<Event>, j: Id): seq<Status> {
    if audit == [] then []
    else
      var n := |audit| - 1;
      var h := History(audit[..n], j);
      match audit[n]
      case Created(_, k) => if k == j then h + [Queued] else h
      case Transitioned(_, k, _, target, _) => if k == j && h != [] then h[|h| - 1 := target] else h
      case RetryReserved(_, k, _, _, _, _) => if k == j then h + [Queued] else h
  }

  /** The event is one that the lifecycle allows after the history of its job. */
  predicate LegalEvent(h: seq<Status>, e: Event) {
    match e
    case Created(_, _) => h == []
    case Transitioned(_, _, prior, target, _) => h != [] && h[|h| - 1] == prior && target in Allowed(prior)
    case RetryReserved(_, _, _, _, prior, next) => h != [] && h[|h| - 1] == Failed && prior == |h| && next == |h| + 1
  }

  predicate Legal(audit: seq<Event>) {
    audit == [] || (var n := |audit| - 1; Legal(audit[..n]) && LegalEvent(History(audit[..n], audit[n].job), audit[n]))
  }

  lemma HistorySnoc(audit: seq<Event>, e: Event, j: Id)
    ensures Legal(audit + [e]) <==> Legal(audit) && LegalEvent(History(audit, e.job), e)
    ensures e.job != j ==> History(audit + [e], j) == History(audit, j)
    ensures e.job == j && LegalEvent(History(audit, j), e) ==>
              var h := History(audit, j);
              History(audit + [e], j) == if e.Transitioned? then h[|h| - 1 := e.target] else h + [Queued]
  {
    assert (audit + [e])[..|audit|] == audit;
  }

  /** Only the last attempt can be anything but failed. */
  lemma {:induction false} EarlierFailed(audit: seq<Event>, j: Id, i: nat)
    requires Legal(audit) && i + 1 < |History(audit, j)|
    ensures History(audit, j)[i] == Failed
  {
    var n := |audit| - 1;
    var h := History(audit[..n], j);
    if i + 1 < |h| {
      EarlierFailed(audit[..n], j, i);
    }
  }

  // ---------- The invariant of the committed rows ----------

  ghost predicate IsRunAt(s: Store, j: Id, n: int, r: Id) {
    r in s.runs && s.runs[r].job == j && s.runs[r].attempt == n
  }

  ghost predicate HasRunAt(s: Store, j: Id, n: int) { exists r :: IsRunAt(s, j, n, r) }

  ghost predicate JobConsistent(s: Store, j: Id)
    requires j in s.jobs
  {
    var h := History(s.audit, j);
    && h != [] && s.jobs[j].status == h[|h| - 1]
    && forall n :: 1 <= n <= |h| ==> HasRunAt(s, j, n)
  }

  ghost predicate RunConsistent(s: Store, r: Id)
    requires r in s.runs
  {
    var run := s.runs[r];
    var h := History(s.audit, run.job);
    && OwnsJob(s, run.tenant, run.job) && RunChecks(run)
    && run.attempt <= |h| && run.status == h[run.attempt - 1]
  }

  ghost predicate JobsConsistent(s: Store) {
    && (forall j :: j !in s.jobs ==> History(s.audit, j) == [])
    && (forall j :: j in s.jobs ==> JobConsistent(s, j))
  }

  ghost predicate RunsConsistent(s: Store) { forall r :: r in s.runs ==> RunConsistent(s, r) }

  ghost predicate RunsAreSiblings(s: Store) {
    forall r, q :: r in s.runs && q in s.runs && s.runs[r].job == s.runs[q].job ==> Siblings(s.runs[r], s.runs[q], r, q)
  }

  ghost predicate KeysUnique(s: Store) {
    forall j, k :: j in s.jobs && k in s.jobs && s.jobs[j].tenant == s.jobs[k].tenant && s.jobs[j].key == s.jobs[k].key ==> j == k
  }

  /** The runs that event `i` names are the rows of the attempts it is about: a transition names the run that
      was the latest then, a retry the run before it and the run it adds. */
  ghost predicate NamesRuns(s: Store, i: nat)
    requires i < |s.audit|
  {
    match s.audit[i]
    case Created(_, _) => true
    case Transitioned(_, j, _, _, run) => IsRunAt(s, j, |History(s.audit[..i], j)|, run)
    case RetryReserved(_, j, priorRun, newRun, priorAttempt, newAttempt) =>
      IsRunAt(s, j, priorAttempt, priorRun) && IsRunAt(s, j, newAttempt, newRun)
  }

  ghost predicate EventsNameRuns(s: Store) { forall i :: 0 <= i < |s.audit| ==> NamesRuns(s, i) }

  ghost predicate StoreInv(s: Store) {
    && Legal(s.audit) && JobsConsistent(s) && RunsConsistent(s) && RunsAreSiblings(s) && KeysUnique(s)
    && EventsNameRuns(s)
  }

  /** Runs of one job share their limits and differ in their attempts. */
  predicate Siblings(a: Run, b: Run, r: Id, q: Id) {
    a.maxAttempts == b.maxAttempts && a.delay == b.delay && (a.attempt == b.attempt ==> r == q)
  }

  // ---------- How commits change the rows ----------

  predicate SameJob(a: Job, b: Job) { a.(status := b.status) == b }

  predicate SameRun(a: Run, b: Run) { a.(status := b.status) == b }

  /** Rows are never removed or rewritten, and only job `j` and its runs change. */
  ghost predicate Evolves(s: Store, s': Store, j: Id) {
    && s'.workspaces == s.workspaces
    && (forall k :: k in s.jobs ==> k in s'.jobs && SameJob(s.jobs[k], s'.jobs[k]) && (k != j ==> s'.jobs[k] == s.jobs[k]))
    && (forall r :: r in s.runs ==> r in s'.runs && SameRun(s.runs[r], s'.runs[r]) && (s.runs[r].job != j ==> s'.runs[r] == s.runs[r]))
    && (forall r :: r in s'.runs && r !in s.runs ==> s'.runs[r].job == j)
    && (forall k :: k in s'.jobs && k !in s.jobs ==> k == j)
  }

  // ---------- The invariant of the sessions ----------

  function Expected(q: Request): Status
    requires !q.Create?
  {
    if q.Transition? then q.expected else Failed
  }

  function Target(q: Request): Status
    requires !q.Create?
  {
    if q.Transition? then q.target else Queued
  }

  /** What a session knows of the run it has read: everything but its present status. */
  ghost predicate RunRead(s: Store, q: Request, r: Id, row: Run)
    requires !q.Create?
  {
    && OwnsJob(s, q.tenant, q.job) && OwnsRun(s, q.tenant, q.job, r)
    && SameRun(s.runs[r], row) && row.status == Expected(q)
    && (q.Retry? ==> row.attempt == q.attempt && row.attempt < row.maxAttempts)
    && (q.Transition? ==> q.target in Allowed(q.expected))
  }

  ghost predicate SessionInv(s: Store, me: Session) {
    var q := me.request;
    match me.pc
    case ReadJob(_) => me.writes == [] && !q.Create? && OwnsJob(s, q.tenant, q.job) && (q.Transition? ==> q.target in Allowed(q.expected))
    case ReadRun(r, row) => me.writes == [] && !q.Create? && RunRead(s, q, r, row)
    case JobSet(r, row) =>
      && !q.Create? && RunRead(s, q, r, row)
      && me.writes == [SetJob(q.job, Target(q))] && s.jobs[q.job].status == Expected(q)
    case RunSet(r) =>
      && q.Transition? && q.target in Allowed(q.expected) && OwnsRun(s, q.tenant, q.job, r) && OwnsJob(s, q.tenant, q.job)
      && me.writes == [SetJob(q.job, q.target), SetRun(r, q.target)]
      && s.jobs[q.job].status == q.expected && s.runs[r].status == q.expected
    case Inserted(r, row, newRun) =>
      && q.Retry? && RunRead(s, q, r, row)
      && me.writes == [SetJob(q.job, Queued), PutRun(newRun, NextRun(q.tenant, q.job, row))]
      && s.jobs[q.job].status == Failed && !HasRunAt(s, q.job, row.attempt + 1)
    case Ready => me.writes == [] && q.Create? && (q.tenant, q.workspace) in s.workspaces
    case Found(j, job) => me.writes == [] && q.Create? && IsKeyed(s, q.tenant, q.key, j) && SameJob(s.jobs[j], job)
    case _ => me.writes == []
  }

  ghost predicate WorldInv(w: World) {
    && StoreInv(w.store)
    && (forall o :: o in w.sessions ==> SessionInv(w.store, w.sessions[o]))
    && (forall o, p, j :: o in w.sessions && p in w.sessions && HoldsJob(w.sessions[o], j) && HoldsJob(w.sessions[p], j) ==> o == p)
  }

  predicate Initial(w: World) { w.store.jobs == map[] && w.store.runs == map[] && w.store.audit == [] && w.sessions == map[] }

  // ---------- Sessions are not disturbed by the commits of others ----------

  lemma SessionStable(s: Store, s': Store, j: Id, o: Session)
    requires StoreInv(s) && SessionInv(s, o) && Evolves(s, s', j)
    requires !HoldsJob(o, j)
    ensures SessionInv(s', o)
  {
    var k := RequestJob(o.request);
    if o.writes != [] {
      assert o.writes[0].SetJob? && o.writes[0].id == k;
      assert k != j;
      assert forall n, r :: IsRunAt(s', k, n, r) ==> IsRunAt(s, k, n, r);
    }
  }

  // ---------- Commits keep the rows consistent ----------

  /** A commit that changes job `j` alone and logs a legal event about it. */
  ghost predicate OneJobChange(s: Store, s': Store, j: Id, e: Event) {
    && Evolves(s, s', j) && e.job == j && j in s'.jobs
    && s'.audit == s.audit + [e] && LegalEvent(History(s.audit, j), e)
  }

  lemma OthersConsistent(s: Store, s': Store, j: Id, e: Event)
    requires StoreInv(s) && OneJobChange(s, s', j, e) && JobConsistent(s', j)
    requires forall r :: r in s'.runs && s'.runs[r].job == j ==> RunConsistent(s', r)
    ensures JobsConsistent(s') && RunsConsistent(s')
  {
    hide History, Legal, RunChecks, LegalEvent;
    forall k | k != j
      ensures History(s'.audit, k) == History(s.audit, k)
    {
      HistorySnoc(s.audit, e, k);
    }
    forall k | k in s'.jobs
      ensures JobConsistent(s', k)
    {
      if k != j {
        assert JobConsistent(s, k);
        RunsKept(s, s', k);
      }
    }
    forall r | r in s'.runs
      ensures RunConsistent(s', r)
    {
      if s'.runs[r].job != j {
        assert RunConsistent(s, r);
      }
    }
  }

  lemma KeysKept(s: Store, s': Store, j: Id)
    requires KeysUnique(s) && Evolves(s, s', j) && j in s'.jobs
    requires j !in s.jobs ==> !HasKey(s, s'.jobs[j].tenant, s'.jobs[j].key)
    ensures KeysUnique(s')
  {
    assert forall k :: k in s.jobs ==> IsKeyed(s, s'.jobs[k].tenant, s'.jobs[k].key, k);
  }

  /** Events keep naming the rows that they named, and the new event names its own. */
  lemma NamesKept(s: Store, s': Store, j: Id, e: Event)
    requires EventsNameRuns(s) && OneJobChange(s, s', j, e) && NamesRuns(s', |s.audit|)
    ensures EventsNameRuns(s')
  {
    hide History, LegalEvent;
    forall i | 0 <= i < |s'.audit|
      ensures NamesRuns(s', i)
    {
      if i < |s.audit| {
        assert NamesRuns(s, i);
        assert s'.audit[i] == s.audit[i] && s'.audit[..i] == s.audit[..i];
      }
    }
  }

  /** Such a commit keeps the invariant if it keeps it for job `j`. */
  lemma OneJobCommit(s: Store, s': Store, j: Id, e: Event)
    requires StoreInv(s) && OneJobChange(s, s', j, e) && JobConsistent(s', j)
    requires forall r :: r in s'.runs && s'.runs[r].job == j ==> RunConsistent(s', r)
    requires forall r, q :: r in s'.runs && q in s'.runs && s'.runs[r].job == j && s'.runs[q].job == j ==>
               Siblings(s'.runs[r], s'.runs[q], r, q)
    requires j !in s.jobs ==> !HasKey(s, s'.jobs[j].tenant, s'.jobs[j].key)
    requires NamesRuns(s', |s.audit|)
    ensures StoreInv(s')
  {
    hide JobsConsistent, RunsConsistent, KeysUnique, JobConsistent, EventsNameRuns, NamesRuns;
    OthersConsistent(s, s', j, e);
    KeysKept(s, s', j);
    NamesKept(s, s', j, e);
    HistorySnoc(s.audit, e, j);
  }

  /** Attempts that are not touched stay where they are. */
  lemma RunsKept(s: Store, s': Store, k: Id)
    requires forall r :: r in s.runs ==> r in s'.runs && SameRun(s.runs[r], s'.runs[r])
    ensures forall n :: HasRunAt(s, k, n) ==> HasRunAt(s', k, n)
  {
    forall n | HasRunAt(s, k, n)
      ensures HasRunAt(s', k, n)
    {
      var r :| IsRunAt(s, k, n, r);
      assert IsRunAt(s', k, n, r);
    }
  }

  // ---------- Creation ----------

  function AfterCreate(s: Store, j: Id, job: Job, r: Id, run: Run): Store {
    Store(s.workspaces, s.jobs[j := job], s.runs[r := run], s.audit + [Created(job.tenant, j)])
  }

  lemma CreateApplies(s: Store, j: Id, job: Job, r: Id, run: Run)
    requires run.tenant == job.tenant && run.job == j
    ensures var ok := Insertable(s, PutJob(j, job)) && r !in s.runs && RunChecks(run)
                      && forall q :: q in s.runs && OwnsRun(s, run.tenant, j, q) ==> s.runs[q].attempt != run.attempt;
            ApplyAll(s, [PutJob(j, job), PutRun(r, run), Log(Created(job.tenant, j))])
            == if ok then Some(AfterCreate(s, j, job, r, run)) else None
  {
    var e := Log(Created(job.tenant, j));
    var ws := [PutJob(j, job), PutRun(r, run), e];
    assert ws[1..] == [PutRun(r, run), e] && ws[1..][1..] == [e];
    var s1 := ApplyOne(s, ws[0]);
    var s2 := ApplyOne(s1, ws[1]);
    assert forall q :: OwnsRun(s1, run.tenant, j, q) <==> OwnsRun(s, run.tenant, j, q);
    assert ApplyAll(s2, [e]) == ApplyAll(ApplyOne(s2, e), []);
  }

  lemma NoRunsYet(s: Store, j: Id)
    requires StoreInv(s) && j !in s.jobs
    ensures forall q :: q in s.runs ==> s.runs[q].job != j
  {
    forall q | q in s.runs
      ensures s.runs[q].job != j
    {
      assert RunConsistent(s, q);
    }
  }

  lemma CreateChange(s: Store, j: Id, job: Job, r: Id, run: Run)
    requires StoreInv(s) && Insertable(s, PutJob(j, job)) && r !in s.runs && RunChecks(run)
    requires job.status == Queued && run == Run(job.tenant, j, Queued, 1, run.maxAttempts, run.delay)
    ensures var s' := AfterCreate(s, j, job, r, run);
            && OneJobChange(s, s', j, Created(job.tenant, j)) && JobConsistent(s', j) && RunConsistent(s', r)
            && NamesRuns(s', |s.audit|)
  {
    hide History, Legal, RunChecks, RunsConsistent, RunsAreSiblings, KeysUnique, EventsNameRuns;
    var s' := AfterCreate(s, j, job, r, run);
    HistorySnoc(s.audit, Created(job.tenant, j), j);
    NoRunsYet(s, j);
    assert IsRunAt(s', j, 1, r);
  }

  lemma CreateKeepsInv(s: Store, j: Id, job: Job, r: Id, run: Run)
    requires StoreInv(s) && Insertable(s, PutJob(j, job)) && r !in s.runs && RunChecks(run)
    requires job.status == Queued && run == Run(job.tenant, j, Queued, 1, run.maxAttempts, run.delay)
    ensures StoreInv(AfterCreate(s, j, job, r, run)) && Evolves(s, AfterCreate(s, j, job, r, run), j)
  {
    hide StoreInv, JobConsistent, RunConsistent, RunChecks, LegalEvent, NamesRuns;
    CreateChange(s, j, job, r, run);
    NoRunsYet(s, j);
    OneJobCommit(s, AfterCreate(s, j, job, r, run), j, Created(job.tenant, j));
  }

  // ---------- Transition ----------

  function AfterTransition(s: Store, t: Id, j: Id, r: Id, prior: Status, target: Status): Store
    requires j in s.jobs && r in s.runs
  {
    Store(s.workspaces, s.jobs[j := s.jobs[j].(status := target)], s.runs[r := s.runs[r].(status := target)],
          s.audit + [Transitioned(t, j, prior, target, r)])
  }

  lemma TransitionApplies(s: Store, t: Id, j: Id, r: Id, prior: Status, target: Status)
    requires j in s.jobs && r in s.runs
    ensures ApplyAll(s, [SetJob(j, target), SetRun(r, target), Log(Transitioned(t, j, prior, target, r))])
         == Some(AfterTransition(s, t, j, r, prior, target))
  {
    var e := Log(Transitioned(t, j, prior, target, r));
    var ws := [SetJob(j, target), SetRun(r, target), e];
    assert ws[1..] == [SetRun(r, target), e] && ws[1..][1..] == [e];
    var s2 := ApplyOne(ApplyOne(s, ws[0]), ws[1]);
    assert ApplyAll(s2, [e]) == ApplyAll(ApplyOne(s2, e), []);
  }

  /** The run whose status is not Failed is the latest one. */
  lemma LiveRunIsLast(s: Store, j: Id, r: Id)
    requires StoreInv(s) && r in s.runs && s.runs[r].job == j && s.runs[r].status != Failed
    ensures s.runs[r].attempt == |History(s.audit, j)|
  {
    assert RunConsistent(s, r);
    if s.runs[r].attempt < |History(s.audit, j)| {
      EarlierFailed(s.audit, j, s.runs[r].attempt - 1);
    }
  }

  lemma TransitionChange(s: Store, t: Id, j: Id, r: Id, prior: Status, target: Status)
    requires StoreInv(s) && j in s.jobs && r in s.runs && s.runs[r].job == j
    requires s.jobs[j].status == prior && s.runs[r].status == prior && target in Allowed(prior)
    ensures var s' := AfterTransition(s, t, j, r, prior, target);
            && OneJobChange(s, s', j, Transitioned(t, j, prior, target, r)) && JobConsistent(s', j)
            && NamesRuns(s', |s.audit|)
    ensures History(AfterTransition(s, t, j, r, prior, target).audit, j)
         == History(s.audit, j)[s.runs[r].attempt - 1 := target]
  {
    hide History, Legal, RunsConsistent, RunsAreSiblings, KeysUnique, HasRunAt, EventsNameRuns;
    var s' := AfterTransition(s, t, j, r, prior, target);
    LiveRunIsLast(s, j, r);
    assert JobConsistent(s, j);
    assert s'.audit[..|s.audit|] == s.audit;
    HistorySnoc(s.audit, Transitioned(t, j, prior, target, r), j);
    RunsKept(s, s', j);
  }

  lemma TransitionKeepsInv(s: Store, t: Id, j: Id, r: Id, prior: Status, target: Status)
    requires StoreInv(s) && j in s.jobs && r in s.runs && s.runs[r].job == j
    requires s.jobs[j].status == prior && s.runs[r].status == prior && target in Allowed(prior)
    ensures StoreInv(AfterTransition(s, t, j, r, prior, target)) && Evolves(s, AfterTransition(s, t, j, r, prior, target), j)
  {
    hide History, Legal, JobConsistent, JobsConsistent, KeysUnique, EventsNameRuns, NamesRuns;
    var s' := AfterTransition(s, t, j, r, prior, target);
    LiveRunIsLast(s, j, r);
    TransitionChange(s, t, j, r, prior, target);
    forall q | q in s.runs && s.runs[q].job == j
      ensures RunConsistent(s', q)
    {
      assert RunConsistent(s, q) && Siblings(s.runs[r], s.runs[q], r, q);
    }
    hide RunConsistent;
    OneJobCommit(s, s', j, Transitioned(t, j, prior, target, r));
  }

  // ---------- Retry ----------

  function AfterRetry(s: Store, t: Id, j: Id, r: Id, row: Run, newRun: Id): Store
    requires j in s.jobs
  {
    Store(s.workspaces, s.jobs[j := s.jobs[j].(status := Queued)], s.runs[newRun := NextRun(t, j, row)],
          s.audit + [RetryReserved(t, j, r, newRun, row.attempt, row.attempt + 1)])
  }

  lemma RetryApplies(s: Store, t: Id, j: Id, r: Id, row: Run, newRun: Id)
    requires OwnsJob(s, t, j) && RunChecks(row) && row.attempt < row.maxAttempts && !HasRunAt(s, j, row.attempt + 1)
    ensures ApplyAll(s, [SetJob(j, Queued), PutRun(newRun, NextRun(t, j, row)),
                         Log(RetryReserved(t, j, r, newRun, row.attempt, row.attempt + 1))])
         == if newRun in s.runs then None else Some(AfterRetry(s, t, j, r, row, newRun))
  {
    var e := Log(RetryReserved(t, j, r, newRun, row.attempt, row.attempt + 1));
    var put := PutRun(newRun, NextRun(t, j, row));
    var ws := [SetJob(j, Queued), put, e];
    assert ws[1..] == [put, e] && ws[1..][1..] == [e];
    var s1 := ApplyOne(s, ws[0]);
    forall q | q in s1.runs && OwnsRun(s1, t, j, q)
      ensures s1.runs[q].attempt != row.attempt + 1
    {
      assert s1.runs[q].attempt == row.attempt + 1 ==> IsRunAt(s, j, row.attempt + 1, q);
    }
    assert Insertable(s1, put) <==> newRun !in s.runs;
    var s2 := ApplyOne(s1, put);
    assert ApplyAll(s2, [e]) == ApplyAll(ApplyOne(s2, e), []);
  }

  lemma NoRunInGap(s: Store, j: Id, n: int)
    requires !HasRunAt(s, j, n)
    ensures forall q :: q in s.runs && s.runs[q].job == j ==> s.runs[q].attempt != n
  {
    forall q | q in s.runs && s.runs[q].job == j
      ensures s.runs[q].attempt != n
    {
      assert !IsRunAt(s, j, n, q);
    }
  }

  /** The run after which no attempt exists is the latest one. */
  lemma RunBeforeGapIsLast(s: Store, j: Id, r: Id)
    requires StoreInv(s) && r in s.runs && s.runs[r].job == j && !HasRunAt(s, j, s.runs[r].attempt + 1)
    ensures s.runs[r].attempt == |History(s.audit, j)|
  {
    assert RunConsistent(s, r) && JobConsistent(s, j);
  }

  lemma RetryChange(s: Store, t: Id, j: Id, r: Id, row: Run, newRun: Id)
    requires StoreInv(s) && OwnsJob(s, t, j) && OwnsRun(s, t, j, r) && SameRun(s.runs[r], row)
    requires s.jobs[j].status == Failed && !HasRunAt(s, j, row.attempt + 1) && row.attempt < row.maxAttempts
    requires newRun !in s.runs
    ensures var s' := AfterRetry(s, t, j, r, row, newRun);
            && OneJobChange(s, s', j, RetryReserved(t, j, r, newRun, row.attempt, row.attempt + 1))
            && JobConsistent(s', j) && RunConsistent(s', newRun) && NamesRuns(s', |s.audit|)
  {
    hide History, Legal, RunsAreSiblings, KeysUnique, EventsNameRuns;
    var s' := AfterRetry(s, t, j, r, row, newRun);
    RunBeforeGapIsLast(s, j, r);
    assert JobConsistent(s, j) && RunConsistent(s, r);
    HistorySnoc(s.audit, RetryReserved(t, j, r, newRun, row.attempt, row.attempt + 1), j);
    RunsKept(s, s', j);
    assert IsRunAt(s', j, row.attempt + 1, newRun);
  }

  /** The runs that were there before the retry. */
  lemma RetrySiblings(s: Store, t: Id, j: Id, r: Id, row: Run, newRun: Id, q: Id)
    requires StoreInv(s) && OwnsJob(s, t, j) && OwnsRun(s, t, j, r) && SameRun(s.runs[r], row)
    requires !HasRunAt(s, j, row.attempt + 1) && newRun !in s.runs
    requires OneJobChange(s, AfterRetry(s, t, j, r, row, newRun), j, RetryReserved(t, j, r, newRun, row.attempt, row.attempt + 1))
    requires q in s.runs && s.runs[q].job == j
    ensures var s' := AfterRetry(s, t, j, r, row, newRun);
            && RunConsistent(s', q)
            && Siblings(s'.runs[newRun], s.runs[q], newRun, q) && Siblings(s.runs[q], s'.runs[newRun], q, newRun)
  {
    hide History, Legal, KeysUnique, JobsConsistent, Evolves;
    assert RunConsistent(s, q) && Siblings(s.runs[r], s.runs[q], r, q);
    assert !IsRunAt(s, j, row.attempt + 1, q);
    HistorySnoc(s.audit, RetryReserved(t, j, r, newRun, row.attempt, row.attempt + 1), j);
  }

  lemma RetryKeepsInv(s: Store, t: Id, j: Id, r: Id, row: Run, newRun: Id)
    requires StoreInv(s) && OwnsJob(s, t, j) && OwnsRun(s, t, j, r) && SameRun(s.runs[r], row)
    requires s.jobs[j].status == Failed && !HasRunAt(s, j, row.attempt + 1) && row.attempt < row.maxAttempts
    requires newRun !in s.runs
    ensures StoreInv(AfterRetry(s, t, j, r, row, newRun)) && Evolves(s, AfterRetry(s, t, j, r, row, newRun), j)
  {
    hide History, Legal, JobsConsistent, RunsConsistent, KeysUnique, JobConsistent, RunConsistent, LegalEvent, EventsNameRuns, NamesRuns;
    RetryChange(s, t, j, r, row, newRun);
    forall q | q in s.runs && s.runs[q].job == j {
      RetrySiblings(s, t, j, r, row, newRun, q);
    }
    OneJobCommit(s, AfterRetry(s, t, j, r, row, newRun), j, RetryReserved(t, j, r, newRun, row.attempt, row.attempt + 1));
  }
}
