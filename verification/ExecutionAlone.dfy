/** What a call is granted when nobody else commits meanwhile, on every consistent database: stated on rows alone. */
module ExecutionAlone {
  import opened Wrappers
  import opened Execution
  import opened ExecutionInvariant
  import opened ExecutionSafety
  import opened ExecutionResults

  /** All calls see the same consistent rows. */
  ghost predicate Undisturbed(seen: seq<Store>) {
    |seen| == 5 && StoreInv(seen[0]) && forall i :: 0 <= i < |seen| ==> seen[i] == seen[0]
  }

  predicate Owned(s: Store, t: Id, j: Id) { j in s.jobs && s.jobs[j].tenant == t }

  /** The run of the job with the highest attempt. */
  predicate IsLast(s: Store, j: Id, r: Id) {
    r in s.runs && s.runs[r].job == j && forall q :: q in s.runs && s.runs[q].job == j ==> s.runs[q].attempt <= s.runs[r].attempt
  }

  lemma LastIsLatest(s: Store, t: Id, j: Id, r: Id)
    requires StoreInv(s) && OwnsJob(s, t, j)
    ensures IsLast(s, j, r) <==> IsLatest(s, t, j, r)
    ensures forall q :: IsLatest(s, t, j, r) && IsLast(s, j, q) ==> q == r
  {
    RunsOfTenant(s, t, j);
    if IsLatest(s, t, j, r) {
      forall q | IsLast(s, j, q)
        ensures q == r
      {
        assert Siblings(s.runs[q], s.runs[r], q, r);
      }
    }
  }

  // ---------- Transitions ----------

  /** The edges of the transition graph. */
  predicate Edge(a: Status, b: Status) {
    || (a == Queued && (b == Running || b == Cancelled))
    || (a == Running && (b == AwaitingApproval || b == Succeeded || b == Failed || b == Cancelled))
    || (a == AwaitingApproval && (b == Approved || b == Rejected || b == Cancelled))
    || (a == Approved && (b == Running || b == Cancelled))
  }

  /** The graph is the one that calls follow; it has no way out of the four final statuses. */
  lemma GraphMeans(a: Status, b: Status)
    ensures b in Allowed(a) <==> Edge(a, b)
    ensures a == Rejected || a == Succeeded || a == Failed || a == Cancelled <==> Terminal(a)
    ensures Terminal(a) ==> !Edge(a, b)
  {
  }

  /** A transition along an edge from the job's status moves the job and its last run, and logs it. */
  ghost predicate TransitionOutcome(s: Store, t: Id, j: Id, expected: Status, target: Status, s': Store, o: Outcome) {
    if !Edge(expected, target) then o == InvalidTransition && s' == s
    else if !Owned(s, t, j) then o == NotFound && s' == s
    else if s.jobs[j].status != expected then o == InvalidTransition && s' == s
    else exists r :: IsLast(s, j, r) && o == JobResult(j, r, false) && IsTransitioned(s, t, j, r, expected, target, s')
  }

  predicate IsTransitioned(s: Store, t: Id, j: Id, r: Id, prior: Status, target: Status, s': Store)
    requires Owned(s, t, j) && r in s.runs
  {
    && s'.workspaces == s.workspaces && s'.audit == s.audit + [Transitioned(t, j, prior, target, r)]
    && s'.jobs == s.jobs[j := s.jobs[j].(status := target)] && s'.runs == s.runs[r := s.runs[r].(status := target)]
  }

  lemma TransitionAlone(s: Store, t: Id, j: Id, r: Id, expected: Status, target: Status)
    requires StoreInv(s) && OwnsJob(s, t, j) && IsLatest(s, t, j, r)
    ensures r in s.runs && s.runs[r].status == s.jobs[j].status && s.runs[r].tenant == t
    ensures var s' := ApplyAll(s, [SetJob(j, target), SetRun(r, target), Log(Transitioned(t, j, expected, target, r))]);
            s'.Some? && IsTransitioned(s, t, j, r, expected, target, s'.value) && IsLast(s, j, r)
  {
    LatestRunDecides(s, t, j, r);
    LastIsLatest(s, t, j, r);
    TransitionApplies(s, t, j, r, expected, target);
    hide StoreInv, IsLatest, ApplyAll;
  }

  // ---------- Retries ----------

  /** The last run of the job has failed, it has the attempt named, and that is below its maximum. */
  predicate Retryable(s: Store, j: Id, attempt: int, r: Id) {
    IsLast(s, j, r) && s.runs[r].status == Failed && s.runs[r].attempt == attempt && attempt < s.runs[r].maxAttempts
  }

  /** A retryable attempt is retried: the job and a new run with the next attempt are queued, and that is logged. */
  ghost predicate RetryOutcome(s: Store, t: Id, j: Id, attempt: int, newId: Id, s': Store, o: Outcome) {
    if !Owned(s, t, j) then o == NotFound && s' == s
    else if forall r :: !Retryable(s, j, attempt, r) then o == InvalidTransition && s' == s
    else o == JobResult(j, newId, false) && exists r :: Retryable(s, j, attempt, r) && IsRetried(s, t, j, r, newId, s')
  }

  predicate IsRetried(s: Store, t: Id, j: Id, r: Id, newId: Id, s': Store)
    requires Owned(s, t, j) && r in s.runs
  {
    var row := s.runs[r];
    && s'.workspaces == s.workspaces && s'.jobs == s.jobs[j := s.jobs[j].(status := Queued)]
    && s'.runs == s.runs[newId := Run(t, j, Queued, row.attempt + 1, row.maxAttempts, row.delay)]
    && s'.audit == s.audit + [RetryReserved(t, j, r, newId, row.attempt, row.attempt + 1)]
  }

  lemma RetryAlone(s: Store, t: Id, j: Id, attempt: int, r: Id, newId: Id)
    requires StoreInv(s) && OwnsJob(s, t, j) && IsLatest(s, t, j, r) && newId !in s.runs
    ensures s.runs[r].status == s.jobs[j].status
    ensures (exists q :: Retryable(s, j, attempt, q)) <==> Retryable(s, j, attempt, r)
    ensures Retryable(s, j, attempt, r) ==>
              var row := s.runs[r];
              var put := PutRun(newId, NextRun(t, j, row));
              var s' := ApplyAll(s, [SetJob(j, Queued), put, Log(RetryReserved(t, j, r, newId, row.attempt, row.attempt + 1))]);
              Insertable(s, put) && s'.Some? && IsRetried(s, t, j, r, newId, s'.value)
  {
    LatestRunDecides(s, t, j, r);
    LastIsLatest(s, t, j, r);
    assert RunConsistent(s, r);
    if Retryable(s, j, attempt, r) {
      var row := s.runs[r];
      assert !HasRunAt(s, j, row.attempt + 1);
      NoRunInGap(s, j, row.attempt + 1);
      RetryApplies(s, t, j, r, row, newId);
      hide StoreInv, IsLatest, ApplyAll, RunConsistent;
    }
  }

  // ---------- Creations ----------

  /** The request has the workspace and kind of the job, and the limits of its last run. */
  predicate SameRequest(s: Store, q: Request, j: Id, r: Id)
    requires q.Create?
  {
    && j in s.jobs && s.jobs[j].workspace == q.workspace && s.jobs[j].kind == q.kind
    && IsLast(s, j, r) && s.runs[r].maxAttempts == q.maxAttempts && s.runs[r].delay == q.delay
  }

  /** A used key answers with its job if the request is the same one, and conflicts otherwise. A new key creates the job
      and its first run in a known workspace, within the limits. */
  ghost predicate CreateOutcome(s: Store, q: Request, jobId: Id, runId: Id, s': Store, o: Outcome)
    requires q.Create?
  {
    if j :| j in s.jobs && s.jobs[j].tenant == q.tenant && s.jobs[j].key == q.key then
      s' == s && if r :| SameRequest(s, q, j, r) then o == JobResult(j, r, false) else o == Conflict
    else if (q.tenant, q.workspace) !in s.workspaces then o == NotFound && s' == s
    else if !(1 <= q.maxAttempts <= 10 && 0 <= q.delay <= 86400) then o == Conflict && s' == s
    else
      && o == JobResult(jobId, runId, true) && s'.workspaces == s.workspaces
      && s'.jobs == s.jobs[jobId := Job(q.tenant, q.workspace, q.kind, q.key, Queued)]
      && s'.runs == s.runs[runId := Run(q.tenant, jobId, Queued, 1, q.maxAttempts, q.delay)]
      && s'.audit == s.audit + [Created(q.tenant, jobId)]
  }

  lemma KeyedAlone(s: Store, q: Request, j: Id, r: Id, jobId: Id, runId: Id)
    requires StoreInv(s) && q.Create? && IsKeyed(s, q.tenant, q.key, j) && IsLatest(s, q.tenant, j, r)
    ensures
      var job, row := s.jobs[j], s.runs[r];
      var same := job.workspace == q.workspace && job.kind == q.kind && row.maxAttempts == q.maxAttempts && row.delay == q.delay;
      CreateOutcome(s, q, jobId, runId, s, if same then JobResult(j, r, false) else Conflict)
  {
    assert forall k :: k in s.jobs && s.jobs[k].tenant == q.tenant && s.jobs[k].key == q.key ==> k == j;
    LastIsLatest(s, q.tenant, j, r);
    forall p | SameRequest(s, q, j, p)
      ensures p == r
    {
      LastIsLatest(s, q.tenant, j, p);
    }
    var job, row := s.jobs[j], s.runs[r];
    assert IsLast(s, j, r);
    hide StoreInv, IsLatest, IsLast;
    assert SameRequest(s, q, j, r)
      <==> job.workspace == q.workspace && job.kind == q.kind && row.maxAttempts == q.maxAttempts && row.delay == q.delay;
    assert j in s.jobs && s.jobs[j].tenant == q.tenant && s.jobs[j].key == q.key;
  }

  lemma CreateAlone(s: Store, q: Request, jobId: Id, runId: Id)
    requires StoreInv(s) && q.Create? && !HasKey(s, q.tenant, q.key)
    requires jobId !in s.jobs && runId !in s.runs && (q.tenant, q.workspace) in s.workspaces
    ensures
      var s' := ApplyAll(s, [PutJob(jobId, Job(q.tenant, q.workspace, q.kind, q.key, Queued)),
                             PutRun(runId, Run(q.tenant, jobId, Queued, 1, q.maxAttempts, q.delay)),
                             Log(Created(q.tenant, jobId))]);
      if s'.Some? then CreateOutcome(s, q, jobId, runId, s'.value, JobResult(jobId, runId, true))
      else CreateOutcome(s, q, jobId, runId, s, Conflict)
  {
    var job, run := Job(q.tenant, q.workspace, q.kind, q.key, Queued), Run(q.tenant, jobId, Queued, 1, q.maxAttempts, q.delay);
    CreateApplies(s, jobId, job, runId, run);
    NoRunsYet(s, jobId);
    assert forall j :: j in s.jobs && s.jobs[j].tenant == q.tenant && s.jobs[j].key == q.key ==> IsKeyed(s, q.tenant, q.key, j);
    hide StoreInv, ApplyAll;
  }

  /** What a creation meets when its key is new. */
  lemma NewKeyAlone(s: Store, q: Request, jobId: Id, runId: Id)
    requires StoreInv(s) && q.Create? && jobId !in s.jobs && runId !in s.runs
    ensures !HasKey(s, q.tenant, q.key) && (q.tenant, q.workspace) !in s.workspaces ==> CreateOutcome(s, q, jobId, runId, s, NotFound)
    ensures !HasKey(s, q.tenant, q.key) && (q.tenant, q.workspace) in s.workspaces ==>
              var s' := ApplyAll(s, [PutJob(jobId, Job(q.tenant, q.workspace, q.kind, q.key, Queued)),
                                     PutRun(runId, Run(q.tenant, jobId, Queued, 1, q.maxAttempts, q.delay)),
                                     Log(Created(q.tenant, jobId))]);
              if s'.Some? then CreateOutcome(s, q, jobId, runId, s'.value, JobResult(jobId, runId, true))
              else CreateOutcome(s, q, jobId, runId, s, Conflict)
  {
    if !HasKey(s, q.tenant, q.key) {
      if (q.tenant, q.workspace) in s.workspaces {
        CreateAlone(s, q, jobId, runId);
      } else {
        assert forall j :: j in s.jobs && s.jobs[j].tenant == q.tenant && s.jobs[j].key == q.key ==> IsKeyed(s, q.tenant, q.key, j);
      }
    }
  }
}
