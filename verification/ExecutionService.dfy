/** The service calls in the form of the original: straight-line code over a repository. Other sessions
    may commit anything between two calls. */
module ExecutionService {
  import opened Wrappers
  import opened Execution
  import opened ExecutionAlone
  import opened ExecutionInvariant
  import opened ExecutionResults

  class Repository {
    var store: Store        // the committed rows
    var writes: seq<Write>  // what this session has written and not committed

    constructor (s: Store)
      ensures store == s && writes == []
    {
      store, writes := s, [];
    }

    /** Time passes: other sessions have committed `next`. */
    method Interleave(next: Store)
      modifies this`store
      ensures store == next
    {
      store := next;
    }

    method GetOwned(t: Id, j: Id) returns (r: Option<Job>)
      ensures r == if OwnsJob(store, t, j) then Some(store.jobs[j]) else None
    {
      if j in store.jobs && store.jobs[j].tenant == t {
        return Some(store.jobs[j]);
      }
      return None;
    }

    method GetJobByIdempotencyKey(t: Id, key: string) returns (r: Option<(Id, Job)>)
      ensures match r
              case None => !HasKey(store, t, key)
              case Some((j, job)) => HasKey(store, t, key) && IsKeyed(store, t, key, j) && job == store.jobs[j]
    {
      if j :| j in store.jobs && IsKeyed(store, t, key, j) {
        return Some((j, store.jobs[j]));
      }
      return None;
    }

    method LatestRun(t: Id, j: Id) returns (r: Option<(Id, Run)>)
      ensures match r
              case None => !HasRun(store, t, j)
              case Some((id, run)) => HasRun(store, t, j) && IsLatest(store, t, j, id) && run == store.runs[id]
    {
      LatestAmong(store, t, j, store.runs.Keys);
      if id :| id in store.runs && IsLatest(store, t, j, id) {
        return Some((id, store.runs[id]));
      }
      return None;
    }

    method CompareAndSetJobStatus(t: Id, j: Id, expected: Status, target: Status) returns (updated: bool)
      modifies this`writes
      ensures updated == (OwnsJob(store, t, j) && store.jobs[j].status == expected)
      ensures writes == old(writes) + if updated then [SetJob(j, target)] else []
    {
      updated := j in store.jobs && store.jobs[j].tenant == t && store.jobs[j].status == expected;
      writes := writes + if updated then [SetJob(j, target)] else [];
    }

    method CompareAndSetRunStatus(t: Id, r: Id, expected: Status, target: Status) returns (updated: bool)
      modifies this`writes
      ensures updated == (r in store.runs && store.runs[r].tenant == t && store.runs[r].status == expected)
      ensures writes == old(writes) + if updated then [SetRun(r, target)] else []
    {
      updated := r in store.runs && store.runs[r].tenant == t && store.runs[r].status == expected;
      writes := writes + if updated then [SetRun(r, target)] else [];
    }

    /** False is an IntegrityError. */
    method InsertRun(id: Id, run: Run) returns (inserted: bool)
      modifies this`writes
      ensures inserted == Insertable(store, PutRun(id, run))
      ensures writes == old(writes) + if inserted then [PutRun(id, run)] else []
    {
      inserted := Insertable(store, PutRun(id, run));
      writes := writes + if inserted then [PutRun(id, run)] else [];
    }

    method AddAll(ws: seq<Write>)
      modifies this`writes
      ensures writes == old(writes) + ws
    {
      writes := writes + ws;
    }

    /** False is an IntegrityError: nothing is committed. */
    method Commit() returns (committed: bool)
      modifies this
      ensures var s' := ApplyAll(old(store), old(writes));
              committed == s'.Some?
              && (if committed then store == s'.value && writes == [] else store == old(store) && writes == old(writes))
    {
      var s' := ApplyAll(store, writes);
      committed := s'.Some?;
      if committed {
        store, writes := s'.value, [];
      }
    }

    method Rollback()
      modifies this`writes
      ensures writes == []
    {
      writes := [];
    }
  }

  ghost predicate TopAmong(s: Store, t: Id, j: Id, ids: set<Id>, r: Id)
    requires ids <= s.runs.Keys
  {
    r in ids && OwnsRun(s, t, j, r) && forall q :: q in ids && OwnsRun(s, t, j, q) ==> s.runs[q].attempt <= s.runs[r].attempt
  }

  /** Among finitely many runs of a job one has the highest attempt. */
  lemma {:induction false} LatestAmong(s: Store, t: Id, j: Id, ids: set<Id>)
    requires ids <= s.runs.Keys
    ensures (exists r :: r in ids && OwnsRun(s, t, j, r)) ==> exists r :: TopAmong(s, t, j, ids, r)
    decreases |ids|
  {
    if x :| x in ids && OwnsRun(s, t, j, x) {
      LatestAmong(s, t, j, ids - {x});
      if r :| TopAmong(s, t, j, ids - {x}, r) {
        assert TopAmong(s, t, j, ids, if s.runs[x].attempt > s.runs[r].attempt then x else r);
      } else {
        assert forall q :: q in ids && OwnsRun(s, t, j, q) ==> q == x by {
          assert forall q :: q in ids - {x} ==> !OwnsRun(s, t, j, q);
        }
        assert TopAmong(s, t, j, ids, x);
      }
    }
  }

  // ---------- The session program as the machine runs it ----------

  /** One call of a session that waits for no lock. `pick` holds the answer of a query or new identifiers. */
  function Call(s: Store, pick: (Id, Id), me: Session): (Store, Session) {
    match me.request
    case Transition(_, _, _, _) => MoveTransition(s, me, false, false, pick.1)
    case Retry(_, _, _) => MoveRetry(s, me, false, pick.0, pick.1)
    case Create(_, _, _, _, _, _) => MoveCreate(s, me, pick.0, pick.1)
  }

  /** When no other session holds the rows it waits for, a step of the world is such a call. */
  lemma CallIsStep(w: World, sid: Id, pick: (Id, Id))
    requires sid in w.sessions
    requires var q := w.sessions[sid].request;
             !q.Create? ==> !JobHeld(w, sid, q.job) && !RunHeld(w, sid, PcRun(w.sessions[sid].pc))
    ensures var (s', me') := Call(w.store, pick, w.sessions[sid]);
            Step(w, Move(sid, pick.0, pick.1)) == World(s', w.sessions[sid := me'])
  {
    hide JobHeld, RunHeld, MoveTransition, MoveRetry, MoveCreate;
  }

  /** The session after its first calls, the n-th of them on the rows `seen[n]` committed at that time. */
  function Played(q: Request, seen: seq<Store>, picks: seq<(Id, Id)>): Session
    requires |picks| <= |seen|
    decreases |picks|
  {
    if picks == [] then Session(q, Start, [])
    else var n := |picks| - 1; Call(seen[n], picks[n], Played(q, seen, picks[..n])).1
  }

  /** The last of these calls leaves the rows `s` and ends the session with `o`. */
  ghost predicate Answers(q: Request, seen: seq<Store>, picks: seq<(Id, Id)>, s: Store, o: Outcome) {
    && 1 <= |picks| <= |seen|
    && var n := |picks| - 1;
    Call(seen[n], picks[n], Played(q, seen, picks[..n])) == (s, Session(q, Done(o), []))
  }

  lemma PlayedSnoc(q: Request, seen: seq<Store>, picks: seq<(Id, Id)>, p: (Id, Id))
    requires |picks| < |seen|
    ensures (picks + [p])[..|picks|] == picks
    ensures Played(q, seen, picks + [p]) == Call(seen[|picks|], p, Played(q, seen, picks)).1
  {
  }

  /** Add the audit event and commit, rolling back on an integrity error. */
  method CommitAudited(repo: Repository, e: Event, now: Store) returns (committed: bool)
    modifies repo
    ensures repo.writes == []
    ensures var s' := ApplyAll(now, old(repo.writes) + [Log(e)]);
            committed == s'.Some? && repo.store == if committed then s'.value else now
  {
    repo.AddAll([Log(e)]);
    repo.Interleave(now);
    committed := repo.Commit();
    if !committed {
      repo.Rollback();
    }
  }

  /** The session has played `picks` and stands at `pc` with `ws` written. */
  ghost predicate Stands(q: Request, seen: seq<Store>, picks: seq<(Id, Id)>, pc: Pc, ws: seq<Write>) {
    |picks| <= |seen| && Played(q, seen, picks) == Session(q, pc, ws)
  }

  /** One more call: the session moves on, or answers. */
  lemma NextCall(q: Request, seen: seq<Store>, picks: seq<(Id, Id)>, pc: Pc, ws: seq<Write>, p: (Id, Id))
    requires |picks| < |seen| && Stands(q, seen, picks, pc, ws)
    ensures var (s', me') := Call(seen[|picks|], p, Session(q, pc, ws));
            && (me'.request == q ==> Stands(q, seen, picks + [p], me'.pc, me'.writes))
            && (me'.request == q && me'.writes == [] && me'.pc.Done? ==> Answers(q, seen, picks + [p], s', me'.pc.outcome))
  {
    PlayedSnoc(q, seen, picks, p);
  }

  /** Behind the compare-and-set of the job: that of the run and the commit, or the rollback of both. */
  method MoveRun(repo: Repository, t: Id, j: Id, expected: Status, target: Status, r: Id, run: Run, seen: seq<Store>,
                 ghost before: seq<(Id, Id)>)
    returns (o: Outcome, ghost picks: seq<(Id, Id)>)
    requires |seen| == 5 && |before| == 3
    requires Stands(Transition(t, j, expected, target), seen, before, JobSet(r, run), repo.writes)
    modifies repo
    ensures repo.writes == [] && Answers(Transition(t, j, expected, target), seen, picks, repo.store, o)
    ensures Undisturbed(seen) && OwnsJob(seen[0], t, j) && IsLatest(seen[0], t, j, r) && seen[0].jobs[j].status == expected
            && old(repo.writes) == [SetJob(j, target)]
            ==> o == JobResult(j, r, false) && IsLast(seen[0], j, r) && IsTransitioned(seen[0], t, j, r, expected, target, repo.store)
  {
    hide Stands, Answers, ApplyAll, IsLatest, IsLast, MoveRetry, MoveCreate, StoreInv, IsTransitioned;
    ghost var alone := Undisturbed(seen) && OwnsJob(seen[0], t, j) && IsLatest(seen[0], t, j, r)
                       && seen[0].jobs[j].status == expected && repo.writes == [SetJob(j, target)];
    if alone { TransitionAlone(seen[0], t, j, r, expected, target); }
    ghost var q := Transition(t, j, expected, target);
    picks := before;
    repo.Interleave(seen[3]);
    ghost var ws := repo.writes;
    var updated := repo.CompareAndSetRunStatus(t, r, expected, target);
    if !updated {
      NextCall(q, seen, picks, JobSet(r, run), ws, (0, 0));
      repo.Rollback();
      return InvalidTransition, picks + [(0, 0)];
    }
    assert Stands(q, seen, picks + [(0, 0)], RunSet(r), repo.writes) by {
      NextCall(q, seen, picks, JobSet(r, run), ws, (0, 0));
    }
    picks := picks + [(0, 0)];
    NextCall(q, seen, picks, RunSet(r), repo.writes, (0, 0));
    ghost var e := Transitioned(t, j, expected, target, r);
    assert alone ==> repo.writes + [Log(e)] == [SetJob(j, target), SetRun(r, target), Log(e)];
    var committed := CommitAudited(repo, Transitioned(t, j, expected, target, r), seen[4]);
    return if committed then JobResult(j, r, false) else InvalidTransition, picks + [(0, 0)];
  }

  /** `get_owned`, `latest_run`, two compare-and-sets and a commit. */
  method TransitionJob(repo: Repository, t: Id, j: Id, expected: Status, target: Status, seen: seq<Store>)
    returns (o: Outcome, ghost picks: seq<(Id, Id)>)
    requires repo.writes == [] && |seen| == 5
    modifies repo
    ensures repo.writes == [] && Answers(Transition(t, j, expected, target), seen, picks, repo.store, o)
    ensures Undisturbed(seen) ==> TransitionOutcome(seen[0], t, j, expected, target, repo.store, o)
  {
    GraphMeans(expected, target);
    hide Stands, Answers, ApplyAll, IsLatest, MoveRetry, MoveCreate, StoreInv, Allowed, Edge;
    ghost var q := Transition(t, j, expected, target);
    picks := [];
    NotYetPlayed(q, seen);
    repo.Interleave(seen[0]);
    if target !in Allowed(expected) {
      NextCall(q, seen, picks, Start, [], (0, 0));
      return InvalidTransition, picks + [(0, 0)];
    }
    var job := repo.GetOwned(t, j);
    if job.None? {
      NextCall(q, seen, picks, Start, [], (0, 0));
      return NotFound, picks + [(0, 0)];
    }
    assert Stands(q, seen, picks + [(0, 0)], ReadJob(job.value), []) by {
      NextCall(q, seen, picks, Start, [], (0, 0));
    }
    picks := picks + [(0, 0)];
    repo.Interleave(seen[1]);
    var latest := repo.LatestRun(t, j);
    if latest.None? {
      NextCall(q, seen, picks, ReadJob(job.value), [], (0, 0));
      if Undisturbed(seen) { LatestRunExists(seen[0], t, j); }
      return NotFound, picks + [(0, 0)];
    }
    var (r, run) := latest.value;
    if Undisturbed(seen) {
      TransitionAlone(seen[0], t, j, r, expected, target);
    }
    if job.value.status != expected || run.status != expected {
      NextCall(q, seen, picks, ReadJob(job.value), [], (0, r));
      return InvalidTransition, picks + [(0, r)];
    }
    assert Stands(q, seen, picks + [(0, r)], ReadRun(r, run), []) by {
      NextCall(q, seen, picks, ReadJob(job.value), [], (0, r));
    }
    picks := picks + [(0, r)];
    repo.Interleave(seen[2]);
    var updated := repo.CompareAndSetJobStatus(t, j, expected, target);
    if !updated {
      NextCall(q, seen, picks, ReadRun(r, run), [], (0, 0));
      repo.Rollback();
      return InvalidTransition, picks + [(0, 0)];
    }
    assert repo.writes == [SetJob(j, target)];
    assert Stands(q, seen, picks + [(0, 0)], JobSet(r, run), repo.writes) by {
      NextCall(q, seen, picks, ReadRun(r, run), [], (0, 0));
    }
    picks := picks + [(0, 0)];
    o, picks := MoveRun(repo, t, j, expected, target, r, run, seen, picks);
  }

  lemma NotYetPlayed(q: Request, seen: seq<Store>)
    ensures Played(q, seen, []) == Session(q, Start, []) && Stands(q, seen, [], Start, [])
  {
  }

  /** Behind the compare-and-set of the job: insert the next run and commit, or roll back. */
  method InsertRetry(repo: Repository, t: Id, j: Id, attempt: int, r: Id, prior: Run, newId: Id, seen: seq<Store>,
                     ghost before: seq<(Id, Id)>)
    returns (o: Outcome, ghost picks: seq<(Id, Id)>)
    requires |seen| == 5 && |before| == 3 && Stands(Retry(t, j, attempt), seen, before, JobSet(r, prior), repo.writes)
    modifies repo
    ensures repo.writes == [] && Answers(Retry(t, j, attempt), seen, picks, repo.store, o)
    ensures Undisturbed(seen) && newId !in seen[0].runs && OwnsJob(seen[0], t, j) && IsLatest(seen[0], t, j, r)
            && prior == seen[0].runs[r] && Retryable(seen[0], j, attempt, r) && old(repo.writes) == [SetJob(j, Queued)]
            ==> o == JobResult(j, newId, false) && IsRetried(seen[0], t, j, r, newId, repo.store)
  {
    hide Stands, Answers, ApplyAll, IsLatest, Insertable, MoveTransition, MoveCreate, StoreInv, Retryable, IsRetried;
    if Undisturbed(seen) && newId !in seen[0].runs && OwnsJob(seen[0], t, j) && IsLatest(seen[0], t, j, r) {
      RetryAlone(seen[0], t, j, attempt, r, newId);
    }
    ghost var q := Retry(t, j, attempt);
    picks := before;
    repo.Interleave(seen[3]);
    ghost var ws := repo.writes;
    var inserted := repo.InsertRun(newId, NextRun(t, j, prior));
    if !inserted {
      NextCall(q, seen, picks, JobSet(r, prior), ws, (0, newId));
      repo.Rollback();
      return InvalidTransition, picks + [(0, newId)];
    }
    assert Stands(q, seen, picks + [(0, newId)], Inserted(r, prior, newId), repo.writes) by {
      NextCall(q, seen, picks, JobSet(r, prior), ws, (0, newId));
    }
    picks := picks + [(0, newId)];
    NextCall(q, seen, picks, Inserted(r, prior, newId), repo.writes, (0, 0));
    ghost var e := RetryReserved(t, j, r, newId, prior.attempt, prior.attempt + 1);
    assert ws == [SetJob(j, Queued)]
           ==> repo.writes + [Log(e)] == [SetJob(j, Queued), PutRun(newId, NextRun(t, j, prior)), Log(e)];
    var committed := CommitAudited(repo, RetryReserved(t, j, r, newId, prior.attempt, prior.attempt + 1), seen[4]);
    return if committed then JobResult(j, newId, false) else InvalidTransition, picks + [(0, 0)];
  }

  /** `get_owned`, `latest_run`, a compare-and-set, an insert and a commit. */
  method ReserveRetry(repo: Repository, t: Id, j: Id, attempt: int, newId: Id, seen: seq<Store>)
    returns (o: Outcome, ghost picks: seq<(Id, Id)>)
    requires repo.writes == [] && |seen| == 5
    modifies repo
    ensures repo.writes == [] && Answers(Retry(t, j, attempt), seen, picks, repo.store, o)
    ensures Undisturbed(seen) && newId !in seen[0].runs ==> RetryOutcome(seen[0], t, j, attempt, newId, repo.store, o)
  {
    hide Stands, Answers, ApplyAll, IsLatest, IsLast, Insertable, MoveTransition, MoveCreate, StoreInv;
    ghost var q := Retry(t, j, attempt);
    picks := [];
    NotYetPlayed(q, seen);
    repo.Interleave(seen[0]);
    var job := repo.GetOwned(t, j);
    if job.None? {
      NextCall(q, seen, picks, Start, [], (0, 0));
      return NotFound, picks + [(0, 0)];
    }
    assert Stands(q, seen, picks + [(0, 0)], ReadJob(job.value), []) by {
      NextCall(q, seen, picks, Start, [], (0, 0));
    }
    picks := picks + [(0, 0)];
    repo.Interleave(seen[1]);
    var latest := repo.LatestRun(t, j);
    if latest.None? {
      NextCall(q, seen, picks, ReadJob(job.value), [], (0, 0));
      if Undisturbed(seen) { LatestRunExists(seen[0], t, j); }
      return NotFound, picks + [(0, 0)];
    }
    var (r, prior) := latest.value;
    if Undisturbed(seen) {
      LastIsLatest(seen[0], t, j, r);
      if newId !in seen[0].runs { RetryAlone(seen[0], t, j, attempt, r, newId); }
    }
    if job.value.status != Failed || prior.status != Failed || prior.attempt != attempt || prior.attempt >= prior.maxAttempts {
      NextCall(q, seen, picks, ReadJob(job.value), [], (r, 0));
      return InvalidTransition, picks + [(r, 0)];
    }
    assert Stands(q, seen, picks + [(r, 0)], ReadRun(r, prior), []) by {
      NextCall(q, seen, picks, ReadJob(job.value), [], (r, 0));
    }
    picks := picks + [(r, 0)];
    repo.Interleave(seen[2]);
    var updated := repo.CompareAndSetJobStatus(t, j, Failed, Queued);
    if !updated {
      NextCall(q, seen, picks, ReadRun(r, prior), [], (0, 0));
      repo.Rollback();
      return InvalidTransition, picks + [(0, 0)];
    }
    assert repo.writes == [SetJob(j, Queued)];
    assert Stands(q, seen, picks + [(0, 0)], JobSet(r, prior), repo.writes) by {
      NextCall(q, seen, picks, ReadRun(r, prior), [], (0, 0));
    }
    picks := picks + [(0, 0)];
    o, picks := InsertRetry(repo, t, j, attempt, r, prior, newId, seen, picks);
  }

  /** The tail of a creation whose key is taken. */
  method IdempotentJobResult(repo: Repository, q: Request, j: Id, job: Job) returns (o: Outcome, run: Id)
    requires q.Create?
    ensures forall pickJob :: Call(repo.store, (pickJob, run), Session(q, Found(j, job), [])) == (repo.store, Session(q, Done(o), []))
    ensures StoreInv(repo.store) && IsKeyed(repo.store, q.tenant, q.key, j) && job == repo.store.jobs[j]
            ==> forall jobId, runId :: CreateOutcome(repo.store, q, jobId, runId, repo.store, o)
  {
    hide IsLatest, StoreInv, CreateOutcome;
    var latest := repo.LatestRun(q.tenant, j);
    if latest.None? {
      if StoreInv(repo.store) && IsKeyed(repo.store, q.tenant, q.key, j) { LatestRunExists(repo.store, q.tenant, j); }
      return NotFound, 0;
    }
    var (r, row) := latest.value;
    if StoreInv(repo.store) && IsKeyed(repo.store, q.tenant, q.key, j) && job == repo.store.jobs[j] {
      forall jobId, runId {
        KeyedAlone(repo.store, q, j, r, jobId, runId);
      }
    }
    if job.workspace != q.workspace || job.kind != q.kind || row.maxAttempts != q.maxAttempts || row.delay != q.delay {
      return Conflict, r;
    }
    return JobResult(j, r, false), r;
  }

  /** Look the key up, check the workspace, insert; after an integrity error look the winner up. */
  method CreateJob(repo: Repository, q: Request, jobId: Id, runId: Id, seen: seq<Store>)
    returns (o: Outcome, ghost picks: seq<(Id, Id)>)
    requires q.Create? && repo.writes == [] && |seen| == 5
    modifies repo
    ensures repo.writes == [] && Answers(q, seen, picks, repo.store, o)
    ensures Undisturbed(seen) && jobId !in seen[0].jobs && runId !in seen[0].runs
            ==> CreateOutcome(seen[0], q, jobId, runId, repo.store, o)
  {
    hide Played, ApplyAll, HasKey, IsKeyed, HasRun, IsLatest, StoreInv, CreateOutcome;
    if Undisturbed(seen) && jobId !in seen[0].jobs && runId !in seen[0].runs { NewKeyAlone(seen[0], q, jobId, runId); }
    var run: Id;
    picks := [];
    NotYetPlayed(q, seen);
    repo.Interleave(seen[0]);
    var existing := repo.GetJobByIdempotencyKey(q.tenant, q.key);
    if existing.Some? {
      var (j, job) := existing.value;
      PlayedSnoc(q, seen, [], (j, 0));
      repo.Interleave(seen[1]);
      o, run := IdempotentJobResult(repo, q, j, job);
      PlayedSnoc(q, seen, [] + [(j, 0)], (0, run));
      return o, [] + [(j, 0)] + [(0, run)];
    }
    PlayedSnoc(q, seen, [], (0, 0));
    picks := [] + [(0, 0)];
    repo.Interleave(seen[1]);
    PlayedSnoc(q, seen, picks, (0, 0));
    picks := picks + [(0, 0)];
    if (q.tenant, q.workspace) !in repo.store.workspaces {
      return NotFound, picks;
    }
    repo.AddAll([PutJob(jobId, Job(q.tenant, q.workspace, q.kind, q.key, Queued)),
                 PutRun(runId, Run(q.tenant, jobId, Queued, 1, q.maxAttempts, q.delay)),
                 Log(Created(q.tenant, jobId))]);
    assert repo.writes == [PutJob(jobId, Job(q.tenant, q.workspace, q.kind, q.key, Queued)),
                           PutRun(runId, Run(q.tenant, jobId, Queued, 1, q.maxAttempts, q.delay)),
                           Log(Created(q.tenant, jobId))];
    repo.Interleave(seen[2]);
    PlayedSnoc(q, seen, picks, (jobId, runId));
    picks := picks + [(jobId, runId)];
    var committed := repo.Commit();
    if committed {
      return JobResult(jobId, runId, true), picks;
    }
    repo.Rollback();
    repo.Interleave(seen[3]);
    var winner := repo.GetJobByIdempotencyKey(q.tenant, q.key);
    if winner.None? {
      PlayedSnoc(q, seen, picks, (0, 0));
      return Conflict, picks + [(0, 0)];
    }
    var (j, job) := winner.value;
    PlayedSnoc(q, seen, picks, (j, 0));
    picks := picks + [(j, 0)];
    repo.Interleave(seen[4]);
    o, run := IdempotentJobResult(repo, q, j, job);
    PlayedSnoc(q, seen, picks, (0, run));
    return o, picks + [(0, run)];
  }
}
