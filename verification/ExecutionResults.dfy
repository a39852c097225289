/** What the invariant means for jobs, runs, audit events and clients, over every schedule. */
module ExecutionResults {
  import opened Wrappers
  import opened Execution
  import opened ExecutionInvariant
  import opened ExecutionSafety

  // ---------- Jobs and their runs ----------

  /** In every consistent store the attempts of a job are 1..n, the job has the status of attempt n,
      every earlier run is failed, and all runs share limits that n does not exceed. */
  lemma LatestRunDecides(s: Store, t: Id, j: Id, r: Id)
    requires StoreInv(s) && OwnsJob(s, t, j) && IsLatest(s, t, j, r)
    ensures var n := s.runs[r].attempt;
            && n == |History(s.audit, j)| && n <= s.runs[r].maxAttempts <= 10
            && s.jobs[j].status == s.runs[r].status
            && (forall k :: 1 <= k <= n <==> HasRunAt(s, j, k))
            && (forall q :: q in s.runs && s.runs[q].job == j && q != r ==> s.runs[q].status == Failed && s.runs[q].attempt < n)
            && (forall q :: q in s.runs && s.runs[q].job == j ==>
                  s.runs[q].maxAttempts == s.runs[r].maxAttempts && s.runs[q].delay == s.runs[r].delay)
  {
    hide Legal, History;
    assert JobConsistent(s, j) && RunConsistent(s, r);
    RunsOfTenant(s, t, j);
    var n := |History(s.audit, j)|;
    assert HasRunAt(s, j, n);
    var top :| IsRunAt(s, j, n, top);
    forall q | q in s.runs && s.runs[q].job == j
      ensures Siblings(s.runs[r], s.runs[q], r, q) && RunConsistent(s, q) && IsRunAt(s, j, s.runs[q].attempt, q)
      ensures s.runs[q].attempt < n ==> s.runs[q].status == Failed
    {
      assert RunConsistent(s, q);
      if s.runs[q].attempt < n {
        EarlierFailed(s.audit, j, s.runs[q].attempt - 1);
      }
    }
  }

  /** No job is without a run, and the latest-run query has exactly one answer. */
  lemma LatestRunExists(s: Store, t: Id, j: Id)
    requires StoreInv(s) && OwnsJob(s, t, j)
    ensures HasRun(s, t, j)
    ensures exists r :: IsLatest(s, t, j, r) && forall q :: IsLatest(s, t, j, q) ==> q == r
  {
    hide Legal, History;
    var n := |History(s.audit, j)|;
    assert JobConsistent(s, j) && HasRunAt(s, j, n);
    var r :| IsRunAt(s, j, n, r);
    RunsOfTenant(s, t, j);
    forall q | q in s.runs && OwnsRun(s, t, j, q)
      ensures s.runs[q].attempt <= n && (s.runs[q].attempt == n ==> q == r)
    {
      assert RunConsistent(s, q) && Siblings(s.runs[r], s.runs[q], r, q);
    }
    assert IsLatest(s, t, j, r);
  }

  /** The committed rows after any schedule from an empty database. */
  lemma EveryScheduleConsistent(w: World, schedule: seq<Action>, t: Id, j: Id)
    requires Initial(w) && OwnsJob(Steps(w, schedule).store, t, j)
    ensures var s := Steps(w, schedule).store;
            && Legal(s.audit)
            && exists r :: IsLatest(s, t, j, r) && s.jobs[j].status == s.runs[r].status
                  && forall q :: q in s.runs && s.runs[q].job == j && q != r ==> s.runs[q].status == Failed
  {
    InitialInv(w);
    StepsKeepInv(w, schedule);
    var s := Steps(w, schedule).store;
    LatestRunExists(s, t, j);
    var r :| IsLatest(s, t, j, r);
    LatestRunDecides(s, t, j, r);
  }

  // ---------- Replaying the events ----------

  /** The identifier that the events give to attempt `n` of a job. A created event names no run; every later
      event names the runs it is about. */
  function NamedRun(audit: seq<Event>, j: Id, n: int): Option<Id> {
    if audit == [] then None
    else
      var m := |audit| - 1;
      match audit[m]
      case Transitioned(_, k, _, _, run) =>
        if k == j && n == |History(audit[..m], j)| then Some(run) else NamedRun(audit[..m], j, n)
      case RetryReserved(_, k, priorRun, newRun, priorAttempt, newAttempt) =>
        if k == j && n == newAttempt then Some(newRun)
        else if k == j && n == priorAttempt then Some(priorRun)
        else NamedRun(audit[..m], j, n)
      case _ => NamedRun(audit[..m], j, n)
  }

  /** An attempt that is named is the row that is named. */
  lemma {:induction false} NamedIsRow(s: Store, m: nat, j: Id, n: int)
    requires StoreInv(s) && m <= |s.audit| && NamedRun(s.audit[..m], j, n).Some?
    ensures IsRunAt(s, j, n, NamedRun(s.audit[..m], j, n).value)
    decreases m
  {
    hide History, Legal, JobsConsistent, RunsConsistent, RunsAreSiblings, KeysUnique;
    if m > 0 {
      var k := m - 1;
      assert NamesRuns(s, k);
      assert s.audit[..m][..k] == s.audit[..k] && s.audit[..m][k] == s.audit[k];
      if NamedRun(s.audit[..k], j, n).Some? { NamedIsRow(s, k, j, n); }
    }
  }

  /** Only a first attempt that nothing has happened to is unnamed. */
  lemma {:induction false} RetriesAreNamed(audit: seq<Event>, j: Id, n: nat)
    requires Legal(audit) && 2 <= n <= |History(audit, j)|
    ensures NamedRun(audit, j, n).Some?
  {
    var m := |audit| - 1;
    HistorySnoc(audit[..m], audit[m], j);
    assert audit[..m] + [audit[m]] == audit;
    if n <= |History(audit[..m], j)| {
      RetriesAreNamed(audit[..m], j, n);
    }
  }

  /** The events in commit order rebuild the rows of a job: its status, its runs with attempts 1..n, their
      statuses, and their identifiers. */
  lemma EventsRebuildRows(s: Store, j: Id, n: nat)
    requires StoreInv(s) && j in s.jobs
    ensures var h := History(s.audit, j);
            && h != [] && s.jobs[j].status == h[|h| - 1]
            && (HasRunAt(s, j, n) <==> 1 <= n <= |h|)
            && (forall r :: IsRunAt(s, j, n, r) ==> s.runs[r].status == h[n - 1])
            && (forall r, q :: IsRunAt(s, j, n, r) && IsRunAt(s, j, n, q) ==> r == q)
            && (NamedRun(s.audit, j, n).Some? ==> IsRunAt(s, j, n, NamedRun(s.audit, j, n).value))
            && (2 <= n <= |h| ==> NamedRun(s.audit, j, n).Some?)
  {
    assert JobConsistent(s, j);
    hide History, Legal, KeysUnique, EventsNameRuns;
    forall r | IsRunAt(s, j, n, r)
      ensures 1 <= n <= |History(s.audit, j)| && s.runs[r].status == History(s.audit, j)[n - 1]
    {
      assert RunConsistent(s, r);
    }
    forall r, q | IsRunAt(s, j, n, r) && IsRunAt(s, j, n, q)
      ensures r == q
    {
      assert Siblings(s.runs[r], s.runs[q], r, q);
    }
    assert s.audit[..|s.audit|] == s.audit;
    if NamedRun(s.audit, j, n).Some? { NamedIsRow(s, |s.audit|, j, n); }
    if 2 <= n <= |History(s.audit, j)| { RetriesAreNamed(s.audit, j, n); }
  }

  // ---------- Stale readers ----------

  /** A transition that has won the compare-and-set of the job wins the one of the run exactly when the
      run it read is still the latest; otherwise it rolls back and nothing changes. */
  lemma StaleTransitionLoses(w: World, sid: Id, job: Id, run: Id)
    requires WorldInv(w) && sid in w.sessions && w.sessions[sid].request.Transition? && w.sessions[sid].pc.JobSet?
    ensures var q, r := w.sessions[sid].request, w.sessions[sid].pc.run;
            var w' := Step(w, Move(sid, job, run));
            && w'.store == w.store
            && (IsLatest(w.store, q.tenant, q.job, r) ==> w'.sessions[sid].pc == RunSet(r))
            && (!IsLatest(w.store, q.tenant, q.job, r) ==> w'.sessions[sid] == Session(q, Done(InvalidTransition), []))
  {
    hide StoreInv;
    var me := w.sessions[sid];
    var s, q, r := w.store, me.request, me.pc.run;
    assert SessionInv(s, me);
    RunFree(w, sid, r);
    LatestRunExists(s, q.tenant, q.job);
    var top :| IsLatest(s, q.tenant, q.job, top);
    LatestRunDecides(s, q.tenant, q.job, top);
    StatusFits(q);
  }

  /** Transitions start from a status that is not terminal. */
  lemma StatusFits(q: Request)
    requires q.Transition? && q.target in Allowed(q.expected)
    ensures !Terminal(q.expected)
  {
  }

  lemma RunLockNeedsJobLock(s: Store, o: Session, r: Id)
    requires SessionInv(s, o) && HoldsRun(o, r)
    ensures r in s.runs && HoldsJob(o, s.runs[r].job)
  {
    assert o.writes[0].SetJob?;
  }

  /** Whoever holds the lock of a job is the only one that can hold a lock of its runs. */
  lemma RunFree(w: World, sid: Id, r: Id)
    requires WorldInv(w) && sid in w.sessions && w.sessions[sid].pc.JobSet? && w.sessions[sid].pc.run == r
    ensures !RunHeld(w, sid, r)
  {
    var me := w.sessions[sid];
    assert SessionInv(w.store, me);
    assert me.writes[0].SetJob? && HoldsJob(me, w.store.runs[r].job);
    if o :| o in w.sessions && o != sid && HoldsRun(w.sessions[o], r) {
      RunLockNeedsJobLock(w.store, w.sessions[o], r);
    }
  }

  /** A retry that has won the compare-and-set of the job can insert its run exactly when the run it read
      is still the latest (and the new identifier is unused); otherwise nothing changes. */
  lemma StaleRetryLoses(w: World, sid: Id, job: Id, newId: Id)
    requires WorldInv(w) && sid in w.sessions && w.sessions[sid].request.Retry? && w.sessions[sid].pc.JobSet?
    ensures var q, pc := w.sessions[sid].request, w.sessions[sid].pc;
            var w' := Step(w, Move(sid, job, newId));
            && w'.store == w.store
            && (IsLatest(w.store, q.tenant, q.job, pc.run) && newId !in w.store.runs ==>
                  w'.sessions[sid].pc == Inserted(pc.run, pc.row, newId))
            && (!IsLatest(w.store, q.tenant, q.job, pc.run) || newId in w.store.runs ==>
                  w'.sessions[sid] == Session(q, Done(InvalidTransition), []))
  {
    hide StoreInv;
    var me := w.sessions[sid];
    var s, q, pc := w.store, me.request, me.pc;
    assert SessionInv(s, me);
    LatestRunExists(s, q.tenant, q.job);
    var top :| IsLatest(s, q.tenant, q.job, top);
    LatestRunDecides(s, q.tenant, q.job, top);
    RunsOfTenant(s, q.tenant, q.job);
    RunsChecked(s, pc.run);
    var next := pc.row.attempt + 1;
    if pc.run == top {
      assert !HasRunAt(s, q.job, next);
      NoRunInGap(s, q.job, next);
    } else {
      assert HasRunAt(s, q.job, next);
      var x :| IsRunAt(s, q.job, next, x);
      assert OwnsRun(s, q.tenant, q.job, x);
    }
  }

  // ---------- Audit events ----------

  /** How many steps of the schedule change the committed rows. */
  ghost function Commits(w: World, schedule: seq<Action>): nat
    decreases |schedule|
  {
    if schedule == [] then 0
    else (if Step(w, schedule[0]).store != w.store then 1 else 0) + Commits(Step(w, schedule[0]), schedule[1..])
  }

  lemma StepAudits(w: World, a: Action)
    requires WorldInv(w)
    ensures var s, s' := w.store, Step(w, a).store;
            s' == s || exists e :: s'.audit == s.audit + [e]
  {
    hide StoreInv, SessionInv, MoveTransition, MoveRetry, MoveCreate;
    if a.Move? && a.sid in w.sessions {
      var me := w.sessions[a.sid];
      assert SessionInv(w.store, me);
      match me.request {
        case Transition(_, j, _, _) =>
          TransitionGood(w.store, me, JobHeld(w, a.sid, j), RunHeld(w, a.sid, PcRun(me.pc)), a.run);
        case Retry(_, j, _) => RetryGood(w.store, me, JobHeld(w, a.sid, j), a.job, a.run);
        case Create(_, _, _, _, _, _) => CreateGood(w.store, me, a.job, a.run);
      }
    }
  }

  /** Every commit that changes a row adds exactly one event, and nothing else adds any. */
  lemma {:induction false} OneEventPerCommit(w: World, schedule: seq<Action>)
    requires WorldInv(w)
    ensures w.store.audit <= Steps(w, schedule).store.audit
    ensures |Steps(w, schedule).store.audit| == |w.store.audit| + Commits(w, schedule)
    decreases |schedule|
  {
    hide WorldInv, Step;
    if schedule != [] {
      StepAudits(w, schedule[0]);
      StepKeepsInv(w, schedule[0]);
      OneEventPerCommit(Step(w, schedule[0]), schedule[1..]);
    }
  }

  /** The statuses that attempt `n` of job `j` has gone through. */
  function RunPath(audit: seq<Event>, j: Id, n: nat): seq<Status> {
    if audit == [] then []
    else
      var m := |audit| - 1;
      var before, after := |History(audit[..m], j)|, |History(audit, j)|;
      var p := RunPath(audit[..m], j, n);
      if before < n <= after then [Queued]
      else if audit[m].job == j && audit[m].Transitioned? && n == before then p + [audit[m].target]
      else p
  }

  /** The path of every attempt starts queued, follows the transition graph and ends at its present status. */
  lemma {:induction false} RunPathLegal(audit: seq<Event>, j: Id, n: nat)
    requires Legal(audit) && n >= 1
    ensures var p, h := RunPath(audit, j, n), History(audit, j);
            && (p == [] <==> n > |h|)
            && (p != [] ==> p[0] == Queued && p[|p| - 1] == h[n - 1])
            && forall i :: 0 <= i < |p| - 1 ==> p[i + 1] in Allowed(p[i])
  {
    if audit != [] {
      var m := |audit| - 1;
      RunPathLegal(audit[..m], j, n);
      HistorySnoc(audit[..m], audit[m], j);
      assert audit[..m] + [audit[m]] == audit;
    }
  }

  lemma {:induction false} HistoryGrows(audit: seq<Event>, i: nat, j: Id)
    requires i <= |audit|
    ensures |History(audit[..i], j)| <= |History(audit, j)|
    decreases |audit|
  {
    if i < |audit| {
      var n := |audit| - 1;
      assert audit[..n][..i] == audit[..i];
      HistoryGrows(audit[..n], i, j);
    } else {
      assert audit[..i] == audit;
    }
  }

  lemma {:induction false} LegalAt(audit: seq<Event>, i: nat)
    requires Legal(audit) && i < |audit|
    ensures LegalEvent(History(audit[..i], audit[i].job), audit[i])
    decreases |audit|
  {
    var n := |audit| - 1;
    if i < n {
      assert audit[..n][..i] == audit[..i];
      LegalAt(audit[..n], i);
    }
  }

  /** Of the retries that name one attempt of a job, at most one ever commits, whatever happens in between. */
  lemma OneRetryPerAttempt(audit: seq<Event>, i: nat, k: nat)
    requires Legal(audit) && i < |audit| && k < |audit|
    requires audit[i].RetryReserved? && audit[k].RetryReserved? && audit[i].job == audit[k].job
    requires audit[i].priorAttempt == audit[k].priorAttempt
    ensures i == k
  {
    if i < k {
      RetriesDiffer(audit, i, k);
    } else if k < i {
      RetriesDiffer(audit, k, i);
    }
  }

  lemma RetriesDiffer(audit: seq<Event>, i: nat, k: nat)
    requires Legal(audit) && i < k < |audit|
    requires audit[i].RetryReserved? && audit[k].RetryReserved? && audit[i].job == audit[k].job
    ensures audit[i].priorAttempt < audit[k].priorAttempt
  {
    var j := audit[i].job;
    LegalAt(audit, i);
    LegalAt(audit, k);
    var p := audit[..i + 1];
    assert p[..i] == audit[..i] && audit[..k][..i + 1] == p;
    HistoryGrows(audit[..k], i + 1, j);
  }

  // ---------- Retries that name one attempt ----------

  /** The session has reserved a retry of attempt `attempt` of job `j`, and has been told so. */
  predicate Reserved(w: World, o: Id, j: Id, attempt: int) {
    && o in w.sessions && w.sessions[o].request.Retry?
    && w.sessions[o].request.job == j && w.sessions[o].request.attempt == attempt
    && w.sessions[o].pc.Done? && w.sessions[o].pc.outcome.JobResult?
  }

  /** The event logs a retry of the attempt, with the run that is answered. */
  predicate LogsRetry(e: Event, j: Id, attempt: int, run: Id) {
    e.RetryReserved? && e.job == j && e.priorAttempt == attempt && e.newRun == run
  }

  /** Every retry that was answered was logged, and no attempt was retried for two sessions. */
  ghost predicate RetriesLogged(w: World) {
    && (forall o, j, attempt :: Reserved(w, o, j, attempt) ==>
          exists i :: 0 <= i < |w.store.audit| && LogsRetry(w.store.audit[i], j, attempt, w.sessions[o].pc.outcome.run))
    && (forall o, p, j, attempt :: Reserved(w, o, j, attempt) && Reserved(w, p, j, attempt) ==> o == p)
  }

  /** The step that answers a retry is its commit, which logs it. */
  lemma AnswerIsLogged(w: World, a: Action, o: Id, j: Id, attempt: int)
    requires WorldInv(w) && Reserved(Step(w, a), o, j, attempt) && !Reserved(w, o, j, attempt)
    ensures a.Move? && a.sid == o
    ensures var s, s' := w.store, Step(w, a).store;
            && |s'.audit| == |s.audit| + 1 && s.audit <= s'.audit
            && LogsRetry(s'.audit[|s.audit|], j, attempt, Step(w, a).sessions[o].pc.outcome.run)
  {
    hide ApplyAll, StoreInv, JobHeld, RunHeld, Insertable, IsLatest;
    assert a.Move? && a.sid == o;
    var me := w.sessions[o];
    assert me.request.Retry? && me.pc.Inserted?;
    assert SessionInv(w.store, me);
    RunsChecked(w.store, me.pc.run);
    var t, row := me.request.tenant, me.pc.row;
    var e := Log(RetryReserved(t, j, me.pc.run, me.pc.newRun, row.attempt, row.attempt + 1));
    RetryApplies(w.store, t, j, me.pc.run, row, me.pc.newRun);
    assert me.writes + [e] == [SetJob(j, Queued), PutRun(me.pc.newRun, NextRun(t, j, row)), e];
  }

  /** A session that has been answered stays as it is. */
  lemma AnsweredStays(w: World, a: Action, o: Id)
    requires o in w.sessions && w.sessions[o].pc.Done?
    ensures o in Step(w, a).sessions && Step(w, a).sessions[o] == w.sessions[o]
  {
  }

  lemma StepKeepsRetriesLogged(w: World, a: Action)
    requires WorldInv(w) && RetriesLogged(w)
    ensures RetriesLogged(Step(w, a))
  {
    hide StoreInv, SessionInv, Step;
    var w' := Step(w, a);
    StepPersists(w, a);
    StepKeepsInv(w, a);
    assert Legal(w'.store.audit) by { LegalEvents(w'); }
    forall o, j, attempt | Reserved(w', o, j, attempt)
      ensures exists i :: 0 <= i < |w'.store.audit| && LogsRetry(w'.store.audit[i], j, attempt, w'.sessions[o].pc.outcome.run)
    {
      if Reserved(w, o, j, attempt) {
        AnsweredStays(w, a, o);
        var i :| 0 <= i < |w.store.audit| && LogsRetry(w.store.audit[i], j, attempt, w.sessions[o].pc.outcome.run);
        assert w'.store.audit[i] == w.store.audit[i];
      } else {
        AnswerIsLogged(w, a, o, j, attempt);
      }
    }
    forall o, p, j, attempt | Reserved(w', o, j, attempt) && Reserved(w', p, j, attempt)
      ensures o == p
    {
      if !Reserved(w, o, j, attempt) && Reserved(w, p, j, attempt) {
        LoggedOnce(w, a, o, p, j, attempt);
      } else if Reserved(w, o, j, attempt) && !Reserved(w, p, j, attempt) {
        LoggedOnce(w, a, p, o, j, attempt);
      } else if !Reserved(w, o, j, attempt) && !Reserved(w, p, j, attempt) {
        AnswerIsLogged(w, a, o, j, attempt);
        AnswerIsLogged(w, a, p, j, attempt);
      }
    }
  }

  lemma LegalEvents(w: World)
    requires WorldInv(w)
    ensures Legal(w.store.audit)
  {
  }

  /** An attempt that one session has retried is not retried for another. */
  lemma LoggedOnce(w: World, a: Action, o: Id, p: Id, j: Id, attempt: int)
    requires WorldInv(w) && RetriesLogged(w) && Legal(Step(w, a).store.audit)
    requires !Reserved(w, o, j, attempt) && Reserved(Step(w, a), o, j, attempt)
    ensures !Reserved(w, p, j, attempt)
  {
    hide StoreInv, SessionInv, Step;
    if Reserved(w, p, j, attempt) {
      AnswerIsLogged(w, a, o, j, attempt);
      var i :| 0 <= i < |w.store.audit| && LogsRetry(w.store.audit[i], j, attempt, w.sessions[p].pc.outcome.run);
      OneRetryPerAttempt(Step(w, a).store.audit, i, |w.store.audit|);
    }
  }

  lemma {:induction false} StepsKeepRetriesLogged(w: World, schedule: seq<Action>)
    requires WorldInv(w) && RetriesLogged(w)
    ensures RetriesLogged(Steps(w, schedule))
    decreases |schedule|
  {
    hide WorldInv, Step, RetriesLogged;
    if schedule != [] {
      StepKeepsInv(w, schedule[0]);
      StepKeepsRetriesLogged(w, schedule[0]);
      StepsKeepRetriesLogged(Step(w, schedule[0]), schedule[1..]);
    }
  }

  /** From an empty database, after every schedule: of all sessions that retry one attempt of a job, at most
      one is answered with a new run, whatever the job has gone through in between. */
  lemma OneSessionPerAttempt(w: World, schedule: seq<Action>, o: Id, p: Id, j: Id, attempt: int)
    requires Initial(w)
    requires Reserved(Steps(w, schedule), o, j, attempt) && Reserved(Steps(w, schedule), p, j, attempt)
    ensures o == p
  {
    InitialInv(w);
    StepsKeepRetriesLogged(w, schedule);
  }

  // ---------- What never changes ----------

  ghost predicate Persists(s: Store, s': Store) {
    && s'.workspaces == s.workspaces
    && (forall k :: k in s.jobs ==> k in s'.jobs && SameJob(s.jobs[k], s'.jobs[k]))
    && (forall r :: r in s.runs ==> r in s'.runs && SameRun(s.runs[r], s'.runs[r]))
    && s.audit <= s'.audit
  }

  lemma StepPersists(w: World, a: Action)
    requires WorldInv(w)
    ensures Persists(w.store, Step(w, a).store)
  {
    hide StoreInv, SessionInv, MoveTransition, MoveRetry, MoveCreate;
    if a.Move? && a.sid in w.sessions {
      var me := w.sessions[a.sid];
      assert SessionInv(w.store, me);
      match me.request {
        case Transition(_, j, _, _) =>
          TransitionGood(w.store, me, JobHeld(w, a.sid, j), RunHeld(w, a.sid, PcRun(me.pc)), a.run);
        case Retry(_, j, _) => RetryGood(w.store, me, JobHeld(w, a.sid, j), a.job, a.run);
        case Create(_, _, _, _, _, _) => CreateGood(w.store, me, a.job, a.run);
      }
    }
  }

  lemma {:induction false} StepsPersist(w: World, schedule: seq<Action>)
    requires WorldInv(w)
    ensures Persists(w.store, Steps(w, schedule).store)
    decreases |schedule|
  {
    hide WorldInv, Step;
    if schedule != [] {
      StepPersists(w, schedule[0]);
      StepKeepsInv(w, schedule[0]);
      StepsPersist(Step(w, schedule[0]), schedule[1..]);
    }
  }

  lemma FailedStaysFailed(s: Store, s': Store, r: Id)
    requires StoreInv(s) && StoreInv(s') && Persists(s, s')
    requires r in s.runs && s.runs[r].attempt < |History(s.audit, s.runs[r].job)|
    ensures r in s'.runs && s'.runs[r] == s.runs[r]
  {
    var j, n := s.runs[r].job, s.runs[r].attempt;
    assert RunConsistent(s, r) && RunConsistent(s', r);
    hide StoreInv, JobsConsistent, RunsConsistent, RunsAreSiblings, KeysUnique, History, Legal;
    assert s'.audit[..|s.audit|] == s.audit;
    HistoryGrows(s'.audit, |s.audit|, j);
    EarlierFailed(s.audit, j, n - 1);
    EarlierFailed(s'.audit, j, n - 1);
  }

  /** A run that is no longer the latest never changes again. */
  lemma EarlierRunsFrozen(w: World, schedule: seq<Action>, r: Id)
    requires WorldInv(w) && r in w.store.runs && w.store.runs[r].attempt < |History(w.store.audit, w.store.runs[r].job)|
    ensures r in Steps(w, schedule).store.runs && Steps(w, schedule).store.runs[r] == w.store.runs[r]
  {
    hide StoreInv, SessionInv, Persists, Steps;
    StepsKeepInv(w, schedule);
    StepsPersist(w, schedule);
    FailedStaysFailed(w.store, Steps(w, schedule).store, r);
  }

  // ---------- Idempotent creation ----------

  /** The request that would create exactly this job with this first run. */
  predicate Creates(c: Request, job: Job, first: Run) {
    c.Create? && job.tenant == c.tenant && job.workspace == c.workspace && job.kind == c.kind && job.key == c.key
    && first.maxAttempts == c.maxAttempts && first.delay == c.delay
  }

  /** Once a job has a key, no creation with that key gets past its first read but to that job. */
  lemma KeyedCreationFindsJob(w: World, sid: Id, j: Id, pickJob: Id, pickRun: Id)
    requires WorldInv(w) && sid in w.sessions && w.sessions[sid].request.Create?
    requires w.sessions[sid].pc == Start || w.sessions[sid].pc == Lost
    requires IsKeyed(w.store, w.sessions[sid].request.tenant, w.sessions[sid].request.key, j)
    ensures var pc := Step(w, Move(sid, pickJob, pickRun)).sessions[sid].pc;
            if pickJob == j then pc == Found(j, w.store.jobs[j]) else pc == w.sessions[sid].pc
  {
    assert KeysUnique(w.store);
  }

  /** A creation that has found a job answers with that job and its latest run exactly when the request is
      the one that created the job, whatever has happened to the job since; any other request conflicts. */
  lemma ResendAnswers(w: World, sid: Id, first: Id, pickJob: Id, pickRun: Id)
    requires WorldInv(w) && sid in w.sessions && w.sessions[sid].request.Create? && w.sessions[sid].pc.Found?
    requires IsRunAt(w.store, w.sessions[sid].pc.found, 1, first)
    requires IsLatest(w.store, w.sessions[sid].request.tenant, w.sessions[sid].pc.found, pickRun)
    ensures var me := w.sessions[sid];
            var j := me.pc.found;
            Step(w, Move(sid, pickJob, pickRun)).sessions[sid].pc
            == Done(if Creates(me.request, w.store.jobs[j], w.store.runs[first]) then JobResult(j, pickRun, false) else Conflict)
  {
    hide StoreInv;
    var me := w.sessions[sid];
    assert SessionInv(w.store, me);
    LatestRunDecides(w.store, me.request.tenant, me.pc.found, pickRun);
    assert OwnsRun(w.store, me.request.tenant, me.pc.found, pickRun);
  }

  /** The request that created a job keeps being the one that created it. */
  lemma CreatorPersists(w: World, schedule: seq<Action>, c: Request, j: Id, first: Id)
    requires WorldInv(w) && j in w.store.jobs && IsRunAt(w.store, j, 1, first)
    ensures var s' := Steps(w, schedule).store;
            && j in s'.jobs && IsRunAt(s', j, 1, first)
            && (Creates(c, s'.jobs[j], s'.runs[first]) <==> Creates(c, w.store.jobs[j], w.store.runs[first]))
  {
    hide WorldInv;
    StepsPersist(w, schedule);
  }

  /** The ranges that the API accepts. */
  predicate ApiValid(c: Request) { c.Create? ==> 1 <= c.maxAttempts <= 10 && 0 <= c.delay <= 86400 }

  /** New identifiers are unused. */
  predicate FreshIds(w: World, a: Action) {
    a.Move? && a.sid in w.sessions && w.sessions[a.sid].request.Create? && w.sessions[a.sid].pc.Ready? ==>
      a.job !in w.store.jobs && a.run !in w.store.runs
  }

  ghost predicate FreshSchedule(w: World, schedule: seq<Action>)
    decreases |schedule|
  {
    schedule == [] || (FreshIds(w, schedule[0]) && FreshSchedule(Step(w, schedule[0]), schedule[1..]))
  }

  /** A creation loses its commit only to a job with the same key. */
  ghost predicate LosersHaveWinners(w: World) {
    forall o :: o in w.sessions && w.sessions[o].request.Create? && w.sessions[o].pc.Lost? && ApiValid(w.sessions[o].request) ==>
      HasKey(w.store, w.sessions[o].request.tenant, w.sessions[o].request.key)
  }

  lemma StepKeepsWinners(w: World, a: Action)
    requires WorldInv(w) && LosersHaveWinners(w) && FreshIds(w, a)
    ensures LosersHaveWinners(Step(w, a))
  {
    hide StoreInv, SessionInv, MoveTransition, MoveRetry, MoveCreate;
    StepPersists(w, a);
    RequestsKept(w, a);
    var w' := Step(w, a);
    forall o | o in w'.sessions && w'.sessions[o].request.Create? && w'.sessions[o].pc.Lost? && ApiValid(w'.sessions[o].request)
      ensures HasKey(w'.store, w'.sessions[o].request.tenant, w'.sessions[o].request.key)
    {
      var q := w'.sessions[o].request;
      if o in w.sessions && w.sessions[o].pc.Lost? {
        var k :| k in w.store.jobs && IsKeyed(w.store, q.tenant, q.key, k);
        assert IsKeyed(w'.store, q.tenant, q.key, k);
      } else {
        LostToKey(w, a, o);
      }
    }
  }

  lemma RequestsKept(w: World, a: Action)
    ensures forall o :: o in w.sessions ==> o in Step(w, a).sessions && Step(w, a).sessions[o].request == w.sessions[o].request
  {
    hide ApplyAll;
  }

  lemma LostToKey(w: World, a: Action, o: Id)
    requires WorldInv(w) && FreshIds(w, a)
    requires o in Step(w, a).sessions && Step(w, a).sessions[o].pc.Lost? && Step(w, a).sessions[o].request.Create?
    requires ApiValid(Step(w, a).sessions[o].request)
    requires !(o in w.sessions && w.sessions[o].pc.Lost?)
    ensures HasKey(Step(w, a).store, Step(w, a).sessions[o].request.tenant, Step(w, a).sessions[o].request.key)
  {
    hide ApplyAll, StoreInv, JobsConsistent, RunsConsistent;
    assert a.Move? && o == a.sid;
    var me := w.sessions[o];
    assert me.request.Create? && me.pc.Ready?;
    assert SessionInv(w.store, me);
    var Create(t, workspace, kind, key, maxAttempts, delay) := me.request;
    CreateApplies(w.store, a.job, Job(t, workspace, kind, key, Queued), a.run, Run(t, a.job, Queued, 1, maxAttempts, delay));
    NoRunsYet(w.store, a.job);
  }

  /** The branch without a winner is never taken: with fresh identifiers and API-valid requests, a creation
      that lost its commit always goes on to find a job. */
  lemma {:induction false} NoCreationWithoutWinner(w: World, schedule: seq<Action>)
    requires WorldInv(w) && LosersHaveWinners(w) && FreshSchedule(w, schedule)
    ensures LosersHaveWinners(Steps(w, schedule))
    decreases |schedule|
  {
    hide WorldInv, Step, LosersHaveWinners;
    if schedule != [] {
      StepKeepsInv(w, schedule[0]);
      StepKeepsWinners(w, schedule[0]);
      NoCreationWithoutWinner(Step(w, schedule[0]), schedule[1..]);
    }
  }
}
