/** Tenants do not see or disturb one another: a tenant's sessions act on the whole database as they
    would on the tenant's own rows alone. */
module ExecutionTenants {
  import opened Wrappers
  import opened Execution

  function TenantEvents(audit: seq<Event>, t: Id): seq<Event> {
    if audit == [] then []
    else
      var n := |audit| - 1;
      TenantEvents(audit[..n], t) + (if audit[n].tenant == t then [audit[n]] else [])
  }

  /** The database of one tenant. */
  function View(s: Store, t: Id): Store {
    Store(set p | p in s.workspaces && p.0 == t,
          map j | j in s.jobs && s.jobs[j].tenant == t :: s.jobs[j],
          map r | r in s.runs && s.runs[r].tenant == t :: s.runs[r],
          TenantEvents(s.audit, t))
  }

  /** The identifier is unused or the tenant's own. */
  predicate JobIdFree(s: Store, t: Id, j: Id) { j in s.jobs ==> s.jobs[j].tenant == t }
  predicate RunIdFree(s: Store, t: Id, r: Id) { r in s.runs ==> s.runs[r].tenant == t }

  predicate OwnsRunId(s: Store, t: Id, r: Id) { r in s.runs && s.runs[r].tenant == t }

  /** A write of rows and events of tenant `t` under identifiers that no other tenant uses. */
  predicate WriteOf(s: Store, t: Id, w: Write) {
    match w
    case SetJob(j, _) => OwnsJob(s, t, j)
    case SetRun(r, _) => OwnsRunId(s, t, r)
    case PutJob(j, job) => job.tenant == t && JobIdFree(s, t, j)
    case PutRun(r, run) => run.tenant == t && RunIdFree(s, t, r)
    case Log(e) => e.tenant == t
  }

  ghost predicate WritesOf(s: Store, t: Id, ws: seq<Write>) { forall i :: 0 <= i < |ws| ==> WriteOf(s, t, ws[i]) }

  // ---------- Queries see the tenant's rows only ----------

  lemma QueriesSeeView(s: Store, t: Id, j: Id, key: string)
    ensures OwnsJob(s, t, j) <==> OwnsJob(View(s, t), t, j)
    ensures HasKey(s, t, key) <==> HasKey(View(s, t), t, key)
    ensures IsKeyed(s, t, key, j) <==> IsKeyed(View(s, t), t, key, j)
    ensures HasRun(s, t, j) <==> HasRun(View(s, t), t, j)
    ensures forall r :: IsLatest(s, t, j, r) <==> IsLatest(View(s, t), t, j, r)
  {
    var v := View(s, t);
    assert forall k :: IsKeyed(s, t, key, k) <==> IsKeyed(v, t, key, k);
    assert forall r :: OwnsRun(s, t, j, r) <==> OwnsRun(v, t, j, r);
  }

  lemma InsertsSeeView(s: Store, t: Id, w: Write)
    requires WriteOf(s, t, w)
    ensures Insertable(s, w) <==> Insertable(View(s, t), w)
  {
    var v := View(s, t);
    if w.PutJob? {
      QueriesSeeView(s, t, w.id, w.job.key);
      assert (w.job.tenant, w.job.workspace) in s.workspaces <==> (w.job.tenant, w.job.workspace) in v.workspaces;
    } else if w.PutRun? {
      QueriesSeeView(s, t, w.run.job, "");
      assert forall r :: OwnsRun(s, t, w.run.job, r) <==> OwnsRun(v, t, w.run.job, r);
    }
  }

  // ---------- Writes act on the tenant's rows only ----------

  lemma EventsSnoc(audit: seq<Event>, e: Event, t: Id)
    ensures TenantEvents(audit + [e], t) == TenantEvents(audit, t) + (if e.tenant == t then [e] else [])
  {
    assert (audit + [e])[..|audit|] == audit;
  }

  lemma WriteOnOwnView(s: Store, t: Id, w: Write)
    requires WriteOf(s, t, w)
    ensures View(ApplyOne(s, w), t) == ApplyOne(View(s, t), w)
  {
    if w.Log? {
      EventsSnoc(s.audit, w.event, t);
    } else {
      hide TenantEvents;
      var v, v' := View(s, t), View(ApplyOne(s, w), t);
      if w.SetJob? || w.PutJob? {
        assert v'.jobs == ApplyOne(v, w).jobs;
      } else {
        assert v'.runs == ApplyOne(v, w).runs;
      }
    }
  }

  lemma JobWriteOnOtherView(s: Store, t: Id, w: Write, u: Id)
    requires WriteOf(s, t, w) && u != t && (w.SetJob? || w.PutJob?)
    ensures View(ApplyOne(s, w), u) == View(s, u)
  {
    hide TenantEvents;
    var v, v' := View(s, u), View(ApplyOne(s, w), u);
    forall j
      ensures j in v'.jobs <==> j in v.jobs
      ensures j in v.jobs ==> v'.jobs[j] == v.jobs[j]
    {
    }
    assert v'.jobs == v.jobs;
  }

  lemma RunWriteOnOtherView(s: Store, t: Id, w: Write, u: Id)
    requires WriteOf(s, t, w) && u != t && (w.SetRun? || w.PutRun?)
    ensures View(ApplyOne(s, w), u) == View(s, u)
  {
    hide TenantEvents;
    var v, v' := View(s, u), View(ApplyOne(s, w), u);
    forall r
      ensures r in v'.runs <==> r in v.runs
      ensures r in v.runs ==> v'.runs[r] == v.runs[r]
    {
    }
    assert v'.runs == v.runs;
  }

  lemma WriteOnOtherView(s: Store, t: Id, w: Write, u: Id)
    requires WriteOf(s, t, w) && u != t
    ensures View(ApplyOne(s, w), u) == View(s, u)
  {
    if w.Log? {
      EventsSnoc(s.audit, w.event, u);
    } else {
      hide View, WriteOf, ApplyOne;
      if w.SetJob? || w.PutJob? {
        JobWriteOnOtherView(s, t, w, u);
      } else {
        RunWriteOnOtherView(s, t, w, u);
      }
    }
  }

  /** A write of tenant `t` acts on the view of `t` and leaves the view of every other tenant alone. */
  lemma WriteOnView(s: Store, t: Id, w: Write, u: Id)
    requires WriteOf(s, t, w)
    ensures View(ApplyOne(s, w), t) == ApplyOne(View(s, t), w)
    ensures u != t ==> View(ApplyOne(s, w), u) == View(s, u)
  {
    hide View, ApplyOne, WriteOf;
    WriteOnOwnView(s, t, w);
    if u != t {
      WriteOnOtherView(s, t, w, u);
    }
  }

  lemma WritesStayOf(s: Store, t: Id, w: Write, ws: seq<Write>)
    requires WriteOf(s, t, w) && WritesOf(s, t, ws)
    ensures WritesOf(ApplyOne(s, w), t, ws)
  {
    forall i | 0 <= i < |ws|
      ensures WriteOf(ApplyOne(s, w), t, ws[i])
    {
      assert WriteOf(s, t, ws[i]);
    }
  }

  lemma {:induction false} CommitOnView(s: Store, t: Id, ws: seq<Write>, u: Id)
    requires WritesOf(s, t, ws)
    ensures ApplyAll(s, ws).Some? <==> ApplyAll(View(s, t), ws).Some?
    ensures ApplyAll(s, ws).Some? ==>
              && View(ApplyAll(s, ws).value, t) == ApplyAll(View(s, t), ws).value
              && (u != t ==> View(ApplyAll(s, ws).value, u) == View(s, u))
              && Keeps(s, ApplyAll(s, ws).value, t)
    decreases |ws|
  {
    hide View, Insertable, WriteOf;
    if ws != [] {
      InsertsSeeView(s, t, ws[0]);
      WriteOnView(s, t, ws[0], u);
      WritesStayOf(s, t, ws[0], ws[1..]);
      WriteKeeps(s, t, ws[0]);
      CommitOnView(ApplyOne(s, ws[0]), t, ws[1..], u);
    }
  }

  /** What was free for tenant `t` stays free, and what it owned stays its own. */
  ghost predicate Keeps(s: Store, s': Store, t: Id) {
    && (forall j :: JobIdFree(s, t, j) ==> JobIdFree(s', t, j)) && (forall r :: RunIdFree(s, t, r) ==> RunIdFree(s', t, r))
    && (forall j :: OwnsJob(s, t, j) ==> OwnsJob(s', t, j)) && (forall r :: OwnsRunId(s, t, r) ==> OwnsRunId(s', t, r))
  }

  lemma WriteKeeps(s: Store, t: Id, w: Write)
    requires WriteOf(s, t, w)
    ensures Keeps(s, ApplyOne(s, w), t)
  {
  }

  lemma KeptWrites(s: Store, s': Store, t: Id, ws: seq<Write>)
    requires Keeps(s, s', t) && WritesOf(s, t, ws)
    ensures WritesOf(s', t, ws)
  {
    forall i | 0 <= i < |ws|
      ensures WriteOf(s', t, ws[i])
    {
      assert WriteOf(s, t, ws[i]);
    }
  }

  // ---------- Sessions of one tenant ----------

  /** A session writes only its tenant's rows, and has read only them. */
  ghost predicate SessionOf(s: Store, t: Id, me: Session) {
    && me.request.tenant == t && WritesOf(s, t, me.writes)
    && (me.pc.JobSet? || me.pc.RunSet? || me.pc.ReadRun? ==> OwnsRunId(s, t, me.pc.run))
    && (!me.request.Create? && !me.pc.Start? && !me.pc.Done? ==> OwnsJob(s, t, me.request.job))
  }

  /** What one call of a session makes of the store, of the view of its tenant, and of the session. */
  ghost predicate Simulates(s: Store, t: Id, result: (Store, Session), viewResult: (Store, Session), u: Id) {
    && viewResult == (View(result.0, t), result.1)
    && SessionOf(result.0, t, result.1) && Keeps(s, result.0, t)
    && (u != t ==> View(result.0, u) == View(s, u))
  }

  lemma CommitSimulates(s: Store, t: Id, me: Session, ws: seq<Write>, success: Outcome, failure: Pc, u: Id)
    requires SessionOf(s, t, me) && WritesOf(s, t, ws) && (failure == Lost || failure.Done?) && (failure == Lost ==> me.request.Create?)
    ensures Simulates(s, t, CommitOr(s, me, ws, success, failure), CommitOr(View(s, t), me, ws, success, failure), u)
  {
    hide View, ApplyAll;
    CommitOnView(s, t, ws, u);
  }

  lemma TransitionSimulates(s: Store, t: Id, me: Session, jobHeld: bool, runHeld: bool, pick: Id, u: Id)
    requires SessionOf(s, t, me) && me.request.Transition? && RunIdFree(s, t, pick)
    ensures Simulates(s, t, MoveTransition(s, me, jobHeld, runHeld, pick), MoveTransition(View(s, t), me, jobHeld, runHeld, pick), u)
  {
    hide ApplyAll;
    var Transition(_, j, expected, target) := me.request;
    QueriesSeeView(s, t, j, "");
    if me.pc.RunSet? {
      hide View;
      CommitSimulates(s, t, me, me.writes + [Log(Transitioned(t, j, expected, target, me.pc.run))],
                      JobResult(j, me.pc.run, false), Done(InvalidTransition), u);
    }
  }

  lemma RetrySimulates(s: Store, t: Id, me: Session, jobHeld: bool, pick: Id, newId: Id, u: Id)
    requires SessionOf(s, t, me) && me.request.Retry? && RunIdFree(s, t, pick) && RunIdFree(s, t, newId)
    ensures Simulates(s, t, MoveRetry(s, me, jobHeld, pick, newId), MoveRetry(View(s, t), me, jobHeld, pick, newId), u)
  {
    hide ApplyAll, Insertable;
    var j := me.request.job;
    QueriesSeeView(s, t, j, "");
    if me.pc.JobSet? {
      InsertsSeeView(s, t, PutRun(newId, NextRun(t, j, me.pc.row)));
    } else if me.pc.Inserted? {
      hide View;
      CommitSimulates(s, t, me, me.writes + [Log(RetryReserved(t, j, me.pc.run, me.pc.newRun, me.pc.row.attempt, me.pc.row.attempt + 1))],
                      JobResult(j, me.pc.newRun, false), Done(InvalidTransition), u);
    }
  }

  lemma CreateSimulates(s: Store, t: Id, me: Session, job: Id, run: Id, u: Id)
    requires SessionOf(s, t, me) && me.request.Create? && JobIdFree(s, t, job) && RunIdFree(s, t, run)
    ensures Simulates(s, t, MoveCreate(s, me, job, run), MoveCreate(View(s, t), me, job, run), u)
  {
    hide ApplyAll, Insertable;
    var Create(_, workspace, kind, key, maxAttempts, delay) := me.request;
    QueriesSeeView(s, t, job, key);
    if me.pc.Found? {
      QueriesSeeView(s, t, me.pc.found, key);
    } else if me.pc.Ready? {
      hide View;
      CommitSimulates(s, t, me,
                      [PutJob(job, Job(t, workspace, kind, key, Queued)), PutRun(run, Run(t, job, Queued, 1, maxAttempts, delay)), Log(Created(t, job))],
                      JobResult(job, run, true), Lost, u);
    }
  }

  lemma KeptSession(s: Store, s': Store, t: Id, me: Session)
    requires SessionOf(s, t, me) && Keeps(s, s', t)
    ensures SessionOf(s', t, me)
  {
    KeptWrites(s, s', t, me.writes);
  }
}
