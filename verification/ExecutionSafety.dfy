/** Safety of the execution protocol over every schedule. */
module ExecutionSafety {
  import opened Wrappers
  import opened Execution
  import opened ExecutionInvariant

  /** One database call changes nothing but the session, or commits a change to job `j`: one it has
      locked, or a new one. Either way it adds at most one event. */
  ghost predicate GoodMove(s: Store, me: Session, s': Store, me': Session, j: Id, jobHeld: bool) {
    && StoreInv(s') && SessionInv(s', me') && me'.request == me.request
    && (s' == s
        || (Evolves(s, s', j) && (HoldsJob(me, j) || j !in s.jobs) && me'.writes == []
            && exists e :: s'.audit == s.audit + [e]))
    && (forall k :: HoldsJob(me', k) ==> HoldsJob(me, k) || (k == j && !jobHeld && j in s.jobs))
  }

  lemma HoldsAppend(me: Session, pc: Pc, w: Write)
    requires !w.SetJob?
    ensures forall k :: HoldsJob(me.(pc := pc, writes := me.writes + [w]), k) ==> HoldsJob(me, k)
  {
    forall k | HoldsJob(me.(pc := pc, writes := me.writes + [w]), k)
      ensures HoldsJob(me, k)
    {
      var i :| 0 <= i < |me.writes + [w]| && (me.writes + [w])[i].SetJob? && (me.writes + [w])[i].id == k;
      assert me.writes[i] == (me.writes + [w])[i];
    }
  }

  lemma TransitionGood(s: Store, me: Session, jobHeld: bool, runHeld: bool, pick: Id)
    requires StoreInv(s) && SessionInv(s, me) && me.request.Transition?
    ensures var (s', me') := MoveTransition(s, me, jobHeld, runHeld, pick);
            GoodMove(s, me, s', me', me.request.job, jobHeld)
    ensures me.pc.RunSet? ==> MoveTransition(s, me, jobHeld, runHeld, pick).1.pc == Done(JobResult(me.request.job, me.pc.run, false))
  {
    hide StoreInv, ApplyAll;
    var Transition(t, j, expected, target) := me.request;
    if me.pc.RunSet? {
      var r := me.pc.run;
      var e := Transitioned(t, j, expected, target, r);
      assert me.writes + [Log(e)] == [SetJob(j, target), SetRun(r, target), Log(e)];
      TransitionApplies(s, t, j, r, expected, target);
      TransitionKeepsInv(s, t, j, r, expected, target);
      assert me.writes[0] == SetJob(j, target);
    } else if me.pc.JobSet? {
      HoldsAppend(me, RunSet(me.pc.run), SetRun(me.pc.run, target));
      assert me.writes + [SetRun(me.pc.run, target)] == [SetJob(j, target), SetRun(me.pc.run, target)];
    }
  }

  lemma RetryGood(s: Store, me: Session, jobHeld: bool, pick: Id, newId: Id)
    requires StoreInv(s) && SessionInv(s, me) && me.request.Retry?
    ensures var (s', me') := MoveRetry(s, me, jobHeld, pick, newId);
            GoodMove(s, me, s', me', me.request.job, jobHeld)
  {
    hide StoreInv, ApplyAll;
    var Retry(t, j, attempt) := me.request;
    if me.pc.Inserted? {
      var Inserted(r, row, newRun) := me.pc;
      var e := RetryReserved(t, j, r, newRun, row.attempt, row.attempt + 1);
      assert me.writes + [Log(e)] == [SetJob(j, Queued), PutRun(newRun, NextRun(t, j, row)), Log(e)];
      RunsChecked(s, r);
      RetryApplies(s, t, j, r, row, newRun);
      if newRun !in s.runs {
        RetryKeepsInv(s, t, j, r, row, newRun);
      }
      assert me.writes[0] == SetJob(j, Queued);
    } else if me.pc.JobSet? {
      var put := PutRun(newId, NextRun(t, j, me.pc.row));
      HoldsAppend(me, Inserted(me.pc.run, me.pc.row, newId), put);
      RunsOfTenant(s, t, j);
      assert me.writes + [put] == [SetJob(j, Queued), put];
    }
  }

  lemma RunsChecked(s: Store, r: Id)
    requires StoreInv(s) && r in s.runs
    ensures RunChecks(s.runs[r])
  {
    assert RunConsistent(s, r);
  }

  /** Runs of a job carry its tenant. */
  lemma RunsOfTenant(s: Store, t: Id, j: Id)
    requires StoreInv(s) && OwnsJob(s, t, j)
    ensures forall r :: r in s.runs && s.runs[r].job == j ==> OwnsRun(s, t, j, r)
  {
    assert forall r :: r in s.runs ==> RunConsistent(s, r);
  }

  lemma CreateGood(s: Store, me: Session, job: Id, run: Id)
    requires StoreInv(s) && SessionInv(s, me) && me.request.Create?
    ensures var (s', me') := MoveCreate(s, me, job, run);
            GoodMove(s, me, s', me', job, true)
  {
    hide StoreInv, ApplyAll;
    if me.pc.Ready? {
      var Create(t, workspace, kind, key, maxAttempts, delay) := me.request;
      var row, first := Job(t, workspace, kind, key, Queued), Run(t, job, Queued, 1, maxAttempts, delay);
      CreateApplies(s, job, row, run, first);
      if Insertable(s, PutJob(job, row)) && run !in s.runs && RunChecks(first) {
        CreateKeepsInv(s, job, row, run, first);
      }
    }
  }

  lemma HolderOwns(s: Store, o: Session, j: Id)
    requires SessionInv(s, o) && HoldsJob(o, j)
    ensures !o.request.Create? && j == o.request.job && OwnsJob(s, o.request.tenant, j)
  {
  }

  /** Whatever a good move does, the other sessions and the exclusive locks are undisturbed. */
  lemma MoveKeepsInv(w: World, sid: Id, s': Store, me': Session, j: Id, jobHeld: bool)
    requires WorldInv(w) && sid in w.sessions
    requires GoodMove(w.store, w.sessions[sid], s', me', j, jobHeld)
    requires !jobHeld ==> !JobHeld(w, sid, j)
    ensures WorldInv(World(s', w.sessions[sid := me']))
  {
    hide StoreInv, SessionInv, Evolves, HoldsJob;
    var s := w.store;
    forall o | o in w.sessions && o != sid
      ensures SessionInv(s', w.sessions[o])
    {
      if s' != s {
        if HoldsJob(w.sessions[o], j) {
          HolderOwns(s, w.sessions[o], j);
        }
        SessionStable(s, s', j, w.sessions[o]);
      }
    }
  }

  lemma StepKeepsInv(w: World, a: Action)
    requires WorldInv(w)
    ensures WorldInv(Step(w, a))
  {
    hide StoreInv, SessionInv, MoveTransition, MoveRetry, MoveCreate, GoodMove;
    if a.Begin? {
      BeginGood(w.store, a.request);
    } else if a.sid in w.sessions {
      var me := w.sessions[a.sid];
      match me.request {
        case Transition(_, j, _, _) =>
          var held, runHeld := JobHeld(w, a.sid, j), RunHeld(w, a.sid, PcRun(me.pc));
          TransitionGood(w.store, me, held, runHeld, a.run);
          var (s', me') := MoveTransition(w.store, me, held, runHeld, a.run);
          MoveKeepsInv(w, a.sid, s', me', j, held);
        case Retry(_, j, _) =>
          var held := JobHeld(w, a.sid, j);
          RetryGood(w.store, me, held, a.job, a.run);
          var (s', me') := MoveRetry(w.store, me, held, a.job, a.run);
          MoveKeepsInv(w, a.sid, s', me', j, held);
        case Create(_, _, _, _, _, _) =>
          CreateGood(w.store, me, a.job, a.run);
          var (s', me') := MoveCreate(w.store, me, a.job, a.run);
          MoveKeepsInv(w, a.sid, s', me', a.job, true);
      }
    }
  }

  lemma BeginGood(s: Store, q: Request)
    ensures SessionInv(s, Session(q, Start, [])) && forall j :: !HoldsJob(Session(q, Start, []), j)
  {
  }

  /** The invariant holds after every schedule of any number of sessions. */
  lemma {:induction false} StepsKeepInv(w: World, schedule: seq<Action>)
    requires WorldInv(w)
    ensures WorldInv(Steps(w, schedule))
    decreases |schedule|
  {
    hide WorldInv, Step;
    if schedule != [] {
      StepKeepsInv(w, schedule[0]);
      StepsKeepInv(Step(w, schedule[0]), schedule[1..]);
    }
  }

  lemma InitialInv(w: World)
    requires Initial(w)
    ensures WorldInv(w)
  {
  }
}
