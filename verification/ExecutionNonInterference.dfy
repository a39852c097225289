/** Whatever other tenants' sessions do in between, a tenant's sessions get the answers and leave the rows that
    they would on the tenant's own rows alone. */
module ExecutionNonInterference {
  import opened Wrappers
  import opened Execution
  import opened ExecutionInvariant
  import opened ExecutionTenants

  /** The rows and the sessions of one tenant. */
  function TenantWorld(w: World, t: Id): World {
    World(View(w.store, t), map o | o in w.sessions && w.sessions[o].request.tenant == t :: w.sessions[o])
  }

  predicate Puts(ws: seq<Write>, r: Id) { exists i :: 0 <= i < |ws| && ws[i].PutRun? && ws[i].id == r }

  predicate Pends(me: Session, r: Id) { Puts(me.writes, r) }

  /** A creation writes nothing before its commit. */
  predicate NoJobPending(me: Session) { forall i :: 0 <= i < |me.writes| ==> !me.writes[i].PutJob? }

  /** Every session works on its tenant's rows, and sessions of two tenants insert different runs. */
  ghost predicate Separate(w: World) {
    && (forall o :: o in w.sessions ==> SessionOf(w.store, w.sessions[o].request.tenant, w.sessions[o]) && NoJobPending(w.sessions[o]))
    && (forall o, p, r ::
          o in w.sessions && p in w.sessions && Pends(w.sessions[o], r) && Pends(w.sessions[p], r)
          ==> w.sessions[o].request.tenant == w.sessions[p].request.tenant)
  }

  /** The tenant for whom the action is taken; None if it does nothing. */
  function ActorOf(w: World, a: Action): Option<Id> {
    match a
    case Begin(_, q) => Some(q.tenant)
    case Move(sid, _, _) => if sid in w.sessions then Some(w.sessions[sid].request.tenant) else None
  }

  /** Identifiers are not shared by tenants: neither those of sessions, nor those of rows, committed or pending. */
  predicate Fits(w: World, a: Action) {
    match a
    case Begin(sid, q) => sid in w.sessions ==> w.sessions[sid].request.tenant == q.tenant
    case Move(sid, job, run) =>
      sid in w.sessions ==>
        var t := w.sessions[sid].request.tenant;
        && JobIdFree(w.store, t, job) && RunIdFree(w.store, t, job) && RunIdFree(w.store, t, run)
        && forall o :: o in w.sessions && w.sessions[o].request.tenant != t ==> !Pends(w.sessions[o], run)
  }

  // ---------- Locks of other tenants are on other rows ----------

  lemma LocksSeeView(w: World, sid: Id)
    requires Separate(w) && sid in w.sessions && !w.sessions[sid].request.Create?
    requires !w.sessions[sid].pc.Start? && !w.sessions[sid].pc.Done?
    ensures
      var me := w.sessions[sid];
      var v := TenantWorld(w, me.request.tenant);
      && JobHeld(w, sid, me.request.job) == JobHeld(v, sid, me.request.job)
      && (me.pc.JobSet? ==> RunHeld(w, sid, me.pc.run) == RunHeld(v, sid, me.pc.run))
  {
    hide View;
    var me := w.sessions[sid];
    var t, j := me.request.tenant, me.request.job;
    var v := TenantWorld(w, t);
    assert SessionOf(w.store, t, me);
    forall o | o in w.sessions && w.sessions[o].request.tenant != t
      ensures !HoldsJob(w.sessions[o], j) && (me.pc.JobSet? ==> !HoldsRun(w.sessions[o], me.pc.run))
    {
      var u := w.sessions[o].request.tenant;
      assert SessionOf(w.store, u, w.sessions[o]);
      forall i | 0 <= i < |w.sessions[o].writes|
        ensures WriteOf(w.store, u, w.sessions[o].writes[i])
      {
      }
    }
    assert forall o :: o in v.sessions ==> v.sessions[o] == w.sessions[o];
  }

  // ---------- One call ----------

  /** The call gives the session and its tenant's rows what it gives them on those rows alone. */
  lemma CallOnView(w: World, sid: Id, job: Id, run: Id, u: Id)
    requires Separate(w) && sid in w.sessions && Fits(w, Move(sid, job, run))
    ensures var t := w.sessions[sid].request.tenant;
            Simulates(w.store, t, Moved(w, sid, job, run), Moved(TenantWorld(w, t), sid, job, run), u)
  {
    var me := w.sessions[sid];
    var t := me.request.tenant;
    var v := TenantWorld(w, t);
    assert SessionOf(w.store, t, me) && v.sessions[sid] == me;
    if me.request.Create? {
      CreateSimulates(w.store, t, me, job, run, u);
    } else if me.pc.Start? || me.pc.Done? {
      StartIgnoresLocks(w.store, me, JobHeld(w, sid, me.request.job), RunHeld(w, sid, PcRun(me.pc)), job, run);
      StartIgnoresLocks(v.store, me, JobHeld(v, sid, me.request.job), RunHeld(v, sid, PcRun(me.pc)), job, run);
      hide View, MoveTransition, MoveRetry, SessionOf;
      if me.request.Transition? {
        TransitionSimulates(w.store, t, me, false, false, run, u);
      } else {
        RetrySimulates(w.store, t, me, false, job, run, u);
      }
    } else {
      LocksSeeView(w, sid);
      var jobHeld, runHeld := JobHeld(w, sid, me.request.job), me.pc.JobSet? && RunHeld(w, sid, PcRun(me.pc));
      if me.request.Transition? && !me.pc.JobSet? {
        RunLockMattersAtJobSet(w.store, me, jobHeld, RunHeld(w, sid, PcRun(me.pc)), run);
        RunLockMattersAtJobSet(v.store, me, jobHeld, RunHeld(v, sid, PcRun(me.pc)), run);
      }
      hide View, MoveTransition, MoveRetry, JobHeld, RunHeld, SessionOf;
      if me.request.Transition? {
        TransitionSimulates(w.store, t, me, jobHeld, runHeld, run, u);
      } else {
        RetrySimulates(w.store, t, me, jobHeld, job, run, u);
      }
    }
  }

  /** Before its first read and after its answer a session waits for no lock. */
  lemma StartIgnoresLocks(s: Store, me: Session, jobHeld: bool, runHeld: bool, job: Id, run: Id)
    requires !me.request.Create? && (me.pc.Start? || me.pc.Done?)
    ensures me.request.Transition? ==> MoveTransition(s, me, jobHeld, runHeld, run) == MoveTransition(s, me, false, false, run)
    ensures me.request.Retry? ==> MoveRetry(s, me, jobHeld, job, run) == MoveRetry(s, me, false, job, run)
  {
  }

  /** It waits for the lock of a run only behind the compare-and-set of the job. */
  lemma RunLockMattersAtJobSet(s: Store, me: Session, jobHeld: bool, runHeld: bool, run: Id)
    requires me.request.Transition? && !me.pc.JobSet?
    ensures MoveTransition(s, me, jobHeld, runHeld, run) == MoveTransition(s, me, jobHeld, false, run)
  {
    hide ApplyAll;
  }

  // ---------- What a call of one tenant leaves alone ----------

  /** Rows stay with their tenants, and new runs are those of the writes. */
  ghost predicate Grows(s: Store, s': Store, ws: seq<Write>) {
    && (forall j :: j in s.jobs ==> j in s'.jobs && s'.jobs[j].tenant == s.jobs[j].tenant)
    && (forall r :: r in s.runs ==> r in s'.runs && s'.runs[r].tenant == s.runs[r].tenant)
    && (forall r :: r in s'.runs && r !in s.runs ==> Puts(ws, r))
  }

  lemma {:induction false} CommitGrows(s: Store, ws: seq<Write>)
    requires ApplyAll(s, ws).Some?
    ensures Grows(s, ApplyAll(s, ws).value, ws)
    decreases |ws|
  {
    if ws != [] {
      var s1 := ApplyOne(s, ws[0]);
      CommitGrows(s1, ws[1..]);
      forall r | Puts(ws[1..], r) || (ws[0].PutRun? && ws[0].id == r)
        ensures Puts(ws, r)
      {
        if i :| 0 <= i < |ws[1..]| && ws[1..][i].PutRun? && ws[1..][i].id == r {
          assert ws[i + 1] == ws[1..][i];
        }
      }
    }
  }

  /** What a call inserts it had pending or takes from the action, and so is what it leaves pending. */
  ghost predicate Inserts(s: Store, me: Session, run: Id, result: (Store, Session)) {
    && (forall j :: j in s.jobs ==> j in result.0.jobs && result.0.jobs[j].tenant == s.jobs[j].tenant)
    && (forall r :: r in s.runs ==> r in result.0.runs && result.0.runs[r].tenant == s.runs[r].tenant)
    && (forall r :: r in result.0.runs && r !in s.runs ==> r == run || Pends(me, r))
    && (forall r :: Pends(result.1, r) ==> r == run || Pends(me, r))
    && result.1.request == me.request && (NoJobPending(me) ==> NoJobPending(result.1))
  }

  lemma CommitInserts(s: Store, me: Session, ws: seq<Write>, success: Outcome, failure: Pc, run: Id)
    requires forall r :: Puts(ws, r) ==> r == run || Pends(me, r)
    ensures Inserts(s, me, run, CommitOr(s, me, ws, success, failure))
  {
    hide ApplyAll;
    if ApplyAll(s, ws).Some? { CommitGrows(s, ws); }
  }

  lemma MoveInserts(w: World, sid: Id, job: Id, run: Id)
    requires sid in w.sessions
    ensures Inserts(w.store, w.sessions[sid], run, Moved(w, sid, job, run))
  {
    hide ApplyAll, Insertable, JobHeld, RunHeld, IsLatest, HasRun, HasKey, IsKeyed;
    var s, me := w.store, w.sessions[sid];
    var t := me.request.tenant;
    match me.request {
      case Transition(_, j, expected, target) =>
        if me.pc.RunSet? {
          CommitInserts(s, me, me.writes + [Log(Transitioned(t, j, expected, target, me.pc.run))],
                        JobResult(j, me.pc.run, false), Done(InvalidTransition), run);
        }
      case Retry(_, j, _) =>
        if me.pc.Inserted? {
          CommitInserts(s, me, me.writes + [Log(RetryReserved(t, j, me.pc.run, me.pc.newRun, me.pc.row.attempt, me.pc.row.attempt + 1))],
                        JobResult(j, me.pc.newRun, false), Done(InvalidTransition), run);
        }
      case Create(_, workspace, kind, key, maxAttempts, delay) =>
        if me.pc.Ready? {
          CommitInserts(s, me,
                        [PutJob(job, Job(t, workspace, kind, key, Queued)), PutRun(run, Run(t, job, Queued, 1, maxAttempts, delay)), Log(Created(t, job))],
                        JobResult(job, run, true), Lost, run);
        }
    }
  }

  /** The sessions of other tenants keep working on their tenants' rows. */
  lemma OtherSessionKept(s: Store, me: Session, run: Id, result: (Store, Session), u: Id, o: Session)
    requires Inserts(s, me, run, result) && SessionOf(s, u, o)
    requires forall r :: Pends(o, r) ==> r != run && !Pends(me, r)
    requires NoJobPending(o)
    ensures SessionOf(result.0, u, o)
  {
    forall i | 0 <= i < |o.writes|
      ensures WriteOf(result.0, u, o.writes[i])
    {
      assert WriteOf(s, u, o.writes[i]);
      if o.writes[i].PutRun? { assert Pends(o, o.writes[i].id); }
    }
  }

  // ---------- One step ----------

  lemma MoveKeepsSeparate(w: World, sid: Id, job: Id, run: Id)
    requires Separate(w) && sid in w.sessions && Fits(w, Move(sid, job, run))
    ensures Separate(Step(w, Move(sid, job, run)))
  {
    var me, result := w.sessions[sid], Moved(w, sid, job, run);
    var t, w' := me.request.tenant, Step(w, Move(sid, job, run));
    CallOnView(w, sid, job, run, t);
    MoveInserts(w, sid, job, run);
    hide Moved, View, SessionOf, Puts;
    forall o | o in w'.sessions
      ensures SessionOf(w'.store, w'.sessions[o].request.tenant, w'.sessions[o])
    {
      if o != sid {
        if w.sessions[o].request.tenant == t {
          KeptSession(w.store, result.0, t, w.sessions[o]);
        } else {
          OtherSessionKept(w.store, me, run, result, w.sessions[o].request.tenant, w.sessions[o]);
        }
      }
    }
  }

  lemma MoveOnView(w: World, sid: Id, job: Id, run: Id)
    requires Separate(w) && sid in w.sessions && Fits(w, Move(sid, job, run))
    ensures var t := w.sessions[sid].request.tenant;
            TenantWorld(Step(w, Move(sid, job, run)), t) == Step(TenantWorld(w, t), Move(sid, job, run))
  {
    var t, w' := w.sessions[sid].request.tenant, Step(w, Move(sid, job, run));
    CallOnView(w, sid, job, run, t);
    MoveInserts(w, sid, job, run);
    hide Moved, View, SessionOf, Puts, Fits, Separate;
    assert TenantWorld(w', t).sessions == Step(TenantWorld(w, t), Move(sid, job, run)).sessions;
  }

  lemma MoveOnOtherView(w: World, sid: Id, job: Id, run: Id, u: Id)
    requires Separate(w) && sid in w.sessions && Fits(w, Move(sid, job, run)) && w.sessions[sid].request.tenant != u
    ensures TenantWorld(Step(w, Move(sid, job, run)), u) == TenantWorld(w, u)
  {
    CallOnView(w, sid, job, run, u);
    MoveInserts(w, sid, job, run);
    hide Moved, View, SessionOf, Puts, Fits, Separate;
    assert TenantWorld(Step(w, Move(sid, job, run)), u).sessions == TenantWorld(w, u).sessions;
  }

  /** An action of tenant `t` does to the world of `t` what it would do there alone, and nothing to the worlds
      of others. */
  lemma StepOnView(w: World, a: Action, t: Id)
    requires Separate(w) && Fits(w, a)
    ensures Separate(Step(w, a))
    ensures TenantWorld(Step(w, a), t) == if ActorOf(w, a) == Some(t) then Step(TenantWorld(w, t), a) else TenantWorld(w, t)
  {
    match a {
      case Begin(sid, q) =>
        hide View;
        assert TenantWorld(Step(w, a), t).sessions
            == (if q.tenant == t then Step(TenantWorld(w, t), a) else TenantWorld(w, t)).sessions;
      case Move(sid, job, run) =>
        hide View, Moved;
        if sid in w.sessions {
          MoveKeepsSeparate(w, sid, job, run);
          if w.sessions[sid].request.tenant == t {
            MoveOnView(w, sid, job, run);
          } else {
            MoveOnOtherView(w, sid, job, run, t);
          }
        }
    }
  }

  // ---------- Whole schedules ----------

  ghost predicate FitsAll(w: World, schedule: seq<Action>)
    decreases |schedule|
  {
    schedule == [] || (Fits(w, schedule[0]) && FitsAll(Step(w, schedule[0]), schedule[1..]))
  }

  /** The tenant's own part of a mixed schedule. */
  ghost function Own(w: World, t: Id, schedule: seq<Action>): seq<Action>
    decreases |schedule|
  {
    if schedule == [] then []
    else (if ActorOf(w, schedule[0]) == Some(t) then [schedule[0]] else []) + Own(Step(w, schedule[0]), t, schedule[1..])
  }

  /** A mixed schedule of any tenants' sessions does to the world of each tenant what the tenant's own part of
      it does there alone. In particular it leaves a tenant without a part in it as it was. */
  lemma {:induction false} MixedScheduleOnView(w: World, schedule: seq<Action>, t: Id)
    requires Separate(w) && FitsAll(w, schedule)
    ensures TenantWorld(Steps(w, schedule), t) == Steps(TenantWorld(w, t), Own(w, t, schedule))
    decreases |schedule|
  {
    hide TenantWorld, Step, Separate, Fits, ActorOf;
    if schedule != [] {
      var a, own := schedule[0], Own(Step(w, schedule[0]), t, schedule[1..]);
      StepOnView(w, a, t);
      MixedScheduleOnView(Step(w, a), schedule[1..], t);
      assert ([a] + own)[0] == a && ([a] + own)[1..] == own;
      assert [] + own == own;
    }
  }

  /** Non-interference: two databases, two sets of running sessions and two schedules that agree on tenant `t`
      end with the same answers and rows of `t`, whatever other tenants hold and do. */
  lemma NonInterference(w1: World, w2: World, t: Id, schedule1: seq<Action>, schedule2: seq<Action>)
    requires Separate(w1) && FitsAll(w1, schedule1) && Separate(w2) && FitsAll(w2, schedule2)
    requires TenantWorld(w1, t) == TenantWorld(w2, t) && Own(w1, t, schedule1) == Own(w2, t, schedule2)
    ensures TenantWorld(Steps(w1, schedule1), t) == TenantWorld(Steps(w2, schedule2), t)
  {
    hide TenantWorld, Separate, Own, FitsAll;
    MixedScheduleOnView(w1, schedule1, t);
    MixedScheduleOnView(w2, schedule2, t);
  }

  /** An empty world is separate. */
  lemma InitialSeparate(w: World)
    requires Initial(w)
    ensures Separate(w)
  {
  }
}
