/** Execution jobs, runs and audit events: the tables, their constraints, and the sessions that change
    them concurrently. */
module Execution {
  import opened Wrappers

  datatype Status = Queued | Running | AwaitingApproval | Approved | Rejected | Succeeded | Failed | Cancelled

  function Allowed(s: Status): set<Status> {
    match s
    case Queued => {Running, Cancelled}
    case Running => {AwaitingApproval, Succeeded, Failed, Cancelled}
    case AwaitingApproval => {Approved, Rejected, Cancelled}
    case Approved => {Running, Cancelled}
    case _ => {}
  }

  predicate Terminal(s: Status) { s == Rejected || s == Succeeded || s == Failed || s == Cancelled }

  type Id = nat

  datatype Job = Job(tenant: Id, workspace: Id, kind: string, key: string, status: Status)

  datatype Run = Run(tenant: Id, job: Id, status: Status, attempt: int, maxAttempts: int, delay: int)

  datatype Event =
    | Created(tenant: Id, job: Id)
    | Transitioned(tenant: Id, job: Id, prior: Status, target: Status, run: Id)
    | RetryReserved(tenant: Id, job: Id, priorRun: Id, newRun: Id, priorAttempt: int, newAttempt: int)

  /** The committed rows; events in commit order. */
  datatype Store = Store(workspaces: set<(Id, Id)>, jobs: map<Id, Job>, runs: map<Id, Run>, audit: seq<Event>)

  // ---------- Queries; every one carries the tenant ----------

  predicate OwnsJob(s: Store, t: Id, j: Id) { j in s.jobs && s.jobs[j].tenant == t }

  predicate OwnsRun(s: Store, t: Id, j: Id, r: Id) { r in s.runs && s.runs[r].tenant == t && s.runs[r].job == j }

  predicate HasRun(s: Store, t: Id, j: Id) { exists r :: r in s.runs && OwnsRun(s, t, j, r) }

  /** `r` answers the query ordered by descending attempt with limit 1. */
  predicate IsLatest(s: Store, t: Id, j: Id, r: Id) {
    OwnsRun(s, t, j, r) && forall q :: q in s.runs && OwnsRun(s, t, j, q) ==> s.runs[q].attempt <= s.runs[r].attempt
  }

  predicate IsKeyed(s: Store, t: Id, key: string, j: Id) { OwnsJob(s, t, j) && s.jobs[j].key == key }

  predicate HasKey(s: Store, t: Id, key: string) { exists j :: j in s.jobs && IsKeyed(s, t, key, j) }

  // ---------- Writes and constraints ----------

  datatype Write =
    | SetJob(id: Id, status: Status)
    | SetRun(id: Id, status: Status)
    | PutJob(id: Id, job: Job)
    | PutRun(id: Id, run: Run)
    | Log(event: Event)

  predicate RunChecks(r: Run) { 1 <= r.attempt <= r.maxAttempts <= 10 && 0 <= r.delay <= 86400 }

  /** Primary keys, unique, foreign-key and check constraints of an insert. */
  predicate Insertable(s: Store, w: Write) {
    match w
    case PutJob(id, job) => id !in s.jobs && !HasKey(s, job.tenant, job.key) && (job.tenant, job.workspace) in s.workspaces
    case PutRun(id, run) =>
      && id !in s.runs && OwnsJob(s, run.tenant, run.job) && RunChecks(run)
      && forall r :: r in s.runs && OwnsRun(s, run.tenant, run.job, r) ==> s.runs[r].attempt != run.attempt
    case _ => true
  }

  function ApplyOne(s: Store, w: Write): Store {
    match w
    case SetJob(id, status) => if id in s.jobs then s.(jobs := s.jobs[id := s.jobs[id].(status := status)]) else s
    case SetRun(id, status) => if id in s.runs then s.(runs := s.runs[id := s.runs[id].(status := status)]) else s
    case PutJob(id, job) => s.(jobs := s.jobs[id := job])
    case PutRun(id, run) => s.(runs := s.runs[id := run])
    case Log(e) => s.(audit := s.audit + [e])
  }

  /** The store after a commit; None is an IntegrityError. */
  function ApplyAll(s: Store, ws: seq<Write>): Option<Store>
    decreases |ws|
  {
    if ws == [] then Some(s)
    else if Insertable(s, ws[0]) then ApplyAll(ApplyOne(s, ws[0]), ws[1..])
    else None
  }

  // ---------- Sessions ----------

  datatype Request =
    | Create(tenant: Id, workspace: Id, kind: string, key: string, maxAttempts: int, delay: int)
    | Transition(tenant: Id, job: Id, expected: Status, target: Status)
    | Retry(tenant: Id, job: Id, attempt: int)

  datatype Outcome = JobResult(job: Id, run: Id, created: bool) | Conflict | InvalidTransition | NotFound

  /** Where a session stands and what it has read. */
  datatype Pc =
    | Start
    | NoJob                            // create: no job has the key
    | Ready                            // create: the workspace exists
    | Lost                             // create: the commit failed and was rolled back
    | Found(found: Id, job: Job)       // create: a job with the key has been read
    | ReadJob(job: Job)                // the job row has been read
    | ReadRun(run: Id, row: Run)       // the latest run has been read and the statuses fit
    | JobSet(run: Id, row: Run)        // the compare-and-set of the job succeeded
    | RunSet(run: Id)                  // transition: the compare-and-set of the run succeeded
    | Inserted(run: Id, row: Run, newRun: Id)  // retry: the new run is inserted
    | Done(outcome: Outcome)

  /** `writes` is private until commit. A SetJob or SetRun in it locks that row. */
  datatype Session = Session(request: Request, pc: Pc, writes: seq<Write>)

  datatype World = World(store: Store, sessions: map<Id, Session>)

  predicate HoldsJob(me: Session, j: Id) { exists i :: 0 <= i < |me.writes| && me.writes[i].SetJob? && me.writes[i].id == j }

  predicate HoldsRun(me: Session, r: Id) { exists i :: 0 <= i < |me.writes| && me.writes[i].SetRun? && me.writes[i].id == r }

  predicate JobHeld(w: World, sid: Id, j: Id) { exists o :: o in w.sessions && o != sid && HoldsJob(w.sessions[o], j) }

  predicate RunHeld(w: World, sid: Id, r: Id) { exists o :: o in w.sessions && o != sid && HoldsRun(w.sessions[o], r) }

  /** Roll back and answer. */
  function Finish(me: Session, o: Outcome): Session { me.(pc := Done(o), writes := []) }

  function CommitOr(s: Store, me: Session, ws: seq<Write>, success: Outcome, failure: Pc): (Store, Session) {
    match ApplyAll(s, ws)
    case Some(s') => (s', Finish(me, success))
    case None => (s, me.(pc := failure, writes := []))
  }

  /** One database call of a transition. `pick` is the answer of the latest-run query. */
  function MoveTransition(s: Store, me: Session, jobHeld: bool, runHeld: bool, pick: Id): (Store, Session)
    requires me.request.Transition?
  {
    var Transition(t, j, expected, target) := me.request;
    match me.pc
    case Start =>
      if target !in Allowed(expected) then (s, Finish(me, InvalidTransition))
      else if !OwnsJob(s, t, j) then (s, Finish(me, NotFound))
      else (s, me.(pc := ReadJob(s.jobs[j])))
    case ReadJob(job) =>
      if !HasRun(s, t, j) then (s, Finish(me, NotFound))
      else if !IsLatest(s, t, j, pick) then (s, me)
      else if job.status != expected || s.runs[pick].status != expected then (s, Finish(me, InvalidTransition))
      else (s, me.(pc := ReadRun(pick, s.runs[pick])))
    case ReadRun(r, row) =>
      if jobHeld then (s, me)
      else if OwnsJob(s, t, j) && s.jobs[j].status == expected then
        (s, me.(pc := JobSet(r, row), writes := [SetJob(j, target)]))
      else (s, Finish(me, InvalidTransition))
    case JobSet(r, row) =>
      if runHeld then (s, me)
      else if r in s.runs && s.runs[r].tenant == t && s.runs[r].status == expected then
        (s, me.(pc := RunSet(r), writes := me.writes + [SetRun(r, target)]))
      else (s, Finish(me, InvalidTransition))
    case RunSet(r) =>
      CommitOr(s, me, me.writes + [Log(Transitioned(t, j, expected, target, r))], JobResult(j, r, false), Done(InvalidTransition))
    case _ => (s, me)
  }

  /** One database call of a retry. `pick` is the answer of the latest-run query, `newId` the new run's identifier. */
  function MoveRetry(s: Store, me: Session, jobHeld: bool, pick: Id, newId: Id): (Store, Session)
    requires me.request.Retry?
  {
    var Retry(t, j, attempt) := me.request;
    match me.pc
    case Start =>
      if !OwnsJob(s, t, j) then (s, Finish(me, NotFound)) else (s, me.(pc := ReadJob(s.jobs[j])))
    case ReadJob(job) =>
      if !HasRun(s, t, j) then (s, Finish(me, NotFound))
      else if !IsLatest(s, t, j, pick) then (s, me)
      else
        var row := s.runs[pick];
        if job.status != Failed || row.status != Failed || row.attempt != attempt || row.attempt >= row.maxAttempts then
          (s, Finish(me, InvalidTransition))
        else (s, me.(pc := ReadRun(pick, row)))
    case ReadRun(r, row) =>
      if jobHeld then (s, me)
      else if OwnsJob(s, t, j) && s.jobs[j].status == Failed then
        (s, me.(pc := JobSet(r, row), writes := [SetJob(j, Queued)]))
      else (s, Finish(me, InvalidTransition))
    case JobSet(r, row) =>
      var put := PutRun(newId, NextRun(t, j, row));
      if Insertable(s, put) then (s, me.(pc := Inserted(r, row, newId), writes := me.writes + [put]))
      else (s, Finish(me, InvalidTransition))
    case Inserted(r, row, newRun) =>
      CommitOr(s, me, me.writes + [Log(RetryReserved(t, j, r, newRun, row.attempt, row.attempt + 1))],
               JobResult(j, newRun, false), Done(InvalidTransition))
    case _ => (s, me)
  }

  function NextRun(t: Id, j: Id, prior: Run): Run {
    Run(t, j, Queued, prior.attempt + 1, prior.maxAttempts, prior.delay)
  }

  /** One database call of a creation. `pickJob` and `pickRun` answer queries or are new identifiers. */
  function MoveCreate(s: Store, me: Session, pickJob: Id, pickRun: Id): (Store, Session)
    requires me.request.Create?
  {
    var Create(t, workspace, kind, key, maxAttempts, delay) := me.request;
    match me.pc
    case Start =>
      if !HasKey(s, t, key) then (s, me.(pc := NoJob))
      else if IsKeyed(s, t, key, pickJob) then (s, me.(pc := Found(pickJob, s.jobs[pickJob])))
      else (s, me)
    case NoJob =>
      if (t, workspace) in s.workspaces then (s, me.(pc := Ready)) else (s, Finish(me, NotFound))
    case Ready =>
      CommitOr(s, me,
               [PutJob(pickJob, Job(t, workspace, kind, key, Queued)),
                PutRun(pickRun, Run(t, pickJob, Queued, 1, maxAttempts, delay)),
                Log(Created(t, pickJob))],
               JobResult(pickJob, pickRun, true), Lost)
    case Lost =>
      if !HasKey(s, t, key) then (s, Finish(me, Conflict))
      else if IsKeyed(s, t, key, pickJob) then (s, me.(pc := Found(pickJob, s.jobs[pickJob])))
      else (s, me)
    case Found(j, job) =>
      if !HasRun(s, t, j) then (s, Finish(me, NotFound))
      else if !IsLatest(s, t, j, pickRun) then (s, me)
      else
        var run := s.runs[pickRun];
        if job.workspace != workspace || job.kind != kind
           || run.maxAttempts != maxAttempts || run.delay != delay then (s, Finish(me, Conflict))
        else (s, Finish(me, JobResult(j, pickRun, false)))
    case _ => (s, me)
  }

  datatype Action = Begin(sid: Id, request: Request) | Move(sid: Id, job: Id, run: Id)

  function RequestJob(q: Request): Id { if q.Create? then 0 else q.job }

  function PcRun(pc: Pc): Id { if pc.JobSet? then pc.run else 0 }

  /** One database call of a session: the rows and the session after it. */
  function Moved(w: World, sid: Id, job: Id, run: Id): (Store, Session)
    requires sid in w.sessions
  {
    var me := w.sessions[sid];
    match me.request
    case Transition(_, j, _, _) => MoveTransition(w.store, me, JobHeld(w, sid, j), RunHeld(w, sid, PcRun(me.pc)), run)
    case Retry(_, j, _) => MoveRetry(w.store, me, JobHeld(w, sid, j), job, run)
    case Create(_, _, _, _, _, _) => MoveCreate(w.store, me, job, run)
  }

  /** One session makes one database call, or begins. */
  function Step(w: World, a: Action): World {
    match a
    case Begin(sid, q) => if sid in w.sessions then w else w.(sessions := w.sessions[sid := Session(q, Start, [])])
    case Move(sid, job, run) =>
      if sid !in w.sessions then w
      else
        var (s', me') := Moved(w, sid, job, run);
        World(s', w.sessions[sid := me'])
  }

  /** A schedule: any interleaving of any number of sessions. */
  function Steps(w: World, schedule: seq<Action>): World
    decreases |schedule|
  {
    if schedule == [] then w else Steps(Step(w, schedule[0]), schedule[1..])
  }
}
