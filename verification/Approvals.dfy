/** Action proposals and approval decisions under racing deciders. */
module Approvals {
  import opened Wrappers

  type Id = nat

  datatype Risk = ReadOnly | Low | Medium | High
  datatype Value = Approve | Reject
  datatype Status = AwaitingApproval | Approved | Rejected

  datatype Proposal = Proposal(tenant: Id, job: Id, risk: Risk, requiresApproval: bool, status: Status)
  datatype Decision = Decision(tenant: Id, proposal: Id, value: Value, decidedBy: Id)
  datatype Event = Created(tenant: Id, proposal: Id) | Decided(tenant: Id, proposal: Id, value: Value, decision: Id)

  /** The committed rows. `jobs` holds pairs of tenant and job. */
  datatype Store = Store(jobs: set<(Id, Id)>, proposals: map<Id, Proposal>, decisions: map<Id, Decision>, audit: seq<Event>)

  datatype Outcome = Made(id: Id) | NotFound | InvalidTransition | Conflict

  function Final(v: Value): Status { if v == Approve then Approved else Rejected }

  predicate HasDecision(s: Store, t: Id, p: Id) {
    exists d :: d in s.decisions && s.decisions[d].tenant == t && s.decisions[d].proposal == p
  }

  function NewProposal(t: Id, job: Id, risk: Risk, requiresApproval: bool): Proposal {
    Proposal(t, job, risk, requiresApproval, if requiresApproval then AwaitingApproval else Approved)
  }

  predicate Owned(s: Store, t: Id, p: Id) { p in s.proposals && s.proposals[p].tenant == t }

  // ---------- Commits ----------

  /** The insert of a proposal; None is an IntegrityError. */
  function CommitProposal(s: Store, id: Id, p: Proposal): Option<Store> {
    if id in s.proposals || (p.tenant, p.job) !in s.jobs || (p.risk == High && !p.requiresApproval) then None
    else Some(s.(proposals := s.proposals[id := p], audit := s.audit + [Created(p.tenant, id)]))
  }

  /** The update of the status, which compares nothing, and the insert of the decision, in one commit. */
  function CommitDecision(s: Store, t: Id, p: Id, id: Id, v: Value, actor: Id): Option<Store> {
    if id in s.decisions || HasDecision(s, t, p) || !Owned(s, t, p) then None
    else Some(s.(proposals := s.proposals[p := s.proposals[p].(status := Final(v))],
                 decisions := s.decisions[id := Decision(t, p, v, actor)],
                 audit := s.audit + [Decided(t, p, v, id)]))
  }

  // ---------- Sessions ----------

  datatype Request =
    | Propose(tenant: Id, job: Id, risk: Risk, requiresApproval: bool)
    | Decide(tenant: Id, proposal: Id, value: Value, actor: Id)

  datatype Pc = Start | Ready | Answered(outcome: Outcome)

  datatype Session = Session(request: Request, pc: Pc)

  datatype World = World(store: Store, sessions: map<Id, Session>)

  /** One database call of a session. `id` is the new identifier. */
  function Moved(s: Store, me: Session, id: Id): (Store, Session) {
    match me.pc
    case Start =>
      (match me.request
       case Propose(t, job, risk, requiresApproval) =>
         if (t, job) !in s.jobs then (s, me.(pc := Answered(NotFound)))
         else if risk == High && !requiresApproval then (s, me.(pc := Answered(InvalidTransition)))
         else (s, me.(pc := Ready))
       case Decide(t, p, _, _) =>
         if !Owned(s, t, p) then (s, me.(pc := Answered(NotFound)))
         else if s.proposals[p].status != AwaitingApproval then (s, me.(pc := Answered(InvalidTransition)))
         else (s, me.(pc := Ready)))
    case Ready =>
      (match me.request
       case Propose(t, job, risk, requiresApproval) =>
         (match CommitProposal(s, id, NewProposal(t, job, risk, requiresApproval))
          case None => (s, me.(pc := Answered(Conflict)))
          case Some(s') => (s', me.(pc := Answered(Made(id)))))
       case Decide(t, p, v, actor) =>
         (match CommitDecision(s, t, p, id, v, actor)
          case None => (s, me.(pc := Answered(InvalidTransition)))
          case Some(s') => (s', me.(pc := Answered(Made(id))))))
    case Answered(_) => (s, me)
  }

  datatype Action = Begin(sid: Id, request: Request) | Move(sid: Id, id: Id)

  /** One session makes one database call, or begins. */
  function Step(w: World, a: Action): World {
    match a
    case Begin(sid, q) => if sid in w.sessions then w else w.(sessions := w.sessions[sid := Session(q, Start)])
    case Move(sid, id) =>
      if sid !in w.sessions then w
      else
        var (s', me') := Moved(w.store, w.sessions[sid], id);
        World(s', w.sessions[sid := me'])
  }

  /** A schedule: any interleaving of any number of proposers and deciders. */
  function Steps(w: World, schedule: seq<Action>): World
    decreases |schedule|
  {
    if schedule == [] then w else Steps(Step(w, schedule[0]), schedule[1..])
  }

  /** The two calls of a session, the second one on the rows `later`. */
  function Answer(s: Store, later: Store, q: Request, id: Id): (Store, Session) {
    var (s', me') := Moved(s, Session(q, Start), id);
    if me'.pc.Answered? then (s', me') else Moved(later, me', id)
  }

  // ---------- What a call is granted when nobody else commits meanwhile ----------

  /** A proposal for a job of the tenant is made under an unused identifier, unless it is of high risk and needs no
      approval; it awaits approval if it needs any, and is approved otherwise. */
  predicate ProposalOutcome(s: Store, t: Id, job: Id, risk: Risk, requiresApproval: bool, id: Id, s': Store, o: Outcome) {
    if (t, job) !in s.jobs then o == NotFound && s' == s
    else if risk == High && !requiresApproval then o == InvalidTransition && s' == s
    else if id in s.proposals then o == Conflict && s' == s
    else
      && o == Made(id) && s'.jobs == s.jobs && s'.decisions == s.decisions && s'.audit == s.audit + [Created(t, id)]
      && s'.proposals == s.proposals[id := Proposal(t, job, risk, requiresApproval,
                                                    if requiresApproval then AwaitingApproval else Approved)]
  }

  /** A proposal of the tenant that awaits approval and has no decision is decided under an unused identifier, and has the
      status that was chosen. */
  predicate DecisionOutcome(s: Store, t: Id, p: Id, v: Value, actor: Id, id: Id, s': Store, o: Outcome) {
    if p !in s.proposals || s.proposals[p].tenant != t then o == NotFound && s' == s
    else if s.proposals[p].status != AwaitingApproval || id in s.decisions
            || exists d :: d in s.decisions && s.decisions[d].tenant == t && s.decisions[d].proposal == p
    then o == InvalidTransition && s' == s
    else
      && o == Made(id) && s'.jobs == s.jobs && s'.audit == s.audit + [Decided(t, p, v, id)]
      && s'.decisions == s.decisions[id := Decision(t, p, v, actor)]
      && s'.proposals == s.proposals[p := s.proposals[p].(status := match v case Approve => Approved case Reject => Rejected)]
  }

  // ---------- The calls in the form of the original ----------

  class Repository {
    var store: Store

    constructor (s: Store)
      ensures store == s
    {
      store := s;
    }

    /** Other sessions commit `next` meanwhile. */
    method Interleave(next: Store)
      modifies this
      ensures store == next
    {
      store := next;
    }

    /** Between its read and its commit other sessions turn the rows into `later`. */
    method CreateProposal(t: Id, job: Id, risk: Risk, requiresApproval: bool, id: Id, later: Store) returns (o: Outcome)
      modifies this
      ensures var q := Propose(t, job, risk, requiresApproval);
              (store, Session(q, Answered(o))) == Answer(old(store), later, q, id)
      ensures later == old(store) ==> ProposalOutcome(later, t, job, risk, requiresApproval, id, store, o)
    {
      if (t, job) !in store.jobs {
        return NotFound;
      }
      if risk == High && !requiresApproval {
        return InvalidTransition;
      }
      var status := if requiresApproval then AwaitingApproval else Approved;
      Interleave(later);
      var committed := CommitProposal(store, id, Proposal(t, job, risk, requiresApproval, status));
      if committed.None? {
        return Conflict;
      }
      store := committed.value;
      return Made(id);
    }

    method DecideProposal(t: Id, p: Id, v: Value, actor: Id, id: Id, later: Store) returns (o: Outcome)
      modifies this
      ensures var q := Decide(t, p, v, actor);
              (store, Session(q, Answered(o))) == Answer(old(store), later, q, id)
      ensures later == old(store) ==> DecisionOutcome(later, t, p, v, actor, id, store, o)
    {
      if p !in store.proposals || store.proposals[p].tenant != t {
        return NotFound;
      }
      if store.proposals[p].status != AwaitingApproval {
        return InvalidTransition;
      }
      Interleave(later);
      var committed := CommitDecision(store, t, p, id, v, actor);
      if committed.None? {
        return InvalidTransition;
      }
      store := committed.value;
      return Made(id);
    }
  }

  // ---------- What every interleaving keeps ----------

  ghost predicate ProposalConsistent(s: Store, p: Id)
    requires p in s.proposals
  {
    var row := s.proposals[p];
    && (row.risk == High ==> row.requiresApproval)
    && (row.status == AwaitingApproval <==> row.requiresApproval && !HasDecision(s, row.tenant, p))
    && (!row.requiresApproval ==> row.status == Approved)
  }

  ghost predicate DecisionConsistent(s: Store, d: Id)
    requires d in s.decisions
  {
    var row := s.decisions[d];
    && row.proposal in s.proposals && s.proposals[row.proposal].tenant == row.tenant
    && s.proposals[row.proposal].requiresApproval && s.proposals[row.proposal].status == Final(row.value)
    && forall e :: e in s.decisions && s.decisions[e].proposal == row.proposal ==> e == d
  }

  ghost predicate StoreInv(s: Store) {
    (forall p :: p in s.proposals ==> ProposalConsistent(s, p)) && (forall d :: d in s.decisions ==> DecisionConsistent(s, d))
  }

  /** A decider that is about to commit has read a proposal that needs approval. */
  predicate Deciding(s: Store, me: Session) {
    me.request.Decide? && me.pc.Ready?
    ==> me.request.proposal in s.proposals && s.proposals[me.request.proposal].requiresApproval
  }

  ghost predicate WorldInv(w: World) { StoreInv(w.store) && forall o :: o in w.sessions ==> Deciding(w.store, w.sessions[o]) }

  lemma OtherDecisionsKept(s: Store, s': Store, id: Id, row: Decision, u: Id, q: Id)
    requires id !in s.decisions && s'.decisions == s.decisions[id := row]
    ensures HasDecision(s', u, q) <==> HasDecision(s, u, q) || (row.tenant == u && row.proposal == q)
  {
    if d :| d in s.decisions && s.decisions[d].tenant == u && s.decisions[d].proposal == q {
      assert s'.decisions[d] == s.decisions[d];
    }
    assert s'.decisions[id] == row;
  }

  lemma DecisionKeepsInv(s: Store, t: Id, p: Id, id: Id, v: Value, actor: Id)
    requires StoreInv(s) && CommitDecision(s, t, p, id, v, actor).Some? && s.proposals[p].requiresApproval
    ensures StoreInv(CommitDecision(s, t, p, id, v, actor).value)
  {
    var s' := CommitDecision(s, t, p, id, v, actor).value;
    forall d | d in s.decisions
      ensures s.decisions[d].proposal != p
    {
      assert DecisionConsistent(s, d);
    }
    forall q | q in s'.proposals
      ensures ProposalConsistent(s', q)
    {
      assert ProposalConsistent(s, q);
      OtherDecisionsKept(s, s', id, Decision(t, p, v, actor), s.proposals[q].tenant, q);
    }
    forall d | d in s'.decisions
      ensures DecisionConsistent(s', d)
    {
      assert d != id ==> DecisionConsistent(s, d);
    }
  }

  lemma ProposalKeepsInv(s: Store, id: Id, p: Proposal)
    requires StoreInv(s) && CommitProposal(s, id, p).Some? && (p.status == if p.requiresApproval then AwaitingApproval else Approved)
    ensures StoreInv(CommitProposal(s, id, p).value)
  {
    var s' := CommitProposal(s, id, p).value;
    forall d | d in s.decisions
      ensures s.decisions[d].proposal != id && DecisionConsistent(s', d)
    {
      assert DecisionConsistent(s, d);
    }
    forall q | q in s'.proposals
      ensures ProposalConsistent(s', q)
    {
      assert q != id ==> ProposalConsistent(s, q);
      assert HasDecision(s', s'.proposals[q].tenant, q) <==> HasDecision(s, s'.proposals[q].tenant, q);
    }
  }

  lemma AwaitingNeedsApproval(s: Store, p: Id)
    requires StoreInv(s) && p in s.proposals && s.proposals[p].status == AwaitingApproval
    ensures s.proposals[p].requiresApproval
  {
    assert ProposalConsistent(s, p);
  }

  /** One call keeps the rows consistent and every proposal's need of approval. */
  lemma MoveKeepsInv(s: Store, me: Session, id: Id)
    requires StoreInv(s) && Deciding(s, me)
    ensures var (s', me') := Moved(s, me, id);
            && StoreInv(s') && Deciding(s', me')
            && forall p :: p in s.proposals ==> p in s'.proposals && s'.proposals[p].requiresApproval == s.proposals[p].requiresApproval
  {
    hide StoreInv;
    match me.request {
      case Propose(t, job, risk, requiresApproval) =>
        var p := NewProposal(t, job, risk, requiresApproval);
        if CommitProposal(s, id, p).Some? { ProposalKeepsInv(s, id, p); }
      case Decide(t, p, v, actor) =>
        if me.pc.Ready? && CommitDecision(s, t, p, id, v, actor).Some? { DecisionKeepsInv(s, t, p, id, v, actor); }
        if Owned(s, t, p) && s.proposals[p].status == AwaitingApproval { AwaitingNeedsApproval(s, p); }
    }
  }

  lemma StepKeepsInv(w: World, a: Action)
    requires WorldInv(w)
    ensures WorldInv(Step(w, a))
  {
    hide StoreInv, Moved;
    if a.Move? && a.sid in w.sessions {
      MoveKeepsInv(w.store, w.sessions[a.sid], a.id);
    }
  }

  lemma {:induction false} StepsKeepInv(w: World, schedule: seq<Action>)
    requires WorldInv(w)
    ensures WorldInv(Steps(w, schedule))
    decreases |schedule|
  {
    hide WorldInv, Step;
    if schedule != [] {
      StepKeepsInv(w, schedule[0]);
      StepsKeepInv(Step(w, schedule[0]), schedule[1..]);
    }
  }

  /** However proposers and deciders race from an empty table, an approved high-risk proposal has exactly one
      decision, and that decision approves it. */
  lemma HighRiskApproved(jobs: set<(Id, Id)>, schedule: seq<Action>, p: Id)
    requires var s := Steps(World(Store(jobs, map[], map[], []), map[]), schedule).store;
             p in s.proposals && s.proposals[p].risk == High && s.proposals[p].status == Approved
    ensures var s := Steps(World(Store(jobs, map[], map[], []), map[]), schedule).store;
            exists d :: d in s.decisions && s.decisions[d].proposal == p && s.decisions[d].value == Approve
                        && forall e :: e in s.decisions && s.decisions[e].proposal == p ==> e == d
  {
    hide Steps;
    var w := World(Store(jobs, map[], map[], []), map[]);
    StepsKeepInv(w, schedule);
    var s := Steps(w, schedule).store;
    assert ProposalConsistent(s, p);
    var d :| d in s.decisions && s.decisions[d].tenant == s.proposals[p].tenant && s.decisions[d].proposal == p;
    assert DecisionConsistent(s, d);
  }

  // ---------- Answers ----------

  /** The decider has been told that its decision is made. */
  predicate HasDecided(w: World, o: Id, p: Id) {
    && o in w.sessions && w.sessions[o].request.Decide? && w.sessions[o].request.proposal == p
    && w.sessions[o].pc.Answered? && w.sessions[o].pc.outcome.Made?
  }

  /** Every decision that was answered is a row, and no proposal was decided for two sessions. */
  ghost predicate AnswersTrue(w: World) {
    && (forall o, p :: HasDecided(w, o, p) ==>
          && w.sessions[o].pc.outcome.id in w.store.decisions
          && w.store.decisions[w.sessions[o].pc.outcome.id].proposal == p
          && w.store.decisions[w.sessions[o].pc.outcome.id].value == w.sessions[o].request.value)
    && (forall o, o', p :: HasDecided(w, o, p) && HasDecided(w, o', p) ==> o == o')
  }

  lemma DecisionsKept(s: Store, me: Session, id: Id)
    ensures forall d :: d in s.decisions ==> d in Moved(s, me, id).0.decisions && Moved(s, me, id).0.decisions[d] == s.decisions[d]
  {
  }

  /** A proposal that has a decision row is not decided again. */
  lemma SecondDeciderLoses(w: World, sid: Id, id: Id, d: Id, p: Id)
    requires WorldInv(w) && sid in w.sessions && d in w.store.decisions && w.store.decisions[d].proposal == p
    requires !HasDecided(w, sid, p)
    ensures !HasDecided(Step(w, Move(sid, id)), sid, p)
  {
    assert DecisionConsistent(w.store, d);
    var me := w.sessions[sid];
    if me.request.Decide? && me.request.proposal == p && Owned(w.store, me.request.tenant, p) {
      assert HasDecision(w.store, me.request.tenant, p);
    }
  }

  /** A decider that is told so has made its decision. */
  lemma AnswerIsRow(w: World, sid: Id, id: Id, p: Id)
    requires sid in w.sessions && !HasDecided(w, sid, p) && HasDecided(Step(w, Move(sid, id)), sid, p)
    ensures var w' := Step(w, Move(sid, id));
            && w'.sessions[sid].pc.outcome.id in w'.store.decisions
            && w'.store.decisions[w'.sessions[sid].pc.outcome.id].proposal == p
            && w'.store.decisions[w'.sessions[sid].pc.outcome.id].value == w'.sessions[sid].request.value
  {
  }

  lemma MoveKeepsAnswersTrue(w: World, sid: Id, id: Id)
    requires WorldInv(w) && AnswersTrue(w) && sid in w.sessions
    ensures AnswersTrue(Step(w, Move(sid, id)))
  {
    var w' := Step(w, Move(sid, id));
    DecisionsKept(w.store, w.sessions[sid], id);
    hide WorldInv, Moved;
    forall o, p | HasDecided(w', o, p)
      ensures var d := w'.sessions[o].pc.outcome.id;
              d in w'.store.decisions && w'.store.decisions[d].proposal == p && w'.store.decisions[d].value == w'.sessions[o].request.value
      ensures o != sid ==> !HasDecided(w', sid, p)
    {
      if HasDecided(w, o, p) {
        AnsweredStays(w, Move(sid, id), o);
        if o != sid && !HasDecided(w, sid, p) {
          SecondDeciderLoses(w, sid, id, w.sessions[o].pc.outcome.id, p);
        }
      } else {
        assert o == sid;
        AnswerIsRow(w, sid, id, p);
      }
    }
    forall o, o', p | HasDecided(w', o, p) && HasDecided(w', o', p)
      ensures o == o'
    {
      if o != sid && o' != sid {
        assert HasDecided(w, o, p) && HasDecided(w, o', p);
      }
    }
  }

  lemma StepKeepsAnswersTrue(w: World, a: Action)
    requires WorldInv(w) && AnswersTrue(w)
    ensures AnswersTrue(Step(w, a))
  {
    hide WorldInv;
    if a.Move? && a.sid in w.sessions {
      MoveKeepsAnswersTrue(w, a.sid, a.id);
    } else {
      assert forall o, p :: HasDecided(Step(w, a), o, p) ==> HasDecided(w, o, p);
    }
  }

  lemma AnsweredStays(w: World, a: Action, o: Id)
    requires o in w.sessions && w.sessions[o].pc.Answered?
    ensures o in Step(w, a).sessions && Step(w, a).sessions[o] == w.sessions[o]
  {
  }

  lemma {:induction false} StepsKeepAnswersTrue(w: World, schedule: seq<Action>)
    requires WorldInv(w) && AnswersTrue(w)
    ensures AnswersTrue(Steps(w, schedule))
    decreases |schedule|
  {
    hide WorldInv, Step, AnswersTrue;
    if schedule != [] {
      StepKeepsInv(w, schedule[0]);
      StepKeepsAnswersTrue(w, schedule[0]);
      StepsKeepAnswersTrue(Step(w, schedule[0]), schedule[1..]);
    }
  }

  /** From empty tables, of all deciders of a proposal at most one is told that it decided, and the proposal
      has the status that it chose. */
  lemma OneDeciderWins(jobs: set<(Id, Id)>, schedule: seq<Action>, o: Id, o': Id, p: Id)
    requires var w := Steps(World(Store(jobs, map[], map[], []), map[]), schedule);
             HasDecided(w, o, p) && HasDecided(w, o', p)
    ensures var w := Steps(World(Store(jobs, map[], map[], []), map[]), schedule);
            o == o' && p in w.store.proposals && w.store.proposals[p].status == Final(w.sessions[o].request.value)
  {
    hide Steps;
    var w := World(Store(jobs, map[], map[], []), map[]);
    StepsKeepInv(w, schedule);
    StepsKeepAnswersTrue(w, schedule);
    var e := Steps(w, schedule);
    assert DecisionConsistent(e.store, e.sessions[o].pc.outcome.id);
  }
}
