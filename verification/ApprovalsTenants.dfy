/** Tenants do not see or disturb one another's proposals and decisions. */
module ApprovalsTenants {
  import opened Wrappers
  import opened Approvals

  function TenantEvents(audit: seq<Event>, t: Id): seq<Event> {
    if audit == [] then []
    else
      var n := |audit| - 1;
      TenantEvents(audit[..n], t) + (if audit[n].tenant == t then [audit[n]] else [])
  }

  lemma EventsSnoc(audit: seq<Event>, e: Event, t: Id)
    ensures TenantEvents(audit + [e], t) == TenantEvents(audit, t) + (if e.tenant == t then [e] else [])
  {
    assert (audit + [e])[..|audit|] == audit;
  }

  /** The rows of one tenant. */
  function View(s: Store, t: Id): Store {
    Store(set p | p in s.jobs && p.0 == t,
          map p | p in s.proposals && s.proposals[p].tenant == t :: s.proposals[p],
          map d | d in s.decisions && s.decisions[d].tenant == t :: s.decisions[d],
          TenantEvents(s.audit, t))
  }

  /** The rows and the sessions of one tenant. */
  function TenantWorld(w: World, t: Id): World {
    World(View(w.store, t), map o | o in w.sessions && w.sessions[o].request.tenant == t :: w.sessions[o])
  }

  /** The tenant for whom the action is taken; None if it does nothing. */
  function ActorOf(w: World, a: Action): Option<Id> {
    match a
    case Begin(_, q) => Some(q.tenant)
    case Move(sid, _) => if sid in w.sessions then Some(w.sessions[sid].request.tenant) else None
  }

  /** The identifier is unused or the tenant's own. */
  predicate IdFree(s: Store, t: Id, id: Id) {
    (id in s.proposals ==> s.proposals[id].tenant == t) && (id in s.decisions ==> s.decisions[id].tenant == t)
  }

  /** Identifiers are not shared by tenants. */
  predicate Fits(w: World, a: Action) {
    match a
    case Begin(sid, q) => sid in w.sessions ==> w.sessions[sid].request.tenant == q.tenant
    case Move(sid, id) => sid in w.sessions ==> IdFree(w.store, w.sessions[sid].request.tenant, id)
  }

  lemma QueriesSeeView(s: Store, t: Id, p: Id)
    ensures Owned(View(s, t), t, p) <==> Owned(s, t, p)
    ensures Owned(s, t, p) ==> View(s, t).proposals[p] == s.proposals[p]
    ensures HasDecision(View(s, t), t, p) <==> HasDecision(s, t, p)
  {
    hide TenantEvents;
    var v := View(s, t);
    if HasDecision(s, t, p) {
      var d :| d in s.decisions && s.decisions[d].tenant == t && s.decisions[d].proposal == p;
      assert d in v.decisions;
    }
  }

  lemma ProposalOnView(s: Store, id: Id, p: Proposal, u: Id)
    requires IdFree(s, p.tenant, id)
    ensures var r, v := CommitProposal(s, id, p), CommitProposal(View(s, p.tenant), id, p);
            && (r.None? <==> v.None?)
            && (r.Some? ==> v.value == View(r.value, p.tenant) && (u != p.tenant ==> View(r.value, u) == View(s, u)))
  {
    hide TenantEvents;
    EventsSnoc(s.audit, Created(p.tenant, id), p.tenant);
    EventsSnoc(s.audit, Created(p.tenant, id), u);
    var r, v := CommitProposal(s, id, p), CommitProposal(View(s, p.tenant), id, p);
    if r.Some? {
      assert v.value.proposals == View(r.value, p.tenant).proposals;
      assert u != p.tenant ==> View(r.value, u).proposals == View(s, u).proposals;
    }
  }

  lemma DecisionOnOwnView(s: Store, t: Id, p: Id, id: Id, value: Value, actor: Id)
    requires IdFree(s, t, id) && CommitDecision(s, t, p, id, value, actor).Some?
    ensures CommitDecision(View(s, t), t, p, id, value, actor) == Some(View(CommitDecision(s, t, p, id, value, actor).value, t))
  {
    QueriesSeeView(s, t, p);
    EventsSnoc(s.audit, Decided(t, p, value, id), t);
    hide TenantEvents, HasDecision;
    var r, v := CommitDecision(s, t, p, id, value, actor), CommitDecision(View(s, t), t, p, id, value, actor);
    assert v.value.proposals == View(r.value, t).proposals;
    assert v.value.decisions == View(r.value, t).decisions;
  }

  lemma DecisionOnOtherView(s: Store, t: Id, p: Id, id: Id, value: Value, actor: Id, u: Id)
    requires IdFree(s, t, id) && CommitDecision(s, t, p, id, value, actor).Some? && u != t
    ensures View(CommitDecision(s, t, p, id, value, actor).value, u) == View(s, u)
  {
    EventsSnoc(s.audit, Decided(t, p, value, id), u);
    hide TenantEvents, HasDecision;
    var r := CommitDecision(s, t, p, id, value, actor);
    assert View(r.value, u).proposals == View(s, u).proposals;
    assert View(r.value, u).decisions == View(s, u).decisions;
  }

  lemma DecisionOnView(s: Store, t: Id, p: Id, id: Id, value: Value, actor: Id, u: Id)
    requires IdFree(s, t, id)
    ensures var r, v := CommitDecision(s, t, p, id, value, actor), CommitDecision(View(s, t), t, p, id, value, actor);
            && (r.None? <==> v.None?)
            && (r.Some? ==> v.value == View(r.value, t) && (u != t ==> View(r.value, u) == View(s, u)))
  {
    QueriesSeeView(s, t, p);
    assert id in s.decisions <==> id in View(s, t).decisions;
    if CommitDecision(s, t, p, id, value, actor).Some? {
      DecisionOnOwnView(s, t, p, id, value, actor);
      if u != t { DecisionOnOtherView(s, t, p, id, value, actor, u); }
    } else {
      hide HasDecision, TenantEvents;
    }
  }

  /** A call sees and changes its tenant's rows only. */
  lemma CallOnView(s: Store, me: Session, id: Id, u: Id)
    requires IdFree(s, me.request.tenant, id)
    ensures var t := me.request.tenant;
            var r := Moved(s, me, id);
            && Moved(View(s, t), me, id) == (View(r.0, t), r.1) && r.1.request == me.request
            && (u != t ==> View(r.0, u) == View(s, u))
  {
    hide CommitProposal, CommitDecision, Owned;
    var t := me.request.tenant;
    match me.request {
      case Propose(_, job, risk, requiresApproval) =>
        ProposalOnView(s, id, NewProposal(t, job, risk, requiresApproval), u);
        assert (t, job) in View(s, t).jobs <==> (t, job) in s.jobs;
      case Decide(_, p, v, actor) =>
        QueriesSeeView(s, t, p);
        DecisionOnView(s, t, p, id, v, actor, u);
        hide View;
    }
  }

  /** An action of tenant `t` does to the world of `t` what it would do there alone, and nothing to the worlds
      of others. */
  lemma StepOnView(w: World, a: Action, t: Id)
    requires Fits(w, a)
    ensures TenantWorld(Step(w, a), t) == if ActorOf(w, a) == Some(t) then Step(TenantWorld(w, t), a) else TenantWorld(w, t)
  {
    hide View, Moved;
    if a.Move? && a.sid in w.sessions {
      CallOnView(w.store, w.sessions[a.sid], a.id, t);
    }
    assert TenantWorld(Step(w, a), t).sessions
        == (if ActorOf(w, a) == Some(t) then Step(TenantWorld(w, t), a) else TenantWorld(w, t)).sessions;
  }

  ghost predicate FitsAll(w: World, schedule: seq<Action>)
    decreases |schedule|
  {
    schedule == [] || (Fits(w, schedule[0]) && FitsAll(Step(w, schedule[0]), schedule[1..]))
  }

  /** The tenant's own part of a mixed schedule. */
  ghost function Own(w: World, t: Id, schedule: seq<Action>): seq<Action>
    decreases |schedule|
  {
    if schedule == [] then []
    else (if ActorOf(w, schedule[0]) == Some(t) then [schedule[0]] else []) + Own(Step(w, schedule[0]), t, schedule[1..])
  }

  /** A mixed schedule does to the world of each tenant what the tenant's own part of it does there alone. */
  lemma {:induction false} MixedScheduleOnView(w: World, schedule: seq<Action>, t: Id)
    requires FitsAll(w, schedule)
    ensures TenantWorld(Steps(w, schedule), t) == Steps(TenantWorld(w, t), Own(w, t, schedule))
    decreases |schedule|
  {
    hide TenantWorld, Step, Fits, ActorOf;
    if schedule != [] {
      var a, own := schedule[0], Own(Step(w, schedule[0]), t, schedule[1..]);
      StepOnView(w, a, t);
      MixedScheduleOnView(Step(w, a), schedule[1..], t);
      assert ([a] + own)[0] == a && ([a] + own)[1..] == own;
      assert [] + own == own;
    }
  }

  /** Non-interference: two databases, two sets of running sessions and two schedules that agree on tenant `t`
      end with the same answers, proposals, decisions and events of `t`, whatever other tenants hold and do. */
  lemma NonInterference(w1: World, w2: World, t: Id, schedule1: seq<Action>, schedule2: seq<Action>)
    requires FitsAll(w1, schedule1) && FitsAll(w2, schedule2)
    requires TenantWorld(w1, t) == TenantWorld(w2, t) && Own(w1, t, schedule1) == Own(w2, t, schedule2)
    ensures TenantWorld(Steps(w1, schedule1), t) == TenantWorld(Steps(w2, schedule2), t)
  {
    hide TenantWorld, Own, FitsAll;
    MixedScheduleOnView(w1, schedule1, t);
    MixedScheduleOnView(w2, schedule2, t);
  }
}
