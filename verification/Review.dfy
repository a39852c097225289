/** The bounded review and fix loop. */
module Review {
  import opened Wrappers

  type Sha = nat
  type Tree = map<string, int>

  // ---------- The review loop ----------

  const MAX_FIX_ROUNDS := 2

  datatype Verdict = Pass | ChangesRequested

  /** What the world does in one round: the reviewer's verdict, what the fixer leaves, whether the gates
      pass, the new commit, and whether it is recorded and pushed. None and false are failures of that step. */
  datatype Round =
    Round(verdict: Option<Verdict>, fix: Option<Tree>, gates: bool, commit: Option<Sha>, recorded: bool, pushed: bool)

  datatype Event =
    | Reviewed(head: Sha, verdict: Verdict)
    | Fixed(work: Tree)
    | Verified(work: Tree)
    | Committed(head: Sha, tree: Tree)
    | Pushed(head: Sha)

  datatype LoopResult =
    ReviewPassed | ReviewerFailed | StillDefective | FixerFailed | GatesFailed | CommitFailed | RecordFailed | PushFailed

  /** The round asked for changes, and its fix was verified, committed and pushed. */
  predicate Completes(r: Round) {
    r.verdict == Some(ChangesRequested) && r.fix.Some? && r.gates && r.commit.Some? && r.recorded && r.pushed
  }

  function Reviews(trace: seq<Event>): nat {
    if trace == [] then 0 else Reviews(trace[..|trace| - 1]) + if trace[|trace| - 1].Reviewed? then 1 else 0
  }

  function Fixes(trace: seq<Event>): nat {
    if trace == [] then 0 else Fixes(trace[..|trace| - 1]) + if trace[|trace| - 1].Fixed? then 1 else 0
  }

  lemma OneMore(trace: seq<Event>, e: Event)
    ensures Reviews(trace + [e]) == Reviews(trace) + if e.Reviewed? then 1 else 0
    ensures Fixes(trace + [e]) == Fixes(trace) + if e.Fixed? then 1 else 0
  {
    assert (trace + [e])[..|trace|] == trace;
  }

  /** HEAD after the commits of a trace. */
  function HeadAfter(head: Sha, trace: seq<Event>): Sha {
    if trace == [] then head
    else
      var last := trace[|trace| - 1];
      if last.Committed? then last.head else HeadAfter(head, trace[..|trace| - 1])
  }

  /** Every commit is of the tree that the gates have just passed, which is the tree the fixer has just left. */
  predicate CommitsAreVerified(trace: seq<Event>) {
    forall i :: 0 <= i < |trace| && trace[i].Committed?
      ==> i >= 2 && trace[i - 1] == Verified(trace[i].tree) && trace[i - 2] == Fixed(trace[i].tree)
  }

  /** Every review is of the HEAD of its moment. */
  predicate ReviewsAreCurrent(head: Sha, trace: seq<Event>) {
    forall i :: 0 <= i < |trace| && trace[i].Reviewed? ==> trace[i].head == HeadAfter(head, trace[..i])
  }

  lemma MoreHistory(head: Sha, trace: seq<Event>, e: Event)
    requires ReviewsAreCurrent(head, trace)
    requires e.Reviewed? ==> e.head == HeadAfter(head, trace)
    ensures ReviewsAreCurrent(head, trace + [e])
    ensures HeadAfter(head, trace + [e]) == if e.Committed? then e.head else HeadAfter(head, trace)
  {
    assert (trace + [e])[..|trace|] == trace;
    forall i | 0 <= i < |trace|
      ensures (trace + [e])[..i] == trace[..i]
    {
    }
  }

  /** What comes right after an event: changes asked for are fixed, a fix is verified, committed and pushed, and what is
      pushed is reviewed. Nothing comes after a pass. */
  predicate Follows(a: Event, b: Event) {
    match a
    case Reviewed(_, verdict) => verdict == ChangesRequested && b.Fixed?
    case Fixed(work) => b == Verified(work)
    case Verified(work) => b.Committed? && b.tree == work
    case Committed(head, _) => b == Pushed(head)
    case Pushed(head) => b.Reviewed? && b.head == head
  }

  /** The first review is of the HEAD at the start, and every event follows the one before. */
  predicate InOrder(start: Sha, trace: seq<Event>) {
    && (trace != [] ==> trace[0].Reviewed? && trace[0].head == start)
    && forall i :: 0 <= i < |trace| - 1 ==> Follows(trace[i], trace[i + 1])
  }

  /** The event may come next. */
  predicate MayFollow(start: Sha, trace: seq<Event>, e: Event) {
    if trace == [] then e.Reviewed? && e.head == start else Follows(trace[|trace| - 1], e)
  }

  /** The last event names HEAD, if it names any. */
  predicate NamesHead(start: Sha, trace: seq<Event>) {
    trace != [] ==>
      var last := trace[|trace| - 1];
      last.Reviewed? || last.Committed? || last.Pushed? ==> last.head == HeadAfter(start, trace)
  }

  predicate Sound(start: Sha, trace: seq<Event>) {
    CommitsAreVerified(trace) && ReviewsAreCurrent(start, trace) && InOrder(start, trace) && NamesHead(start, trace)
  }

  lemma MoreSound(start: Sha, trace: seq<Event>, e: Event)
    requires Sound(start, trace) && MayFollow(start, trace, e)
    ensures Sound(start, trace + [e])
    ensures HeadAfter(start, trace + [e]) == if e.Committed? then e.head else HeadAfter(start, trace)
  {
    assert e.Reviewed? ==> e.head == HeadAfter(start, trace);
    MoreHistory(start, trace, e);
    if e.Committed? {
      var n := |trace|;
      assert trace[n - 1].Verified? && n >= 2 && Follows(trace[n - 2], trace[n - 1]);
    }
  }

  predicate AllComplete(world: nat -> Round, rounds: nat) {
    forall round :: 1 <= round <= rounds ==> Completes(world(round))
  }

  predicate PassesIn(world: nat -> Round, round: nat) {
    1 <= round <= MAX_FIX_ROUNDS + 1 && world(round).verdict == Some(Pass) && AllComplete(world, round - 1)
  }

  /** Some round passes, after rounds that all completed. */
  ghost predicate Passes(world: nat -> Round) { exists round :: PassesIn(world, round) }

  /** All rounds completed, and the last review still asks for changes. */
  predicate Exhausts(world: nat -> Round) {
    world(MAX_FIX_ROUNDS + 1).verdict == Some(ChangesRequested) && AllComplete(world, MAX_FIX_ROUNDS)
  }

  /** A round that neither passes nor completes ends the loop without a pass. */
  lemma EndsWithoutPass(world: nat -> Round, round: nat)
    requires 1 <= round <= MAX_FIX_ROUNDS + 1 && AllComplete(world, round - 1)
    requires world(round).verdict != Some(Pass)
    requires round == MAX_FIX_ROUNDS + 1 || !Completes(world(round))
    ensures !Passes(world)
    ensures Exhausts(world) <==> round == MAX_FIX_ROUNDS + 1 && world(round).verdict.Some?
  {
    assert world(round).verdict.Some? ==> world(round).verdict.value == ChangesRequested;
  }

  lemma EndsWithPass(world: nat -> Round, round: nat)
    requires 1 <= round <= MAX_FIX_ROUNDS + 1 && AllComplete(world, round - 1) && world(round).verdict == Some(Pass)
    ensures Passes(world) && !Exhausts(world)
  {
    assert PassesIn(world, round);
  }

  lemma OneMoreComplete(world: nat -> Round, round: nat)
    requires 1 <= round && AllComplete(world, round - 1) && Completes(world(round))
    ensures AllComplete(world, round)
  {
  }

  /** Every step of the round succeeds. */
  predicate Succeeds(r: Round) {
    r.verdict == Some(ChangesRequested) && r.fix != None && r.gates && r.commit != None && r.recorded && r.pushed
  }

  /** The result of the loop is that of the first round that does not ask for changes and make them: its verdict, or the
      first of its steps that fails; and the third review is the last. */
  predicate EndsIn(world: nat -> Round, round: nat, result: LoopResult) {
    && 1 <= round <= 3 && (forall k :: 1 <= k < round ==> Succeeds(world(k)))
    && var r := world(round);
       match result
       case ReviewerFailed => r.verdict == None
       case ReviewPassed => r.verdict == Some(Pass)
       case StillDefective => round == 3 && r.verdict == Some(ChangesRequested)
       case _ => round < 3 && r.verdict == Some(ChangesRequested) && FailsWith(r, result)
  }

  /** The step of a fix that fails, after all steps before it have succeeded. */
  predicate FailsWith(r: Round, failure: LoopResult) {
    match failure
    case FixerFailed => r.fix == None
    case GatesFailed => r.fix != None && !r.gates
    case CommitFailed => r.fix != None && r.gates && r.commit == None
    case RecordFailed => r.fix != None && r.gates && r.commit != None && !r.recorded
    case PushFailed => r.fix != None && r.gates && r.commit != None && r.recorded && !r.pushed
    case _ => false
  }

  lemma EndsAt(world: nat -> Round, round: nat, result: LoopResult)
    requires 1 <= round <= MAX_FIX_ROUNDS + 1 && AllComplete(world, round - 1)
    requires var r := world(round);
             || (result == ReviewerFailed && r.verdict.None?) || (result == ReviewPassed && r.verdict == Some(Pass))
             || (result == StillDefective && round > MAX_FIX_ROUNDS && r.verdict == Some(ChangesRequested))
             || (round <= MAX_FIX_ROUNDS && r.verdict == Some(ChangesRequested) && FailsWith(r, result))
    ensures exists k :: EndsIn(world, k, result)
  {
    forall k | 1 <= k < round
      ensures Succeeds(world(k))
    {
      assert Completes(world(k));
    }
    assert EndsIn(world, round, result);
  }

  /** One more event of the loop. */
  method Extend(start: Sha, trace: seq<Event>, e: Event) returns (longer: seq<Event>)
    requires Sound(start, trace) && MayFollow(start, trace, e)
    ensures longer == trace + [e] && Sound(start, longer)
    ensures HeadAfter(start, longer) == if e.Committed? then e.head else HeadAfter(start, trace)
    ensures Reviews(longer) == Reviews(trace) + if e.Reviewed? then 1 else 0
    ensures Fixes(longer) == Fixes(trace) + if e.Fixed? then 1 else 0
  {
    longer := trace + [e];
    OneMore(trace, e);
    MoreSound(start, trace, e);
  }

  /** Review HEAD, and stop with a result, or go on to a fix. */
  method RunReview(world: nat -> Round, round: nat, start: Sha, trace: seq<Event>)
    returns (result: Option<LoopResult>, longer: seq<Event>)
    requires 1 <= round <= MAX_FIX_ROUNDS + 1 && AllComplete(world, round - 1)
    requires Sound(start, trace) && MayReview(start, trace)
    ensures Sound(start, longer) && HeadAfter(start, longer) == HeadAfter(start, trace) && Fixes(longer) == Fixes(trace)
    ensures Reviews(trace) <= Reviews(longer) <= Reviews(trace) + 1
    ensures match result
            case None => && world(round).verdict == Some(ChangesRequested) && round <= MAX_FIX_ROUNDS
                         && longer == trace + [Reviewed(HeadAfter(start, trace), ChangesRequested)]
                         && Reviews(longer) == Reviews(trace) + 1
            case Some(r) => && (r.ReviewPassed? ==> longer != [] && longer[|longer| - 1] == Reviewed(HeadAfter(start, longer), Pass))
                            && (r.ReviewPassed? <==> Passes(world)) && (r.StillDefective? <==> Exhausts(world))
                            && exists k :: EndsIn(world, k, r)
  {
    assert trace == [] ==> HeadAfter(start, trace) == start;
    hide Sound, HeadAfter, Reviews, Fixes, Passes, Exhausts, EndsIn;
    var verdict := world(round).verdict;
    if verdict.None? {
      EndsWithoutPass(world, round);
      EndsAt(world, round, ReviewerFailed);
      return Some(ReviewerFailed), trace;
    }
    longer := Extend(start, trace, Reviewed(HeadAfter(start, trace), verdict.value));
    if verdict.value.Pass? {
      EndsWithPass(world, round);
      EndsAt(world, round, ReviewPassed);
      return Some(ReviewPassed), longer;
    }
    if round > MAX_FIX_ROUNDS {
      EndsWithoutPass(world, round);
      EndsAt(world, round, StillDefective);
      return Some(StillDefective), longer;
    }
    result := None;
  }

  /** HEAD may be reviewed now: at the start, or just pushed. */
  predicate MayReview(start: Sha, trace: seq<Event>) {
    trace == [] || trace[|trace| - 1] == Pushed(HeadAfter(start, trace))
  }

  method RunReviewFixLoop(world: nat -> Round, start: Sha) returns (result: LoopResult, head: Sha, trace: seq<Event>)
    ensures Reviews(trace) <= 3 && Fixes(trace) <= 2 && InOrder(start, trace)
    ensures CommitsAreVerified(trace) && ReviewsAreCurrent(start, trace) && head == HeadAfter(start, trace)
    ensures result.ReviewPassed? ==> trace != [] && trace[|trace| - 1] == Reviewed(head, Pass)
    ensures result.ReviewPassed? <==> Passes(world)
    ensures result.StillDefective? <==> Exhausts(world)
    ensures exists round :: EndsIn(world, round, result)
  {
    head, trace := start, [];
    var round := 1;
    assert Sound(start, trace) && Reviews(trace) == Fixes(trace) == 0;
    hide Sound, HeadAfter, Reviews, Fixes, Completes, AllComplete, Passes, Exhausts, EndsIn;
    SoundMeans(start, trace);
    NoneComplete(world);
    while true
      invariant 1 <= round <= MAX_FIX_ROUNDS + 1
      invariant Reviews(trace) == Fixes(trace) == round - 1
      invariant Sound(start, trace) && MayReview(start, trace) && head == HeadAfter(start, trace)
      invariant AllComplete(world, round - 1)
      decreases MAX_FIX_ROUNDS + 1 - round
    {
      var ended;
      ended, trace := RunReview(world, round, start, trace);
      SoundMeans(start, trace);
      if ended.Some? { return ended.value, head, trace; }
      var failure;
      failure, head, trace := RunFixRound(world(round), start, trace);
      SoundMeans(start, trace);
      if failure.Some? {
        EndsWithoutPass(world, round);
        EndsAt(world, round, failure.value);
        return failure.value, head, trace;
      }
      OneMoreComplete(world, round);
      round := round + 1;
    }
  }

  lemma SoundMeans(start: Sha, trace: seq<Event>)
    requires Sound(start, trace)
    ensures CommitsAreVerified(trace) && ReviewsAreCurrent(start, trace) && InOrder(start, trace)
  {
  }

  lemma NoneComplete(world: nat -> Round)
    ensures AllComplete(world, 0)
  {
  }

  /** Fix, verify, commit and push. */
  method RunFixRound(r: Round, start: Sha, trace: seq<Event>) returns (failure: Option<LoopResult>, head: Sha, longer: seq<Event>)
    requires r.verdict == Some(ChangesRequested) && Sound(start, trace)
    requires trace != [] && trace[|trace| - 1].Reviewed? && trace[|trace| - 1].verdict == ChangesRequested
    ensures Sound(start, longer) && head == HeadAfter(start, longer)
    ensures Reviews(longer) == Reviews(trace)
    ensures Fixes(longer) == Fixes(trace) + if failure == Some(FixerFailed) then 0 else 1
    ensures failure.None? <==> Completes(r)
    ensures failure.None? ==> longer != [] && longer[|longer| - 1] == Pushed(head)
    ensures failure.Some? ==> FailsWith(r, failure.value)
  {
    hide Sound, Reviews, Fixes, HeadAfter;
    head, longer := HeadAfter(start, trace), trace;
    if r.fix.None? { return Some(FixerFailed), head, longer; }
    var work := r.fix.value;
    longer := Extend(start, longer, Fixed(work));
    if !r.gates { return Some(GatesFailed), head, longer; }
    longer := Extend(start, longer, Verified(work));
    if r.commit.None? { return Some(CommitFailed), head, longer; }
    head := r.commit.value;
    longer := Extend(start, longer, Committed(head, work));
    if !r.recorded { return Some(RecordFailed), head, longer; }
    if !r.pushed { return Some(PushFailed), head, longer; }
    longer := Extend(start, longer, Pushed(head));
    failure := None;
  }
}
