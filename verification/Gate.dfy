/** From a fetch result to an access decision (RFC 9309 section 2.3.1). */
module Gate {
  import opened Wrappers
  import opened Text
  import opened Fetch
  import opened Verdict

  datatype AccessReason = Policy | Unavailable | Unreachable | Indeterminate | InvalidPolicy

  datatype AccessDecision = AccessDecision(
    allowed: bool, reason: AccessReason, status: Option<int>, policy: Option<Decision>, policyError: Option<ErrorCode>)

  /** The access decision; an error is the policy error that the original raises. */
  ghost function EvaluateAccess(status: Option<int>, body: Option<seq<Octet>>, target: Str): Result<AccessDecision, ErrorCode> {
    if (status.Some? && !(100 <= status.value <= 599)) || ((status == Some(200)) != body.Some?) then Err(InvalidInput)
    else if Evaluate([], target).Err? then Err(Evaluate([], target).error)
    else if status == Some(200) then
      match Evaluate(body.value, target)
      case Err(InvalidInput) => Err(InvalidInput)
      case Err(e) => Ok(AccessDecision(false, InvalidPolicy, status, None, Some(e)))
      case Ok(d) => Ok(AccessDecision(d.allowed, Policy, status, Some(d), None))
    else if status.None? || status.value >= 500 then Ok(AccessDecision(false, Unreachable, status, None, None))
    else if status.value >= 400 then Ok(AccessDecision(true, Unavailable, status, None, None))
    else Ok(AccessDecision(false, Indeterminate, status, None, None))
  }

  datatype GateReason = Access | FetchUnreachable | FetchRejected

  datatype GateDecision = GateDecision(
    allowed: bool, reason: GateReason, fetched: Option<Fetched>, access: Option<AccessDecision>, fetchError: Option<FetchError>)

  /** The gate's own input error, or a policy error passed on. */
  datatype GateError = GateInput | PolicyError(code: ErrorCode)

  predicate ValidFetched(f: Fetched) {
    && f.chain != [] && f.robotsUrl == f.chain[0] && f.finalUrl == f.chain[|f.chain| - 1]
    && (f.status == 200 ==> f.textPlain && f.body.Some?)
    && (f.status != 200 ==> !f.textPlain && f.body.None?)
  }

  predicate IsUnreachable(e: FetchError) { e == DnsFailure || e == Timeout || e == TlsFailure || e == NetworkFailure }

  ghost function EvaluateGate(fetched: Option<Fetched>, error: Option<FetchError>, target: Str): Result<GateDecision, GateError> {
    if fetched.None? == error.None? then Err(GateInput)
    else if fetched.Some? then
      if !ValidFetched(fetched.value) then Err(GateInput)
      else
        match EvaluateAccess(Some(fetched.value.status), fetched.value.body, target)
        case Err(e) => Err(PolicyError(e))
        case Ok(a) => Ok(GateDecision(a.allowed, Access, fetched, Some(a), None))
    else
      match EvaluateAccess(None, None, target)
      case Err(e) => Err(PolicyError(e))
      case Ok(a) =>
        if IsUnreachable(error.value) then Ok(GateDecision(false, FetchUnreachable, None, Some(a), error))
        else Ok(GateDecision(false, FetchRejected, None, None, error))
  }

  /** The gate applied to the outcome of a fetch. */
  ghost function GateOf(r: Result<Fetched, FetchError>, target: Str): Result<GateDecision, GateError> {
    match r
    case Ok(f) => EvaluateGate(Some(f), None, target)
    case Err(e) => EvaluateGate(None, Some(e), target)
  }

  /** Whatever the network answers, the gate accepts the outcome of the fetch; it allows exactly on a
      4xx status, or on a 200 whose policy allows, and never after a fetch error; the policy never
      finds the body too large. */
  lemma FetchedAccess(net: Network, site: Url, robotsUrl: Url, hops: seq<Url>, r: Result<Fetched, FetchError>, target: Str)
    requires RedirectPath(net, robotsUrl, hops) && Outcome(net, site, robotsUrl, hops) == Some(r)
    requires ValidTarget(target)
    ensures r.Ok? ==> ValidFetched(r.value)
    ensures GateOf(r, target).Ok?
    ensures GateOf(r, target).value.allowed <==>
              r.Ok? && (400 <= r.value.status < 500
                        || (r.value.status == 200 && exists d :: Evaluate(r.value.body.value, target) == Ok(d) && d.allowed))
    ensures GateOf(r, target).value.access.Some? ==> GateOf(r, target).value.access.value.policyError != Some(TooLarge)
  {
    hide Decide, Decode, Flatten;
    EmptyFile(target);
    assert hops != [];
  }

  /** An invalid target is an input error whatever the outcome of the fetch. */
  lemma InvalidTargetRejected(net: Network, site: Url, robotsUrl: Url, hops: seq<Url>, r: Result<Fetched, FetchError>, target: Str)
    requires RedirectPath(net, robotsUrl, hops) && Outcome(net, site, robotsUrl, hops) == Some(r)
    requires !ValidTarget(target)
    ensures GateOf(r, target) == Err(PolicyError(InvalidInput))
  {
    hide Decide, Flatten;
    EmptyFile(target);
  }

  lemma EmptyFile(target: Str)
    ensures Evaluate([], target).Ok? <==> ValidTarget(target)
    ensures Evaluate([], target).Err? ==> Evaluate([], target).error == InvalidInput
  {
    assert Decode([]) == Some([]);
  }

  /** Why access is allowed or not, after every fetch with a status and a body that belongs to it. */
  lemma AccessMeans(f: Fetched, target: Str)
    requires ValidTarget(target) && (f.status == 200 <==> f.body.Some?)
    ensures
      var r := EvaluateAccess(Some(f.status), f.body, target);
      && r.Ok? && r.value.status == Some(f.status)
      && (r.value.reason.Policy? <==> f.status == 200 && Evaluate(f.body.value, target).Ok?)
      && (r.value.reason.InvalidPolicy? <==> f.status == 200 && Evaluate(f.body.value, target).Err?)
      && (r.value.reason.Unavailable? <==> 400 <= f.status < 500)
      && (r.value.reason.Unreachable? <==> f.status >= 500)
      && (r.value.reason.Indeterminate? <==> f.status < 400 && f.status != 200)
      && (r.value.reason.Policy? ==> r.value.policy == Some(Evaluate(f.body.value, target).value)
                                     && r.value.allowed == r.value.policy.value.allowed && r.value.policyError == None)
      && (r.value.reason.InvalidPolicy? ==> r.value.policyError == Some(Evaluate(f.body.value, target).error))
      && (!r.value.reason.Policy? ==> r.value.policy == None && (r.value.allowed <==> r.value.reason.Unavailable?))
      && (!r.value.reason.InvalidPolicy? ==> r.value.policyError == None)
  {
    hide Decide, Decode;
    EmptyFile(target);
  }

  /** What the gate answers after a fetch: its access, or a refusal that names the error, and whether the site could not
      be reached or the fetch was refused. */
  lemma GateMeans(r: Result<Fetched, FetchError>, target: Str)
    requires ValidTarget(target)
    ensures
      match r
      case Ok(f) =>
        && (GateOf(r, target).Ok? <==> ValidFetched(f))
        && (ValidFetched(f) ==>
              && EvaluateAccess(Some(f.status), f.body, target).Ok?
              && var a := EvaluateAccess(Some(f.status), f.body, target).value;
                 GateOf(r, target) == Ok(GateDecision(a.allowed, Access, Some(f), Some(a), None)))
      case Err(e) =>
        && GateOf(r, target).Ok?
        && var g := GateOf(r, target).value;
           && !g.allowed && g.fetched == None && g.fetchError == Some(e)
           && (g.reason.FetchUnreachable? <==> e == DnsFailure || e == Timeout || e == TlsFailure || e == NetworkFailure)
           && (g.reason.FetchUnreachable? ==> g.access == Some(AccessDecision(false, Unreachable, None, None, None)))
           && (!g.reason.FetchUnreachable? ==> g.reason == FetchRejected && g.access == None)
  {
    hide Decide, Decode;
    EmptyFile(target);
    if r.Ok? && ValidFetched(r.value) { AccessMeans(r.value, target); }
  }

  /** The gate refuses what is no result of a fetch: both or neither of result and error, a chain that does not lead from
      the robots URL to the final URL, or a body or content type that does not belong to the status. */
  lemma GateRefuses(fetched: Option<Fetched>, error: Option<FetchError>, target: Str)
    requires ValidTarget(target)
    ensures
      EvaluateGate(fetched, error, target).Err?
      <==> || (fetched.Some? && error.Some?) || (fetched.None? && error.None?)
           || (fetched.Some? && (|| fetched.value.chain == [] || fetched.value.robotsUrl != fetched.value.chain[0]
                                 || fetched.value.finalUrl != fetched.value.chain[|fetched.value.chain| - 1]
                                 || (fetched.value.status == 200 && !(fetched.value.textPlain && fetched.value.body.Some?))
                                 || (fetched.value.status != 200 && (fetched.value.textPlain || fetched.value.body.Some?))))
  {
    hide Decide, Decode;
    EmptyFile(target);
    if fetched.Some? && ValidFetched(fetched.value) { AccessMeans(fetched.value, target); }
  }
}
