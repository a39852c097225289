/** Fetching robots.txt over at most five redirects. The network is an arbitrary oracle. */
module Fetch {
  import opened Wrappers
  import opened Text

  const BODY_LIMIT := 512_000
  const MAX_REDIRECTS := 5

  /** The text of an absolute URL. */
  type Url = u: Str | u != [] witness [SLASH]

  datatype FetchError =
    | InvalidUrl | DisallowedPort | DnsFailure | DisallowedAddress | Timeout | TlsFailure | NetworkFailure
    | TooManyRedirects | InvalidRedirect | UnsupportedContentType | BodyTooLarge | UnsupportedCharset

  type Status = s: int | 100 <= s <= 599 witness 200

  /** `contentType` is the error that checking the Content-Type header raises, if any. */
  datatype Response =
    Response(status: Status, locations: seq<Str>, contentType: Option<FetchError>, chunks: seq<seq<Octet>>)

  /** Answers may depend on the hop, so they may change over time. */
  datatype Network = Network(
    resolve: (nat, Url) -> Option<FetchError>,
    request: (nat, Url) -> Result<Response, FetchError>,
    join: (Url, Str) -> Result<Url, FetchError>)

  datatype Fetched = Fetched(
    site: Url, robotsUrl: Url, finalUrl: Url, status: Status, textPlain: bool, body: Option<seq<Octet>>, chain: seq<Url>)

  datatype Event = Resolve(url: Url) | Request(url: Url)

  predicate IsRedirect(status: int) { status == 301 || status == 302 || status == 303 || status == 307 || status == 308 }

  /** The characters that `str.strip()` removes. */
  predicate Whitespace(c: Code) {
    0x09 <= c <= 0x0D || 0x1C <= c <= 0x20 || c == 0x85 || c == 0xA0 || c == 0x1680 || 0x2000 <= c <= 0x200A
    || c == 0x2028 || c == 0x2029 || c == 0x202F || c == 0x205F || c == 0x3000
  }

  predicate UsableLocation(locations: seq<Str>) {
    |locations| == 1 && exists i :: 0 <= i < |locations[0]| && !Whitespace(locations[0][i])
  }

  function Flatten(chunks: seq<seq<Octet>>): seq<Octet> {
    if chunks == [] then [] else chunks[0] + Flatten(chunks[1..])
  }

  // ---------- What a fetch does ----------

  /** Hop i asks for chain[i]: it resolves, is answered by a redirect, and leads to chain[i + 1]. */
  ghost predicate Follows(net: Network, chain: seq<Url>, i: nat)
    requires i + 1 < |chain|
  {
    && net.resolve(i, chain[i]).None?
    && net.request(i, chain[i]).Ok?
    && var response := net.request(i, chain[i]).value;
    && IsRedirect(response.status) && UsableLocation(response.locations)
    && net.join(chain[i], response.locations[0]) == Ok(chain[i + 1])
  }

  ghost predicate RedirectPath(net: Network, robotsUrl: Url, chain: seq<Url>) {
    && 1 <= |chain| <= MAX_REDIRECTS + 1 && chain[0] == robotsUrl
    && forall i :: 0 <= i < |chain| - 1 ==> Follows(net, chain, i)
  }

  /** What the answer to the last hop of a path makes of the fetch; None when it leads to another hop. */
  ghost function Outcome(net: Network, site: Url, robotsUrl: Url, chain: seq<Url>): Option<Result<Fetched, FetchError>>
    requires chain != []
  {
    var n := |chain| - 1;
    var last := chain[n];
    if net.resolve(n, last).Some? then Some(Err(net.resolve(n, last).value))
    else
      match net.request(n, last)
      case Err(e) => Some(Err(e))
      case Ok(response) =>
        if IsRedirect(response.status) then
          if n >= MAX_REDIRECTS then Some(Err(TooManyRedirects))
          else if !UsableLocation(response.locations) then Some(Err(InvalidRedirect))
          else if net.join(last, response.locations[0]).Err? then Some(Err(net.join(last, response.locations[0]).error))
          else None
        else if response.status != 200 then
          Some(Ok(Fetched(site, robotsUrl, last, response.status, false, None, chain)))
        else if response.contentType.Some? then Some(Err(response.contentType.value))
        else if |Flatten(response.chunks)| > BODY_LIMIT then Some(Err(BodyTooLarge))
        else Some(Ok(Fetched(site, robotsUrl, last, 200, true, Some(Flatten(response.chunks)), chain)))
  }

  /** Every hop is resolved and then requested; only a failed resolution ends without a request. */
  ghost function Trace(net: Network, chain: seq<Url>): seq<Event> {
    if chain == [] then []
    else
      var n := |chain| - 1;
      Trace(net, chain[..n]) + [Resolve(chain[n])] + (if net.resolve(n, chain[n]).None? then [Request(chain[n])] else [])
  }

  // ---------- The loops of the original ----------

  method ReadBody(chunks: seq<seq<Octet>>) returns (r: Result<seq<Octet>, FetchError>)
    ensures r == if |Flatten(chunks)| > BODY_LIMIT then Err(BodyTooLarge) else Ok(Flatten(chunks))
  {
    var body: seq<Octet> := [];
    for i := 0 to |chunks|
      invariant |body| <= BODY_LIMIT
      invariant Flatten(chunks) == body + Flatten(chunks[i..])
    {
      assert chunks[i..][1..] == chunks[i + 1..];
      if |body| + |chunks[i]| > BODY_LIMIT {
        return Err(BodyTooLarge);
      }
      assert body + (chunks[i] + Flatten(chunks[i + 1..])) == body + chunks[i] + Flatten(chunks[i + 1..]);
      body := body + chunks[i];
    }
    assert body + [] == body;
    return Ok(body);
  }

  method FetchRobots(net: Network, site: Url, robotsUrl: Url)
    returns (r: Result<Fetched, FetchError>, hops: seq<Url>, trace: seq<Event>)
    ensures RedirectPath(net, robotsUrl, hops)
    ensures Outcome(net, site, robotsUrl, hops) == Some(r)
    ensures trace == Trace(net, hops) && Requests(trace) <= MAX_REDIRECTS + 1
    ensures r.Ok? ==> r.value.chain == hops && r.value.finalUrl == hops[|hops| - 1]
  {
    var chain: seq<Url> := [];
    var redirectCount := 0;
    var current := robotsUrl;
    trace := [];
    while true
      invariant 0 <= redirectCount <= MAX_REDIRECTS && |chain| == redirectCount
      invariant RedirectPath(net, robotsUrl, chain + [current])
      invariant trace == Trace(net, chain)
      decreases MAX_REDIRECTS - redirectCount
    {
      chain := chain + [current];
      hops := chain;
      TraceBounded(net, robotsUrl, hops);
      assert chain[..|chain| - 1] + [current] == chain && chain[..redirectCount] == chain[..|chain| - 1];
      trace := trace + [Resolve(current)];
      var resolved := net.resolve(redirectCount, current);
      if resolved.Some? {
        return Err(resolved.value), hops, trace;
      }
      trace := trace + [Request(current)];
      var answer := net.request(redirectCount, current);
      if answer.Err? {
        return Err(answer.error), hops, trace;
      }
      var response := answer.value;
      if IsRedirect(response.status) {
        if redirectCount >= MAX_REDIRECTS {
          return Err(TooManyRedirects), hops, trace;
        }
        if !UsableLocation(response.locations) {
          return Err(InvalidRedirect), hops, trace;
        }
        var next := net.join(current, response.locations[0]);
        if next.Err? {
          return Err(next.error), hops, trace;
        }
        ExtendPath(net, robotsUrl, chain, next.value);
        current := next.value;
        redirectCount := redirectCount + 1;
        continue;
      }
      if response.status != 200 {
        return Ok(Fetched(site, robotsUrl, current, response.status, false, None, chain)), hops, trace;
      }
      if response.contentType.Some? {
        return Err(response.contentType.value), hops, trace;
      }
      var body := ReadBody(response.chunks);
      if body.Err? {
        return Err(body.error), hops, trace;
      }
      return Ok(Fetched(site, robotsUrl, current, 200, true, Some(body.value), chain)), hops, trace;
    }
  }

  lemma ExtendPath(net: Network, robotsUrl: Url, chain: seq<Url>, next: Url)
    requires RedirectPath(net, robotsUrl, chain) && |chain| <= MAX_REDIRECTS
    requires Follows(net, chain + [next], |chain| - 1)
    ensures RedirectPath(net, robotsUrl, chain + [next])
  {
    forall i | 0 <= i < |chain| - 1
      ensures Follows(net, chain + [next], i)
    {
      assert Follows(net, chain, i);
    }
  }

  /** The fetch is determined by the network: two complete redirect paths are the same. */
  lemma {:induction false} PathsAgree(net: Network, site: Url, robotsUrl: Url, a: seq<Url>, b: seq<Url>)
    requires RedirectPath(net, robotsUrl, a) && Outcome(net, site, robotsUrl, a).Some?
    requires RedirectPath(net, robotsUrl, b) && Outcome(net, site, robotsUrl, b).Some?
    ensures a == b
  {
    PrefixAgrees(net, site, robotsUrl, a, b, |b|);
    PrefixAgrees(net, site, robotsUrl, b, a, |a|);
  }

  lemma {:induction false} PrefixAgrees(net: Network, site: Url, robotsUrl: Url, a: seq<Url>, b: seq<Url>, n: nat)
    requires RedirectPath(net, robotsUrl, a) && Outcome(net, site, robotsUrl, a).Some?
    requires RedirectPath(net, robotsUrl, b)
    requires 1 <= n <= |b|
    ensures n <= |a| && a[..n] == b[..n]
  {
    if n > 1 {
      PrefixAgrees(net, site, robotsUrl, a, b, n - 1);
      assert a[n - 2] == a[..n - 1][n - 2] == b[..n - 1][n - 2] == b[n - 2];
      assert Follows(net, b, n - 2);
      if n - 1 < |a| {
        assert Follows(net, a, n - 2);
      }
    }
  }

  /** At most six requests, each preceded by the resolution of the same URL. */
  lemma {:induction false} TraceBounded(net: Network, robotsUrl: Url, chain: seq<Url>)
    requires forall i :: 0 <= i < |chain| - 1 ==> Follows(net, chain, i)
    ensures Requests(Trace(net, chain)) <= |chain|
    ensures forall k :: 0 <= k < |Trace(net, chain)| && Trace(net, chain)[k].Request? ==>
              k > 0 && Trace(net, chain)[k - 1] == Resolve(Trace(net, chain)[k].url)
  {
    if chain != [] {
      var n := |chain| - 1;
      forall i | 0 <= i < n - 1
        ensures Follows(net, chain[..n], i)
      {
        assert Follows(net, chain, i);
      }
      TraceBounded(net, robotsUrl, chain[..n]);
      RequestsConcat(Trace(net, chain[..n]) + [Resolve(chain[n])],
                     if net.resolve(n, chain[n]).None? then [Request(chain[n])] else []);
      RequestsConcat(Trace(net, chain[..n]), [Resolve(chain[n])]);
    }
  }

  function Requests(es: seq<Event>): nat {
    if es == [] then 0 else (if es[0].Request? then 1 else 0) + Requests(es[1..])
  }

  lemma {:induction false} RequestsConcat(a: seq<Event>, b: seq<Event>)
    ensures Requests(a + b) == Requests(a) + Requests(b)
  {
    if a == [] {
      assert a + b == b;
    } else {
      assert (a + b)[1..] == a[1..] + b;
      RequestsConcat(a[1..], b);
    }
  }

  // ---------- What a fetch means ----------

  /** A character that is no white space. */
  predicate Visible(c: Code) {
    && !(9 <= c <= 13) && !(28 <= c <= 32) && c != 133 && c != 160 && c != 5760 && !(8192 <= c <= 8202)
    && c != 8232 && c != 8233 && c != 8239 && c != 8287 && c != 12288
  }

  /** Exactly one Location header, and it is not blank. */
  predicate HasLocation(response: Response) {
    |response.locations| == 1 && exists i :: 0 <= i < |response.locations[0]| && Visible(response.locations[0][i])
  }

  /** The five statuses that redirect. */
  predicate Redirects(response: Response) { response.status in {301, 302, 303, 307, 308} }

  /** Every hop but the last one resolves, is answered by a redirect with a location, and leads to the next one. */
  lemma HopsMean(net: Network, robotsUrl: Url, hops: seq<Url>, i: nat)
    requires RedirectPath(net, robotsUrl, hops) && i + 1 < |hops|
    ensures |hops| <= 6 && hops[0] == robotsUrl
    ensures net.resolve(i, hops[i]).None? && net.request(i, hops[i]).Ok?
    ensures var response := net.request(i, hops[i]).value;
            Redirects(response) && HasLocation(response) && net.join(hops[i], response.locations[0]) == Ok(hops[i + 1])
  {
    assert Follows(net, hops, i);
  }

  /** The last one decides: the first thing that goes wrong is the error, and otherwise the fetch has its status, and
      its body only with status 200, within 512000 octets. */
  lemma LastHopMeans(net: Network, site: Url, robotsUrl: Url, hops: seq<Url>, r: Result<Fetched, FetchError>)
    requires RedirectPath(net, robotsUrl, hops) && Outcome(net, site, robotsUrl, hops) == Some(r)
    ensures
      var n := |hops| - 1;
      var resolved, answer := net.resolve(n, hops[n]), net.request(n, hops[n]);
      && n <= 5
      && if resolved.Some? then r == Err(resolved.value)
         else if answer.Err? then r == Err(answer.error)
         else
           var response := answer.value;
           if Redirects(response) then
             if n == 5 then r == Err(TooManyRedirects)
             else if !HasLocation(response) then r == Err(InvalidRedirect)
             else net.join(hops[n], response.locations[0]).Err? && r == Err(net.join(hops[n], response.locations[0]).error)
           else if response.status == 200 && response.contentType.Some? then r == Err(response.contentType.value)
           else if response.status == 200 && |Flatten(response.chunks)| > 512_000 then r == Err(BodyTooLarge)
           else
             && r.Ok? && r.value.site == site && r.value.robotsUrl == robotsUrl && r.value.finalUrl == hops[n]
             && r.value.chain == hops && r.value.status == response.status
             && (r.value.textPlain <==> response.status == 200)
             && r.value.body == if response.status == 200 then Some(Flatten(response.chunks)) else None
  {
    hide Flatten;
  }

  /** Each hop is resolved and then requested, in order; only a last one that does not resolve is not requested. */
  lemma {:induction false} TraceMeans(net: Network, robotsUrl: Url, hops: seq<Url>, i: nat)
    requires hops != [] && i < |hops| && forall k :: 0 <= k < |hops| - 1 ==> Follows(net, hops, k)
    ensures var trace, n := Trace(net, hops), |hops| - 1;
            && |trace| == 2 * |hops| - (if net.resolve(n, hops[n]).Some? then 1 else 0)
            && trace[2 * i] == Resolve(hops[i])
            && (2 * i + 1 < |trace| ==> trace[2 * i + 1] == Request(hops[i]))
  {
    var n := |hops| - 1;
    if n > 0 {
      forall k | 0 <= k < n - 1
        ensures Follows(net, hops[..n], k)
      {
        assert Follows(net, hops, k);
      }
      assert Follows(net, hops, n - 1);
      TraceMeans(net, robotsUrl, hops[..n], if i < n then i else 0);
    } else {
      assert Trace(net, hops[..0]) == [];
    }
  }
}
