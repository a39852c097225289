/** Wildcard matching of rule tokens against target tokens (RFC 9309 section 2.2.3). */
module Matcher {
  import opened Normalize

  /** A wildcard stands for any token sequence; every other token stands for itself. */
  ghost predicate Matches(p: seq<Token>, t: seq<Token>)
    decreases |p|
  {
    if p == [] then t == []
    else if p[0] == Wild then exists k :: 0 <= k <= |t| && Matches(p[1..], t[k..])
    else t != [] && p[0] == t[0] && Matches(p[1..], t[1..])
  }

  predicate WildFree(t: seq<Token>) { Wild !in t }

  /** The pattern that the code matches: an unanchored rule ends with a wildcard. */
  function FullPattern(tokens: seq<Token>, anchored: bool): seq<Token> {
    if anchored then tokens else tokens + [Wild]
  }

  /** Some suffix of the target that begins after `from` matches the pattern. */
  ghost predicate MatchesAfter(p: seq<Token>, t: seq<Token>, from: int) {
    exists k :: from < k <= |t| && 0 <= k && Matches(p, t[k..])
  }

  /** What the loop still has to decide: the current alignment, or one after the backtrack point. */
  ghost predicate Pending(p: seq<Token>, t: seq<Token>, pi: int, ti: int, si: int, sti: int)
    requires 0 <= pi <= |p| && 0 <= ti <= |t| && -1 <= si < |p|
  {
    Matches(p[pi..], t[ti..]) || (si >= 0 && MatchesAfter(p[si + 1..], t, sti))
  }

  /** Greedy matching with one backtrack point. */
  method MatchTokens(tokens: seq<Token>, anchored: bool, target: seq<Token>) returns (matched: bool)
    requires WildFree(target)
    ensures matched <==> Matches(FullPattern(tokens, anchored), target)
  {
    var pattern := if anchored then tokens else tokens + [Wild];
    var patternIndex, targetIndex := 0, 0;
    var starIndex, starTargetIndex := -1, -1;
    hide Matches;
    ghost var verdict := Matches(pattern, target);
    assert pattern[0..] == pattern && target[0..] == target;
    while targetIndex < |target|
      invariant 0 <= patternIndex <= |pattern| && 0 <= targetIndex <= |target| && -1 <= starIndex < |pattern|
      invariant starIndex >= 0 ==> Backtrack(pattern, target, patternIndex, targetIndex, starIndex, starTargetIndex)
      invariant starIndex == -1 ==> starTargetIndex == -1
      invariant verdict == Pending(pattern, target, patternIndex, targetIndex, starIndex, starTargetIndex)
      decreases |pattern| - starIndex, |target| - starTargetIndex, |target| - targetIndex
    {
      if patternIndex < |pattern| && pattern[patternIndex] == target[targetIndex] {
        Advance(pattern, target, patternIndex, targetIndex, starIndex, starTargetIndex);
        patternIndex := patternIndex + 1;
        targetIndex := targetIndex + 1;
      } else if patternIndex < |pattern| && pattern[patternIndex] == Wild {
        NewStar(pattern, target, patternIndex, targetIndex, starIndex, starTargetIndex);
        starIndex := patternIndex;
        starTargetIndex := targetIndex;
        patternIndex := patternIndex + 1;
      } else if starIndex >= 0 {
        Retry(pattern, target, patternIndex, targetIndex, starIndex, starTargetIndex);
        starTargetIndex := starTargetIndex + 1;
        targetIndex := starTargetIndex;
        patternIndex := starIndex + 1;
      } else {
        NoMatch(pattern, target, patternIndex, targetIndex);
        return false;
      }
    }
    assert target[targetIndex..] == [];
    if starIndex >= 0 {
      NothingAfterEnd(pattern, target, patternIndex, starIndex, starTargetIndex);
    }
    while patternIndex < |pattern| && pattern[patternIndex] == Wild
      invariant 0 <= patternIndex <= |pattern|
      invariant verdict == Matches(pattern[patternIndex..], [])
    {
      EmptyAfterWild(pattern, patternIndex);
      patternIndex := patternIndex + 1;
    }
    AtTheEnd(pattern, patternIndex);
    return patternIndex == |pattern|;
  }

  /** The tokens since the last wildcard are literal and equal the target since the backtrack point. */
  ghost predicate Backtrack(p: seq<Token>, t: seq<Token>, pi: int, ti: int, si: int, sti: int) {
    && 0 <= si < pi <= |p| && 0 <= sti <= ti <= |t|
    && p[si] == Wild && pi - (si + 1) == ti - sti
    && p[si + 1..pi] == t[sti..ti] && WildFree(p[si + 1..pi])
  }

  lemma Advance(p: seq<Token>, t: seq<Token>, pi: nat, ti: nat, si: int, sti: int)
    requires pi < |p| && ti < |t| && -1 <= si && p[pi] == t[ti] && WildFree(t)
    requires if si >= 0 then Backtrack(p, t, pi, ti, si, sti) else true
    requires si < |p|
    ensures Pending(p, t, pi, ti, si, sti) <==> Pending(p, t, pi + 1, ti + 1, si, sti)
    ensures si >= 0 ==> Backtrack(p, t, pi + 1, ti + 1, si, sti)
  {
    assert t[ti] in t;
    assert p[pi..][1..] == p[pi + 1..] && t[ti..][1..] == t[ti + 1..];
    if si >= 0 {
      assert p[si + 1..pi + 1] == p[si + 1..pi] + [p[pi]];
      assert t[sti..ti + 1] == t[sti..ti] + [t[ti]];
    }
  }

  lemma NewStar(p: seq<Token>, t: seq<Token>, pi: nat, ti: nat, si: int, sti: int)
    requires pi < |p| && ti <= |t| && p[pi] == Wild && -1 <= si < |p|
    requires if si >= 0 then Backtrack(p, t, pi, ti, si, sti) else true
    ensures Pending(p, t, pi, ti, si, sti) <==> Pending(p, t, pi + 1, ti, pi, ti)
    ensures Backtrack(p, t, pi + 1, ti, pi, ti)
  {
    OpenWild(p, t, pi, ti);
    if si >= 0 {
      OlderStarSubsumed(p, t, pi, ti, si, sti);
    }
  }

  lemma Retry(p: seq<Token>, t: seq<Token>, pi: nat, ti: nat, si: nat, sti: nat)
    requires ti < |t| && Backtrack(p, t, pi, ti, si, sti)
    requires pi < |p| ==> p[pi] != t[ti] && p[pi] != Wild
    ensures Pending(p, t, pi, ti, si, sti) <==> Pending(p, t, si + 1, sti + 1, si, sti + 1)
    ensures Backtrack(p, t, si + 1, sti + 1, si, sti + 1)
  {
    NoMatch(p, t, pi, ti);
  }

  /** A literal prefix of a matching pattern is a prefix of the target. */
  lemma {:induction false} LiteralPrefix(p: seq<Token>, t: seq<Token>, m: nat)
    requires m <= |p| && WildFree(p[..m]) && Matches(p, t)
    ensures m <= |t| && p[..m] == t[..m] && Matches(p[m..], t[m..])
  {
    if m == 0 {
      assert p[0..] == p && t[0..] == t;
    } else {
      assert p[0] == p[..m][0];
      assert p[1..][..m - 1] == p[..m][1..];
      LiteralPrefix(p[1..], t[1..], m - 1);
      assert p[1..][m - 1..] == p[m..] && t[1..][m - 1..] == t[m..];
      assert p[..m] == [p[0]] + p[1..][..m - 1] && t[..m] == [t[0]] + t[1..][..m - 1];
    }
  }

  /** A match at a wildcard is a match of the rest at the current or a later place. */
  lemma OpenWild(p: seq<Token>, t: seq<Token>, pi: nat, ti: nat)
    requires pi < |p| && ti <= |t| && p[pi] == Wild
    ensures Matches(p[pi..], t[ti..])
       <==> Matches(p[pi + 1..], t[ti..]) || MatchesAfter(p[pi + 1..], t, ti)
  {
    var q, u := p[pi..], t[ti..];
    assert q[1..] == p[pi + 1..];
    if Matches(q, u) {
      var k :| 0 <= k <= |u| && Matches(q[1..], u[k..]);
      assert u[k..] == t[ti + k..];
    }
    if Matches(p[pi + 1..], t[ti..]) {
      assert u[0..] == u;
    }
    if MatchesAfter(p[pi + 1..], t, ti) {
      var k :| ti < k <= |t| && Matches(p[pi + 1..], t[k..]);
      assert u[k - ti..] == t[k..];
    }
  }

  /** Why the last backtrack point alone is enough: whatever an older one could still reach, the
      newer wildcard reaches too. */
  lemma OlderStarSubsumed(p: seq<Token>, t: seq<Token>, pi: nat, ti: nat, si: nat, sti: nat)
    requires pi < |p| && p[pi] == Wild && Backtrack(p, t, pi, ti, si, sti)
    ensures MatchesAfter(p[si + 1..], t, sti) ==> MatchesAfter(p[pi + 1..], t, ti)
  {
    if MatchesAfter(p[si + 1..], t, sti) {
      var k :| sti < k <= |t| && 0 <= k && Matches(p[si + 1..], t[k..]);
      var m := pi - (si + 1);
      assert p[si + 1..][..m] == p[si + 1..pi];
      LiteralPrefix(p[si + 1..], t[k..], m);
      assert p[si + 1..][m..] == p[pi..] && t[k..][m..] == t[k + m..];
      OpenWild(p, t, pi, k + m);
    }
  }

  /** When the target is used up, no later backtrack point can match. */
  lemma NothingAfterEnd(p: seq<Token>, t: seq<Token>, pi: nat, si: nat, sti: nat)
    requires Backtrack(p, t, pi, |t|, si, sti)
    ensures !MatchesAfter(p[si + 1..], t, sti)
  {
    if MatchesAfter(p[si + 1..], t, sti) {
      var k :| sti < k <= |t| && 0 <= k && Matches(p[si + 1..], t[k..]);
      assert p[si + 1..][..pi - (si + 1)] == p[si + 1..pi];
      LiteralPrefix(p[si + 1..], t[k..], pi - (si + 1));
    }
  }

  lemma EmptyAfterWild(p: seq<Token>, pi: nat)
    requires pi < |p| && p[pi] == Wild
    ensures Matches(p[pi..], []) <==> Matches(p[pi + 1..], [])
  {
    var e: seq<Token> := [];
    assert e[0..] == e && p[pi..][1..] == p[pi + 1..];
  }

  lemma AtTheEnd(p: seq<Token>, pi: nat)
    requires pi <= |p| && (pi < |p| ==> p[pi] != Wild)
    ensures Matches(p[pi..], []) <==> pi == |p|
  {
    assert pi < |p| ==> p[pi..][0] == p[pi];
  }

  lemma NoMatch(p: seq<Token>, t: seq<Token>, pi: nat, ti: nat)
    requires pi <= |p| && ti < |t| && (pi < |p| ==> p[pi] != t[ti] && p[pi] != Wild)
    ensures !Matches(p[pi..], t[ti..])
  {
    assert pi < |p| ==> p[pi..][0] == p[pi];
  }

  /** An unanchored rule matches exactly when its tokens match some prefix of the target. */
  lemma {:induction false} UnanchoredMatchesPrefix(p: seq<Token>, t: seq<Token>)
    ensures Matches(FullPattern(p, false), t) <==> exists k :: 0 <= k <= |t| && Matches(p, t[..k])
    decreases |p|, |t|
  {
    var q := p + [Wild];
    if p == [] {
      assert q[1..] == [] && t[|t|..] == [] && t[..0] == [];
      assert Matches([], t[..0]);
      assert Matches(q[1..], t[|t|..]);
    } else {
      assert q[1..] == p[1..] + [Wild];
      if p[0] == Wild {
        forall j | 0 <= j <= |t|
          ensures Matches(q[1..], t[j..]) <==> exists k :: 0 <= k <= |t[j..]| && Matches(p[1..], t[j..][..k])
        {
          UnanchoredMatchesPrefix(p[1..], t[j..]);
        }
        if Matches(q, t) {
          var j :| 0 <= j <= |t| && Matches(q[1..], t[j..]);
          var k :| 0 <= k <= |t[j..]| && Matches(p[1..], t[j..][..k]);
          assert t[..j + k][j..] == t[j..][..k];
          assert Matches(p, t[..j + k]);
        }
        if k :| 0 <= k <= |t| && Matches(p, t[..k]) {
          var j :| 0 <= j <= k && Matches(p[1..], t[..k][j..]);
          assert t[j..][..k - j] == t[..k][j..];
          assert Matches(q[1..], t[j..]);
        }
      } else if t != [] {
        UnanchoredMatchesPrefix(p[1..], t[1..]);
        if Matches(q, t) {
          var k :| 0 <= k <= |t[1..]| && Matches(p[1..], t[1..][..k]);
          assert t[..k + 1][1..] == t[1..][..k];
          assert Matches(p, t[..k + 1]);
        }
        if k :| 0 <= k <= |t| && Matches(p, t[..k]) {
          assert t[1..][..k - 1] == t[..k][1..];
        }
      }
    }
  }
}
