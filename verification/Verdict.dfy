/** The decision of a robots.txt file on a target path (RFC 9309 section 2.2). */
module Verdict {
  import opened Wrappers
  import opened Text
  import opened Normalize
  import opened Matcher
  import opened RobotsFile

  const MAX_ROBOTS_BYTES := 512_000
  const PRODUCT_TOKEN: Str := Codes("GrowthOSBot")
  const ROBOTS_URI: Str := Codes("/robots.txt")

  datatype ErrorCode = InvalidInput | TooLarge | InvalidEncoding

  datatype Reason = RobotsUri | MatchedAllow | MatchedDisallow | NoMatchingGroup | NoMatchingRule

  datatype Decision = Decision(allowed: bool, reason: Reason, agent: Option<Str>, rule: Option<Str>)

  predicate ValidTarget(t: Str) {
    && t != [] && t[0] == SLASH
    && !(|t| > 1 && t[1] == SLASH)
    && HASH !in t
    && (forall i :: 0 <= i < |t| ==> t[i] >= 0x20 && t[i] != 0x7F)
    && WellEscaped(t)
  }

  // ---------- Group selection ----------

  predicate IsExact(g: GroupValue) {
    exists i :: 0 <= i < |g.agents| && Lower(g.agents[i]) == Lower(PRODUCT_TOKEN)
  }

  predicate IsWildcard(g: GroupValue) { [STAR] in g.agents }

  function Filter(gs: seq<GroupValue>, exact: bool): (r: seq<GroupValue>)
    ensures forall g :: g in r <==> g in gs && (if exact then IsExact(g) else IsWildcard(g))
  {
    if gs == [] then []
    else
      var g, n := gs[|gs| - 1], |gs| - 1;
      Filter(gs[..n], exact) + (if (if exact then IsExact(g) else IsWildcard(g)) then [g] else [])
  }

  /** Groups that name the product, or else the groups for every agent. */
  function Selected(gs: seq<GroupValue>): seq<GroupValue> {
    if Filter(gs, true) != [] then Filter(gs, true) else Filter(gs, false)
  }

  function AllRules(gs: seq<GroupValue>): (r: seq<Rule>)
    ensures forall x :: x in r <==> exists g :: g in gs && x in g.rules
  {
    if gs == [] then [] else AllRules(gs[..|gs| - 1]) + gs[|gs| - 1].rules
  }

  // ---------- Rule selection ----------

  ghost predicate Applies(r: Rule, target: seq<Token>) { Matches(FullPattern(r.tokens, r.anchored), target) }

  /** `r` is better than `s`: more specific, or as specific and an Allow against a Disallow. */
  predicate Better(r: Rule, s: Rule) {
    r.specificity > s.specificity || (r.specificity == s.specificity && r.allowed && !s.allowed)
  }

  /** The first of the best rules that apply. */
  ghost function Winner(rules: seq<Rule>, target: seq<Token>): Option<Rule> {
    if rules == [] then None
    else
      var n := |rules| - 1;
      var w := Winner(rules[..n], target);
      if Applies(rules[n], target) && (w.None? || Better(rules[n], w.value)) then Some(rules[n]) else w
  }

  /** The verdict of a parsed file on a normalised target. */
  ghost function Decide(gs: seq<GroupValue>, target: Normal): Decision {
    if Before(target.text, QUESTION) == ROBOTS_URI then Decision(true, RobotsUri, None, None)
    else if Selected(gs) == [] then Decision(true, NoMatchingGroup, None, None)
    else
      var agent := if Filter(gs, true) != [] then PRODUCT_TOKEN else [STAR];
      match Winner(AllRules(Selected(gs)), target.tokens)
      case None => Decision(true, NoMatchingRule, Some(agent), None)
      case Some(w) =>
        Decision(w.allowed, if w.allowed then MatchedAllow else MatchedDisallow, Some(agent), Some(w.normalized))
  }

  ghost function Evaluate(robotsTxt: seq<Octet>, target: Str): Result<Decision, ErrorCode> {
    if |robotsTxt| > MAX_ROBOTS_BYTES then Err(TooLarge)
    else
      match Decode(robotsTxt)
      case None => Err(InvalidEncoding)
      case Some(text) =>
        if !ValidTarget(target) then Err(InvalidInput)
        else Ok(Decide(ParseGroups(text), TargetForm(target)))
  }

  ghost function TargetForm(target: Str): (n: Normal)
    requires ValidTarget(target)
    ensures NormalForm(target, false) == Some(n) && WildFree(n.tokens)
  {
    WellEscapedNormalizes(target, false);
    TokensCanonical(target, false);
    NormalForm(target, false).value
  }

  // ---------- The loops of the original ----------

  /** Without repetitions, in order of first occurrence. */
  function Unique(rules: seq<Rule>): (r: seq<Rule>)
    ensures forall x :: x in r <==> x in rules
  {
    if rules == [] then []
    else
      var n := |rules| - 1;
      var u := Unique(rules[..n]);
      if rules[n] in u then u else u + [rules[n]]
  }

  method SelectWinner(rules: seq<Rule>, target: seq<Token>) returns (winner: Option<Rule>)
    requires WildFree(target)
    ensures winner == Winner(rules, target)
  {
    winner := None;
    for i := 0 to |rules|
      invariant winner == Winner(rules[..i], target)
    {
      var rule := rules[i];
      assert rules[..i + 1][..i] == rules[..i];
      var matched := MatchTokens(rule.tokens, rule.anchored, target);
      if !matched {
        continue;
      }
      if winner.None? || rule.specificity > winner.value.specificity {
        winner := Some(rule);
      } else if rule.specificity == winner.value.specificity && rule.allowed && !winner.value.allowed {
        winner := Some(rule);
      }
    }
    assert rules[..|rules|] == rules;
  }

  method CollectUnique(rules: seq<Rule>) returns (unique: seq<Rule>)
    ensures unique == Unique(rules)
  {
    unique := [];
    for i := 0 to |rules|
      invariant unique == Unique(rules[..i])
    {
      assert rules[..i + 1][..i] == rules[..i];
      if rules[i] !in unique {
        unique := unique + [rules[i]];
      }
    }
    assert rules[..|rules|] == rules;
  }

  method SelectGroups(groups: seq<Group>, ghost gs: seq<GroupValue>, exact: bool)
    returns (selected: seq<Group>, rules: seq<Rule>)
    requires Represents(groups, gs)
    ensures |selected| == |Filter(gs, exact)| && rules == AllRules(Filter(gs, exact))
  {
    selected, rules := [], [];
    for i := 0 to |groups|
      invariant |selected| == |Filter(gs[..i], exact)| && rules == AllRules(Filter(gs[..i], exact))
    {
      assert gs[..i + 1][..i] == gs[..i];
      var g := groups[i];
      assert g.Value() == gs[i];
      var wanted := if exact then IsExact(g.Value()) else [STAR] in g.agents;
      if wanted {
        AllRulesSnoc(Filter(gs[..i], exact), gs[i]);
        selected, rules := selected + [g], rules + g.rules;
      } else {
        assert Filter(gs[..i], exact) + [] == Filter(gs[..i], exact);
      }
    }
    assert gs[..|groups|] == gs;
  }

  lemma AllRulesSnoc(gs: seq<GroupValue>, g: GroupValue)
    ensures AllRules(gs + [g]) == AllRules(gs) + g.rules
  {
    assert (gs + [g])[..|gs|] == gs;
  }

  method EvaluateRobots(robotsTxt: seq<Octet>, targetPath: Str) returns (r: Result<Decision, ErrorCode>)
    ensures r == Evaluate(robotsTxt, targetPath)
  {
    hide Winner, Filter, AllRules, ParseGroups, NormalForm;
    if |robotsTxt| > MAX_ROBOTS_BYTES {
      return Err(TooLarge);
    }
    var decoded := Decode(robotsTxt);
    if decoded.None? {
      return Err(InvalidEncoding);
    }
    if !ValidTarget(targetPath) {
      return Err(InvalidInput);
    }
    ghost var form := TargetForm(targetPath);
    var normal := NormalizeText(targetPath, false);
    var target := normal.value;
    if Before(target.text, QUESTION) == ROBOTS_URI {
      return Ok(Decision(true, RobotsUri, None, None));
    }
    var groups := BuildGroups(decoded.value);
    ghost var gs := ParseGroups(decoded.value);
    var exactGroups, exactRules := SelectGroups(groups, gs, true);
    var selected, rules := exactGroups, exactRules;
    if exactGroups == [] {
      selected, rules := SelectGroups(groups, gs, false);
    }
    if selected == [] {
      return Ok(Decision(true, NoMatchingGroup, None, None));
    }
    var agent := if exactGroups != [] then PRODUCT_TOKEN else [STAR];
    var unique := CollectUnique(rules);
    var winner := SelectWinner(unique, target.tokens);
    WinnerOfUnique(rules, target.tokens);
    if winner.None? {
      return Ok(Decision(true, NoMatchingRule, Some(agent), None));
    }
    var w := winner.value;
    return Ok(Decision(w.allowed, if w.allowed then MatchedAllow else MatchedDisallow, Some(agent), Some(w.normalized)));
  }

  // ---------- What the winner is ----------

  /** `w` applies, nothing that applies is better, and everything before it that applies is worse. */
  ghost predicate FirstBest(rules: seq<Rule>, target: seq<Token>, i: int) {
    && 0 <= i < |rules| && Applies(rules[i], target)
    && (forall j :: 0 <= j < |rules| && Applies(rules[j], target) ==> !Better(rules[j], rules[i]))
    && (forall j :: 0 <= j < i && Applies(rules[j], target) ==> Better(rules[i], rules[j]))
  }

  lemma {:induction false} WinnerIsFirstBest(rules: seq<Rule>, target: seq<Token>)
    ensures match Winner(rules, target)
            case None => forall r :: r in rules ==> !Applies(r, target)
            case Some(w) => exists i :: FirstBest(rules, target, i) && rules[i] == w
  {
    hide Matches;
    if rules != [] {
      var n := |rules| - 1;
      WinnerIsFirstBest(rules[..n], target);
      assert rules == rules[..n] + [rules[n]];
      if Winner(rules[..n], target).Some? {
        var i :| FirstBest(rules[..n], target, i) && rules[..n][i] == Winner(rules[..n], target).value;
        assert rules[i] == rules[..n][i];
        assert forall j :: 0 <= j < n ==> rules[j] == rules[..n][j];
        if Winner(rules, target) == Some(rules[n]) && Applies(rules[n], target) && Better(rules[n], rules[i]) {
          assert FirstBest(rules, target, n);
        } else {
          assert FirstBest(rules, target, i);
        }
      } else if Applies(rules[n], target) {
        assert forall j :: 0 <= j < n ==> rules[j] in rules[..n];
        assert FirstBest(rules, target, n);
      }
    }
  }

  /** There is at most one first-best position, so it determines the winner. */
  lemma FirstBestUnique(rules: seq<Rule>, target: seq<Token>, i: int, j: int)
    requires FirstBest(rules, target, i) && FirstBest(rules, target, j)
    ensures i == j
  {
  }

  /** Dropping repetitions does not change the winner. */
  lemma {:induction false} WinnerOfUnique(rules: seq<Rule>, target: seq<Token>)
    ensures Winner(Unique(rules), target) == Winner(rules, target)
  {
    hide Applies;
    if rules != [] {
      var n := |rules| - 1;
      var u := Unique(rules[..n]);
      WinnerOfUnique(rules[..n], target);
      if rules[n] in u {
        WinnerIsFirstBest(rules[..n], target);
      } else {
        assert (u + [rules[n]])[..|u|] == u;
      }
    }
  }

  /** RFC 9309 section 2.2.2: a decision is Disallow exactly when some Disallow that applies is more
      specific than every Allow that applies. */
  lemma WinnerAllows(rules: seq<Rule>, target: seq<Token>)
    ensures (Winner(rules, target).Some? && !Winner(rules, target).value.allowed)
       <==> exists d :: d in rules && Applies(d, target) && !d.allowed
                        && forall a :: a in rules && Applies(a, target) && a.allowed ==> a.specificity < d.specificity
  {
    hide Applies;
    WinnerIsFirstBest(rules, target);
  }

  ghost predicate Allows(rules: seq<Rule>, target: seq<Token>) {
    Winner(rules, target).Some? ==> Winner(rules, target).value.allowed
  }

  /** The decision stated without the selection loop. */
  lemma DecisionMeaning(gs: seq<GroupValue>, target: Normal)
    ensures var d, rules := Decide(gs, target), AllRules(Selected(gs));
            && (d.allowed <==>
                Before(target.text, QUESTION) == ROBOTS_URI || Selected(gs) == []
                || forall x :: x in rules && Applies(x, target.tokens) && !x.allowed ==>
                     exists a :: a in rules && Applies(a, target.tokens) && a.allowed && a.specificity >= x.specificity)
            && (d.rule.Some? ==> exists i :: FirstBest(rules, target.tokens, i) && rules[i].normalized == d.rule.value
                                           && rules[i].allowed == d.allowed)
            && (d.rule.None? && d.agent.Some? ==> forall x :: x in rules ==> !Applies(x, target.tokens))
  {
    hide Applies, Winner, Filter, AllRules, Selected;
    var rules := AllRules(Selected(gs));
    WinnerIsFirstBest(rules, target.tokens);
    WinnerAllows(rules, target.tokens);
    if Winner(rules, target.tokens).Some? {
      var i :| FirstBest(rules, target.tokens, i) && rules[i] == Winner(rules, target.tokens).value;
      assert FirstBest(rules, target.tokens, i) && rules[i].normalized == Winner(rules, target.tokens).value.normalized;
    }
  }

  /** Only the set of rules matters for the verdict and for the winner's strength. */
  lemma SameRulesSameVerdict(rs: seq<Rule>, rs': seq<Rule>, target: seq<Token>)
    requires forall r :: r in rs <==> r in rs'
    ensures Winner(rs, target).Some? <==> Winner(rs', target).Some?
    ensures Winner(rs, target).Some? ==>
              var w, w' := Winner(rs, target).value, Winner(rs', target).value;
              w.allowed == w'.allowed && w.specificity == w'.specificity
  {
    hide Applies;
    WinnerIsFirstBest(rs, target);
    WinnerIsFirstBest(rs', target);
    if Winner(rs, target).Some? && Winner(rs', target).Some? {
      var i :| FirstBest(rs, target, i) && rs[i] == Winner(rs, target).value;
      var j :| FirstBest(rs', target, j) && rs'[j] == Winner(rs', target).value;
      assert rs[i] in rs && rs'[j] in rs';
      var i' :| 0 <= i' < |rs'| && rs'[i'] == rs[i];
      var j' :| 0 <= j' < |rs| && rs[j'] == rs'[j];
    }
  }

  // ---------- The reported rule ----------

  /** The normalised text that is reported. */
  ghost function Report(rules: seq<Rule>, target: seq<Token>): Option<Str> {
    var w := Winner(rules, target);
    if w.Some? then Some(w.value.normalized) else None
  }

  ghost predicate Best(rules: seq<Rule>, target: seq<Token>, r: Rule) {
    r in rules && Applies(r, target) && forall x :: x in rules && Applies(x, target) ==> !Better(x, r)
  }

  function ToFront(rules: seq<Rule>, i: nat): seq<Rule>
    requires i < |rules|
  {
    [rules[i]] + (rules[..i] + rules[i + 1..])
  }

  /** A best rule wins once it comes first. */
  lemma FrontWins(rules: seq<Rule>, target: seq<Token>, i: nat)
    requires i < |rules| && Best(rules, target, rules[i])
    ensures multiset(ToFront(rules, i)) == multiset(rules)
    ensures Winner(ToFront(rules, i), target) == Some(rules[i])
  {
    hide Applies, Winner;
    var front := ToFront(rules, i);
    assert rules == rules[..i] + [rules[i]] + rules[i + 1..];
    assert forall r :: r in front <==> r in rules;
    assert front[0] == rules[i] && FirstBest(front, target, 0);
    WinnerIsFirstBest(front, target);
    if Winner(front, target).Some? {
      var k :| FirstBest(front, target, k) && front[k] == Winner(front, target).value;
      FirstBestUnique(front, target, 0, k);
    }
  }

  /** The winner of any order is one of the best rules. */
  lemma WinnerIsBest(rules: seq<Rule>, order: seq<Rule>, target: seq<Token>)
    requires multiset(order) == multiset(rules)
    ensures match Winner(order, target)
            case None => forall r :: r in rules ==> !Applies(r, target)
            case Some(w) => Best(rules, target, w)
  {
    hide Applies, Winner;
    assert forall r :: r in order <==> r in multiset(order);
    assert forall r :: r in rules <==> r in multiset(rules);
    WinnerIsFirstBest(order, target);
    if Winner(order, target).Some? {
      var k :| FirstBest(order, target, k) && order[k] == Winner(order, target).value;
      assert order[k] in order;
    }
  }

  /** Every order of the rules reports the same text exactly when all best rules have the same text. */
  lemma OrderMattersToReport(rules: seq<Rule>, target: seq<Token>)
    ensures (forall order :: multiset(order) == multiset(rules) ==> Report(order, target) == Report(rules, target))
       <==> (forall a, b :: Best(rules, target, a) && Best(rules, target, b) ==> a.normalized == b.normalized)
  {
    hide Winner, Best;
    if (forall order :: multiset(order) == multiset(rules) ==> Report(order, target) == Report(rules, target)) {
      forall a, b | Best(rules, target, a) && Best(rules, target, b)
        ensures a.normalized == b.normalized
      {
        var i, k := BestAt(rules, target, a), BestAt(rules, target, b);
        FrontWins(rules, target, i);
        FrontWins(rules, target, k);
        assert Report(ToFront(rules, i), target) == Report(ToFront(rules, k), target);
      }
    }
    if (forall a, b :: Best(rules, target, a) && Best(rules, target, b) ==> a.normalized == b.normalized) {
      forall order | multiset(order) == multiset(rules)
        ensures Report(order, target) == Report(rules, target)
      {
        WinnerIsBest(rules, order, target);
        WinnerIsBest(rules, rules, target);
        NoBestWithoutWinner(rules, target);
      }
    }
  }

  lemma NoBestWithoutWinner(rules: seq<Rule>, target: seq<Token>)
    ensures (forall r :: r in rules ==> !Applies(r, target)) ==> forall r :: !Best(rules, target, r)
  {
  }

  ghost function BestAt(rules: seq<Rule>, target: seq<Token>, r: Rule): (i: nat)
    requires Best(rules, target, r)
    ensures i < |rules| && rules[i] == r
  {
    var i :| 0 <= i < |rules| && rules[i] == r;
    i
  }

  const RULE_A := Rule(true, [SLASH, 0x61], [Lit(SLASH), Lit(0x61)], false, 2)
  const RULE_STAR_A := Rule(true, [SLASH, STAR, 0x61], [Lit(SLASH), Wild, Lit(0x61)], false, 2)
  const TARGET_A: seq<Token> := [Lit(SLASH), Lit(0x61)]

  lemma BothRulesApply()
    ensures Applies(RULE_A, TARGET_A) && Applies(RULE_STAR_A, TARGET_A)
  {
    TwoTokensApply(Lit(SLASH), Lit(0x61));
    hide Matches;
    assert FullPattern(RULE_A.tokens, false) == [Lit(SLASH), Lit(0x61), Wild];
    assert FullPattern(RULE_STAR_A.tokens, false) == [Lit(SLASH), Wild, Lit(0x61), Wild];
  }

  lemma TwoTokensApply(a: Token, b: Token)
    requires a != Wild && b != Wild
    ensures Matches([a, b, Wild], [a, b]) && Matches([a, Wild, b, Wild], [a, b])
  {
    assert Matches([], []);
    hide Matches;
    MatchesMore(Wild, [], []);
    MatchesMore(b, [Wild], []);
    MatchesMore(Wild, [b, Wild], [b]);
    MatchesMore(a, [b, Wild], [b]);
    MatchesMore(a, [Wild, b, Wild], [b]);
    assert [Wild] + [] == [Wild] && [b] + [] == [b] && [b] + [Wild] == [b, Wild] && [Wild] + [b, Wild] == [Wild, b, Wild];
    assert [a] + [b] == [a, b] && [a] + [b, Wild] == [a, b, Wild] && [a] + [Wild, b, Wild] == [a, Wild, b, Wild];
  }

  /** One more token matches itself, or, as a wildcard, nothing. */
  lemma MatchesMore(token: Token, p: seq<Token>, t: seq<Token>)
    requires Matches(p, t)
    ensures if token == Wild then Matches([Wild] + p, t) else Matches([token] + p, [token] + t)
  {
    assert ([token] + p)[1..] == p && ([token] + t)[1..] == t;
    if token == Wild { assert t[0..] == t; }
  }

  /** Of two different rules of the same strength that apply, the first one is reported. */
  lemma FirstIsReported(a: Rule, b: Rule, target: seq<Token>)
    requires Applies(a, target) && Applies(b, target) && !Better(a, b) && !Better(b, a)
    ensures Report([a, b], target) == Some(a.normalized)
  {
    hide Applies, Better;
    var one, both := [a], [a, b];
    assert one[..0] == [] && both[..1] == one;
    assert Winner(one, target) == Some(a);
    assert Winner(both, target) == Some(a);
  }

  // The rules "/a" and "/" "*" "a" are equally strong on the target "/a".
  lemma TwoOrdersTwoReports()
    ensures multiset([RULE_A, RULE_STAR_A]) == multiset([RULE_STAR_A, RULE_A])
    ensures Report([RULE_A, RULE_STAR_A], TARGET_A) == Some(RULE_A.normalized)
    ensures Report([RULE_STAR_A, RULE_A], TARGET_A) == Some(RULE_STAR_A.normalized)
    ensures RULE_A.normalized != RULE_STAR_A.normalized
  {
    BothRulesApply();
    hide Applies, Report;
    FirstIsReported(RULE_A, RULE_STAR_A, TARGET_A);
    FirstIsReported(RULE_STAR_A, RULE_A, TARGET_A);
  }

  /** Both rules are what the parser makes of their texts. */
  lemma BothRulesAreParsed()
    ensures ParseRule(RULE_A.normalized, true) == Some(RULE_A)
    ensures ParseRule(RULE_STAR_A.normalized, true) == Some(RULE_STAR_A)
  {
    ParsedAsIs(RULE_A);
    ParsedAsIs(RULE_STAR_A);
  }

  lemma ParsedAsIs(r: Rule)
    requires r == RULE_A || r == RULE_STAR_A
    ensures ParseRule(r.normalized, true) == Some(r)
  {
    assert [Lit(0x61)][1..] == [] && Render([Lit(0x61)]) == [0x61];
    assert RULE_A.tokens[1..] == [Lit(0x61)] && RULE_STAR_A.tokens[1..] == [Wild, Lit(0x61)];
    assert [Wild, Lit(0x61)][1..] == [Lit(0x61)] && Render([Wild, Lit(0x61)]) == [STAR, 0x61];
    assert Render(r.tokens) == r.normalized;
    assert Specificity([Lit(0x61)]) == 1 && Specificity([Wild, Lit(0x61)]) == 1 && Specificity(r.tokens) == 2;
    TokenizeRender(r.tokens, true);
    hide Tokenize, Render, Specificity;
  }

  /** Adding Allow rules never turns an allowed target into a disallowed one, and removing Disallow
      rules does not either. */
  lemma MoreAllowMonotone(rs: seq<Rule>, rs': seq<Rule>, target: seq<Token>)
    requires Allows(rs, target)
    requires forall r :: r in rs && r.allowed ==> r in rs'
    requires forall r :: r in rs' && !r.allowed ==> r in rs
    ensures Allows(rs', target)
  {
    hide Applies, Winner;
    WinnerAllows(rs, target);
    WinnerAllows(rs', target);
  }

  /** Files that select the same rules, however they are grouped, ordered or repeated, give the same verdict. */
  lemma RegroupingSameVerdict(gs: seq<GroupValue>, gs': seq<GroupValue>, target: Normal)
    requires (exists g :: g in gs && IsExact(g)) <==> (exists g :: g in gs' && IsExact(g))
    requires (exists g :: g in gs && IsWildcard(g)) <==> (exists g :: g in gs' && IsWildcard(g))
    requires forall r :: r in AllRules(Selected(gs)) <==> r in AllRules(Selected(gs'))
    ensures var d, d' := Decide(gs, target), Decide(gs', target);
            d.allowed == d'.allowed && d.reason == d'.reason && d.agent == d'.agent
  {
    hide Winner;
    assert Filter(gs, true) == [] <==> Filter(gs', true) == [] by { NonEmpty(gs, gs', true); }
    assert Filter(gs, false) == [] <==> Filter(gs', false) == [] by { NonEmpty(gs, gs', false); }
    SameRulesSameVerdict(AllRules(Selected(gs)), AllRules(Selected(gs')), target.tokens);
  }

  lemma NonEmpty(gs: seq<GroupValue>, gs': seq<GroupValue>, exact: bool)
    requires (exists g :: g in gs && (if exact then IsExact(g) else IsWildcard(g)))
        <==> (exists g :: g in gs' && (if exact then IsExact(g) else IsWildcard(g)))
    ensures Filter(gs, exact) == [] <==> Filter(gs', exact) == []
  {
    var f, f' := Filter(gs, exact), Filter(gs', exact);
    if f != [] { assert f[0] in f; }
    if f' != [] { assert f'[0] in f'; }
  }

  // ---------- Normalised targets ----------

  /** An accepted target normalises to an accepted target with the same decision in every file. */
  lemma NormalizedTargetSameDecision(robotsTxt: seq<Octet>, target: Str)
    requires ValidTarget(target)
    ensures ValidTarget(TargetForm(target).text)
    ensures Evaluate(robotsTxt, TargetForm(target).text) == Evaluate(robotsTxt, target)
  {
    hide Decide, Decode, ParseGroups;
    var n := TargetForm(target);
    NormalTargetValid(target);
    NormalizeIdempotent(target, false);
  }

  lemma NormalTargetValid(target: Str)
    requires ValidTarget(target)
    ensures ValidTarget(TargetForm(target).text)
  {
    hide Render, Tokenize, FirstUnit, WellEscaped;
    var n := TargetForm(target);
    assert WellEscaped(n.text) by {
      TokensCanonical(target, false);
      RenderWellEscaped(n.tokens, false);
    }
    NormalStartsWithSlash(target, false);
    assert HASH !in n.text && forall i :: 0 <= i < |n.text| ==> n.text[i] >= 0x20 && n.text[i] != 0x7F by {
      NormalCharacters(target, false);
      assert forall i :: 0 <= i < |n.text| ==> n.text[i] in n.text;
    }
    SecondCharacter(target);
  }

  /** A second `/` does not appear by normalisation. */
  lemma SecondCharacter(target: Str)
    requires ValidTarget(target)
    ensures |TargetForm(target).text| > 1 ==> TargetForm(target).text[1] != SLASH
  {
    var n := TargetForm(target);
    NormalStartsWithSlash(target, false);
    var rest := n.tokens[1..];
    if rest != [] {
      var u := FirstUnit(target[1..], false).value;
      assert rest[0] == u.0[0] && u.0[0] != Lit(SLASH);
      TokensCanonical(target, false);
      assert CanonicalToken(n.tokens[1], false);
      assert TokenText(rest[0])[0] != SLASH;
      assert n.text[1] == TokenText(rest[0])[0];
    }
  }

  // ---------- Rewriting a file in canonical form ----------

  /** The rendering of a parsed file, if it keeps within the size limit, decides every target as the file does. */
  lemma CanonicalFileSameDecisions(robotsTxt: seq<Octet>, target: Str)
    requires |robotsTxt| <= MAX_ROBOTS_BYTES && Decode(robotsTxt).Some?
    ensures var text := RenderGroups(ParseGroups(Decode(robotsTxt).value));
            && (forall c :: c in text ==> !IsSurrogate(c))
            && (|Encode(text)| <= MAX_ROBOTS_BYTES ==> Evaluate(Encode(text), target) == Evaluate(robotsTxt, target))
  {
    hide Decide, ParseGroups, Decode, RenderGroups;
    var text := Decode(robotsTxt).value;
    ParseRenderParse(text);
    RenderedAscii(text);
    DecodeEncode(RenderGroups(ParseGroups(text)));
  }

  lemma RenderedAscii(text: Str)
    ensures forall c :: c in RenderGroups(ParseGroups(text)) ==> c < 0x80
  {
    AddLinesWellFormed([], SplitLines(text));
    GroupLinesAscii(ParseGroups(text));
    UnlinesAscii(GroupLines(ParseGroups(text)));
  }

  ghost predicate Ascii(s: Str) { forall c :: c in s ==> c < 0x80 }

  lemma {:induction false} UnlinesAscii(ls: seq<Str>)
    requires forall i :: 0 <= i < |ls| ==> Ascii(ls[i])
    ensures Ascii(Unlines(ls))
  {
    if ls != [] {
      UnlinesAscii(ls[1..]);
    }
  }

  lemma RuleLineAscii(r: Rule)
    requires CanonicalRule(r)
    ensures Ascii(RuleLine(r))
  {
    FieldNames();
    NormalCharacters(r.normalized, true);
  }

  lemma {:induction false} GroupLinesAscii(gs: seq<GroupValue>)
    requires forall i :: 0 <= i < |gs| ==> WellFormedGroup(gs[i])
    ensures forall i :: 0 <= i < |GroupLines(gs)| ==> Ascii(GroupLines(gs)[i])
  {
    hide CanonicalRule;
    if gs != [] {
      var g := gs[0];
      forall i | 0 <= i < |g.agents|
        ensures Ascii(AgentLines(g.agents)[i])
      {
        FieldNames();
        assert ProductToken(g.agents[i]);
      }
      forall i | 0 <= i < |g.rules|
        ensures Ascii(RuleLines(g.rules)[i])
      {
        RuleLineAscii(g.rules[i]);
      }
      GroupLinesAscii(gs[1..]);
    }
  }
}
