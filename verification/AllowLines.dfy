/** Adding one `Allow` line to a robots.txt file: when it can only help. */
module AllowLines {
  import opened Wrappers
  import opened Text
  import opened Normalize
  import opened Matcher
  import opened RobotsFile
  import opened Verdict

  /** The first line that contributes something. */
  function NextRecord(lines: seq<Str>): Record {
    if lines == [] then Ignored
    else if ParseLine(lines[0]).Ignored? then NextRecord(lines[1..])
    else ParseLine(lines[0])
  }

  /** The open group has no rule yet, and its agent list goes on: a rule between `before` and `after` would
      split the group. */
  predicate SplitsAgents(before: seq<Str>, after: seq<Str>) {
    var gs := AddLines([], before);
    gs != [] && gs[|gs| - 1].rules == [] && NextRecord(after).AgentRecord?
  }

  /** The same groups, but for one more rule somewhere. */
  ghost predicate OneMoreRule(gs: seq<GroupValue>, gs': seq<GroupValue>, rule: Rule) {
    && |gs| == |gs'|
    && forall i :: 0 <= i < |gs| ==> MoreInGroup(gs[i], gs'[i], rule)
  }

  ghost predicate MoreInGroup(g: GroupValue, g': GroupValue, rule: Rule) {
    && g'.agents == g.agents
    && (forall x :: x in g.rules ==> x in g'.rules) && (forall x :: x in g'.rules ==> x in g.rules || x == rule)
  }

  /** The open groups are both still without rules, or both not. */
  predicate SameOpenGroup(gs: seq<GroupValue>, gs': seq<GroupValue>)
    requires |gs| == |gs'|
  {
    gs != [] ==> (gs[|gs| - 1].rules == [] <==> gs'[|gs| - 1].rules == [])
  }

  lemma RecordKeepsOneMore(gs: seq<GroupValue>, gs': seq<GroupValue>, rule: Rule, r: Record)
    requires OneMoreRule(gs, gs', rule) && (r.AgentRecord? ==> SameOpenGroup(gs, gs'))
    ensures OneMoreRule(AddRecord(gs, r), AddRecord(gs', r), rule)
    ensures !r.Ignored? ==> SameOpenGroup(AddRecord(gs, r), AddRecord(gs', r))
    ensures SameOpenGroup(gs, gs') ==> SameOpenGroup(AddRecord(gs, r), AddRecord(gs', r))
  {
  }

  lemma {:induction false} LinesKeepOneMore(gs: seq<GroupValue>, gs': seq<GroupValue>, rule: Rule, lines: seq<Str>)
    requires OneMoreRule(gs, gs', rule) && (SameOpenGroup(gs, gs') || !NextRecord(lines).AgentRecord?)
    ensures OneMoreRule(AddLines(gs, lines), AddLines(gs', lines), rule)
    decreases |lines|
  {
    hide OneMoreRule, SameOpenGroup, AddRecord, ParseLine;
    if lines != [] {
      LengthsAgree(gs, gs', rule);
      RecordKeepsOneMore(gs, gs', rule, ParseLine(lines[0]));
      assert AddRecord(gs, Ignored) == gs && AddRecord(gs', Ignored) == gs' by { IgnoredAddsNothing(gs); IgnoredAddsNothing(gs'); }
      LinesKeepOneMore(AddRecord(gs, ParseLine(lines[0])), AddRecord(gs', ParseLine(lines[0])), rule, lines[1..]);
    }
  }

  lemma IgnoredAddsNothing(gs: seq<GroupValue>)
    ensures AddRecord(gs, Ignored) == gs
  {
  }

  lemma LengthsAgree(gs: seq<GroupValue>, gs': seq<GroupValue>, rule: Rule)
    requires OneMoreRule(gs, gs', rule)
    ensures |gs| == |gs'|
  {
  }

  lemma {:induction false} FilterOneMore(gs: seq<GroupValue>, gs': seq<GroupValue>, rule: Rule, exact: bool)
    requires OneMoreRule(gs, gs', rule)
    ensures OneMoreRule(Filter(gs, exact), Filter(gs', exact), rule)
  {
    if gs != [] {
      FilterOneMore(gs[..|gs| - 1], gs'[..|gs| - 1], rule, exact);
    }
  }

  lemma OneMoreAllowHelps(gs: seq<GroupValue>, gs': seq<GroupValue>, rule: Rule, target: Normal)
    requires OneMoreRule(gs, gs', rule) && rule.allowed && Decide(gs, target).allowed
    ensures Decide(gs', target).allowed
  {
    FilterOneMore(gs, gs', rule, true);
    FilterOneMore(gs, gs', rule, false);
    var rs, rs' := AllRules(Selected(gs)), AllRules(Selected(gs'));
    RulesOneMore(Selected(gs), Selected(gs'), rule);
    hide Winner, Filter, AllRules;
    if Before(target.text, QUESTION) != ROBOTS_URI && Selected(gs) != [] {
      MoreAllowMonotone(rs, rs', target.tokens);
    }
  }

  lemma RulesOneMore(gs: seq<GroupValue>, gs': seq<GroupValue>, rule: Rule)
    requires OneMoreRule(gs, gs', rule)
    ensures forall x :: x in AllRules(gs) ==> x in AllRules(gs')
    ensures forall x :: x in AllRules(gs') ==> x in AllRules(gs) || x == rule
  {
    forall x | x in AllRules(gs)
      ensures x in AllRules(gs')
    {
      var g :| g in gs && x in g.rules;
      var i :| 0 <= i < |gs| && gs[i] == g;
      assert MoreInGroup(gs[i], gs'[i], rule) && gs'[i] in gs';
    }
    forall x | x in AllRules(gs') && x != rule
      ensures x in AllRules(gs)
    {
      var g :| g in gs' && x in g.rules;
      var i :| 0 <= i < |gs'| && gs'[i] == g;
      assert MoreInGroup(gs[i], gs'[i], rule) && gs[i] in gs;
    }
  }

  lemma RuleAddsOne(gs: seq<GroupValue>, rule: Rule)
    ensures OneMoreRule(gs, AddRecord(gs, RuleRecord(rule)), rule)
    ensures gs == [] || gs[|gs| - 1].rules != [] ==> SameOpenGroup(gs, AddRecord(gs, RuleRecord(rule)))
  {
  }

  lemma AroundLine(before: seq<Str>, line: Str, after: seq<Str>)
    ensures AddLines([], before + after) == AddLines(AddLines([], before), after)
    ensures AddLines([], before + [line] + after) == AddLines(AddRecord(AddLines([], before), ParseLine(line)), after)
  {
    AddLinesConcat([], before, after);
    AddLinesConcat([], before, [line] + after);
    assert before + [line] + after == before + ([line] + after);
    assert ([line] + after)[1..] == after;
    hide ParseLine, AddRecord;
  }

  /** An added `Allow` line never turns an allowed target into a disallowed one, unless it splits an agent list. */
  lemma AllowLineHelps(before: seq<Str>, line: Str, after: seq<Str>, target: Normal)
    requires ParseLine(line).RuleRecord? && ParseLine(line).rule.allowed && !SplitsAgents(before, after)
    requires Decide(AddLines([], before + after), target).allowed
    ensures Decide(AddLines([], before + [line] + after), target).allowed
  {
    hide Decide, ParseLine, AddLines, AddRecord, OneMoreRule, SameOpenGroup, NextRecord;
    var gs, rule := AddLines([], before), ParseLine(line).rule;
    var gs' := AddRecord(gs, RuleRecord(rule));
    AroundLine(before, line, after);
    RuleAddsOne(gs, rule);
    LengthsAgree(gs, gs', rule);
    LinesKeepOneMore(gs, gs', rule, after);
    OneMoreAllowHelps(AddLines(gs, after), AddLines(gs', after), rule, target);
  }

  // ---------- A line that splits an agent list ----------

  /** The rule of a path of one letter. */
  function Letter(c: Code, allowed: bool): Rule { Rule(allowed, [SLASH, c], [Lit(SLASH), Lit(c)], false, 2) }

  const DISALLOW_ALL := Rule(false, [SLASH], [Lit(SLASH)], false, 1)

  lemma LetterIsCanonical(c: Code, allowed: bool)
    requires IsLower(c)
    ensures CanonicalRule(Letter(c, allowed))
  {
    var r := Letter(c, allowed);
    assert [Lit(c)][1..] == [] && Render([Lit(c)]) == [c];
    assert r.tokens[1..] == [Lit(c)];
    assert Render(r.tokens) == r.normalized;
    assert Specificity([Lit(c)]) == 1 && Specificity(r.tokens) == 2;
    TokenizeRender(r.tokens, true);
    hide Tokenize, Render, Specificity;
  }

  lemma DisallowAllIsCanonical()
    ensures CanonicalRule(DISALLOW_ALL)
  {
    var r := DISALLOW_ALL;
    assert r.tokens[1..] == [] && Render(r.tokens) == r.normalized && Specificity(r.tokens) == 1;
    TokenizeRender(r.tokens, true);
    hide Tokenize, Render, Specificity;
  }

  /** A letter rule applies to the target of a letter exactly if the letters agree. */
  lemma LetterApplies(c: Code, allowed: bool, d: Code)
    ensures Applies(Letter(c, allowed), [Lit(SLASH), Lit(d)]) <==> c == d
  {
    var t := [Lit(SLASH), Lit(d)];
    var p := FullPattern(Letter(c, allowed).tokens, false);
    assert p[1..] == [Lit(c), Wild] && p[1..][1..] == [Wild] && [Wild][1..] == [];
    assert t[1..] == [Lit(d)] && t[1..][1..] == [] && t[1..][1..][0..] == [];
    assert Matches([], []) && Matches([Wild], []);
    assert Matches([Lit(c), Wild], [Lit(d)]) <==> c == d;
  }

  lemma DisallowAllApplies(d: Code)
    ensures Applies(DISALLOW_ALL, [Lit(SLASH), Lit(d)])
  {
    var t := [Lit(SLASH), Lit(d)];
    var p := FullPattern(DISALLOW_ALL.tokens, false);
    assert p[1..] == [Wild] && [Wild][1..] == [];
    assert t[1..] == [Lit(d)] && [Lit(d)][1..] == [];
    assert Matches([], []);
    assert Matches([Wild], [Lit(d)]);
  }

  const OTHER: Str := Codes("other")
  const P: Code := 0x70
  const Q: Code := 0x71
  const TARGET_P := Normal([SLASH, P], [Lit(SLASH), Lit(P)])

  const BEFORE := [AgentLine(PRODUCT_TOKEN), RuleLine(DISALLOW_ALL), AgentLine(PRODUCT_TOKEN)]
  const ALLOW_Q := RuleLine(Letter(Q, true))
  const AFTER := [AgentLine(OTHER), RuleLine(Letter(P, true))]

  const CLOSED := GroupValue([PRODUCT_TOKEN], [DISALLOW_ALL])
  const TOGETHER := [CLOSED, GroupValue([PRODUCT_TOKEN, OTHER], [Letter(P, true)])]
  const APART := [CLOSED, GroupValue([PRODUCT_TOKEN], [Letter(Q, true)]), GroupValue([OTHER], [Letter(P, true)])]

  lemma ParsedLines()
    ensures ParseLine(AgentLine(PRODUCT_TOKEN)) == AgentRecord(PRODUCT_TOKEN)
    ensures ParseLine(AgentLine(OTHER)) == AgentRecord(OTHER)
    ensures ParseLine(RuleLine(DISALLOW_ALL)) == RuleRecord(DISALLOW_ALL)
    ensures ParseLine(ALLOW_Q) == RuleRecord(Letter(Q, true))
    ensures ParseLine(RuleLine(Letter(P, true))) == RuleRecord(Letter(P, true))
  {
    hide ParseLine, CanonicalRule;
    AgentLineParses(PRODUCT_TOKEN);
    AgentLineParses(OTHER);
    DisallowAllIsCanonical();
    LetterIsCanonical(Q, true);
    LetterIsCanonical(P, true);
    RuleLineParses(DISALLOW_ALL);
    RuleLineParses(Letter(Q, true));
    RuleLineParses(Letter(P, true));
  }

  lemma FirstAgent(a: Str)
    ensures AddRecord([], AgentRecord(a)) == [GroupValue([a], [])]
  {
  }

  lemma AddsRule(done: seq<GroupValue>, agents: seq<Str>, rule: Rule)
    ensures AddRecord(done + [GroupValue(agents, [])], RuleRecord(rule)) == done + [GroupValue(agents, [rule])]
  {
    assert [] + [rule] == [rule];
  }

  lemma AddsAgent(done: seq<GroupValue>, a: Str, b: Str)
    ensures AddRecord(done + [GroupValue([a], [])], AgentRecord(b)) == done + [GroupValue([a, b], [])]
  {
    assert [a] + [b] == [a, b];
  }

  lemma OpensGroup(done: seq<GroupValue>, g: GroupValue, a: Str)
    requires g.rules != []
    ensures AddRecord(done + [g], AgentRecord(a)) == done + [g] + [GroupValue([a], [])]
  {
  }

  lemma ParsedBefore()
    ensures AddLines([], BEFORE) == [CLOSED, GroupValue([PRODUCT_TOKEN], [])]
  {
    hide ParseLine, AddRecord, AddLines, AgentLine, RuleLine, Codes, PRODUCT_TOKEN, DISALLOW_ALL;
    assert CLOSED.rules == [DISALLOW_ALL];
    ParsedLines();
    var open := GroupValue([PRODUCT_TOKEN], []);
    ThreeLines(AgentLine(PRODUCT_TOKEN), RuleLine(DISALLOW_ALL), AgentLine(PRODUCT_TOKEN));
    FirstAgent(PRODUCT_TOKEN);
    AddsRule([], [PRODUCT_TOKEN], DISALLOW_ALL);
    OpensGroup([], CLOSED, PRODUCT_TOKEN);
    assert [] + [open] == [open] && [] + [CLOSED] == [CLOSED];
  }

  lemma ThreeLines(x: Str, y: Str, z: Str)
    ensures AddLines([], [x, y, z]) == AddRecord(AddRecord(AddRecord([], ParseLine(x)), ParseLine(y)), ParseLine(z))
  {
    hide ParseLine, AddRecord;
    AddLinesConcat([], [x], [y, z]);
    assert [x] + [y, z] == [x, y, z];
    var gs := AddLines([], [x]);
    AddLinesConcat(gs, [y], [z]);
    assert [y] + [z] == [y, z];
    OneLine([], x);
    OneLine(gs, y);
    OneLine(AddLines(gs, [y]), z);
  }

  lemma OneLine(gs: seq<GroupValue>, x: Str)
    ensures AddLines(gs, [x]) == AddRecord(gs, ParseLine(x))
  {
    assert [x][1..] == [];
  }

  lemma ParsedAfter(gs: seq<GroupValue>)
    ensures AddLines(gs, AFTER) == AddRecord(AddRecord(gs, AgentRecord(OTHER)), RuleRecord(Letter(P, true)))
    ensures NextRecord(AFTER) == AgentRecord(OTHER)
  {
    ParsedLines();
    hide ParseLine, AgentLine, RuleLine, AddRecord;
    var r := RuleLine(Letter(P, true));
    assert AFTER[1..] == [r] && AFTER[1..][1..] == [];
    var gs1 := AddRecord(gs, AgentRecord(OTHER));
    assert AddLines(gs1, [r]) == AddRecord(gs1, RuleRecord(Letter(P, true)));
  }

  /** The groups of the file without and with the line. */
  lemma ParsedFiles()
    ensures SplitsAgents(BEFORE, AFTER)
    ensures AddLines([], BEFORE + AFTER) == TOGETHER
    ensures AddLines([], BEFORE + [ALLOW_Q] + AFTER) == APART
  {
    AroundLine(BEFORE, ALLOW_Q, AFTER);
    ParsedLines();
    ParsedBefore();
    var gs := [CLOSED, GroupValue([PRODUCT_TOKEN], [])];
    hide ParseLine, AddLines, RuleLine, AgentLine, AddRecord;
    ParsedAfter(gs);
    AddsAgent([CLOSED], PRODUCT_TOKEN, OTHER);
    AddsRule([CLOSED], [PRODUCT_TOKEN, OTHER], Letter(P, true));
    assert [CLOSED] + [GroupValue([PRODUCT_TOKEN], [])] == gs;
    var split := GroupValue([PRODUCT_TOKEN], [Letter(Q, true)]);
    AddsRule([CLOSED], [PRODUCT_TOKEN], Letter(Q, true));
    ParsedAfter([CLOSED] + [split]);
    OpensGroup([CLOSED], split, OTHER);
    AddsRule([CLOSED] + [split], [OTHER], Letter(P, true));
    assert [CLOSED] + [split] + [GroupValue([OTHER], [Letter(P, true)])] == APART;
  }

  lemma ExactGroups()
    ensures IsExact(CLOSED) && IsExact(TOGETHER[1]) && IsExact(APART[1]) && !IsExact(APART[2])
  {
    assert |Lower(OTHER)| != |Lower(PRODUCT_TOKEN)|;
    assert TOGETHER[1].agents[0] == PRODUCT_TOKEN;
  }

  lemma SelectedRules()
    ensures forall x :: x in AllRules(Selected(TOGETHER)) <==> x == DISALLOW_ALL || x == Letter(P, true)
    ensures forall x :: x in AllRules(Selected(APART)) <==> x == DISALLOW_ALL || x == Letter(Q, true)
    ensures Selected(APART) != []
  {
    ExactGroups();
    hide IsExact, IsWildcard, Filter, AllRules;
    assert CLOSED in Filter(TOGETHER, true) && TOGETHER[1] in Filter(TOGETHER, true);
    assert CLOSED in Filter(APART, true) && APART[1] in Filter(APART, true);
  }

  /** An added `Allow` line that splits an agent list can turn an allowed target into a disallowed one. */
  lemma SplittingLineHurts()
    ensures SplitsAgents(BEFORE, AFTER) && ParseLine(ALLOW_Q) == RuleRecord(Letter(Q, true))
    ensures Decide(AddLines([], BEFORE + AFTER), TARGET_P).allowed
    ensures !Decide(AddLines([], BEFORE + [ALLOW_Q] + AFTER), TARGET_P).allowed
  {
    ParsedLines();
    ParsedFiles();
    SelectedRules();
    LetterApplies(P, true, P);
    LetterApplies(Q, true, P);
    DisallowAllApplies(P);
    hide ParseLine, AddLines, Selected, AllRules, Applies, Decide;
    assert Before(TARGET_P.text, QUESTION) == TARGET_P.text && |ROBOTS_URI| == 11;
    DecisionMeaning(TOGETHER, TARGET_P);
    DecisionMeaning(APART, TARGET_P);
  }
}
