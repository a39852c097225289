/** The line-driven parser of robots.txt groups (RFC 9309 section 2.2.1), and the rendering of parsed
    groups back into lines. */
module RobotsFile {
  import opened Wrappers
  import opened Text
  import opened Normalize

  datatype Rule = Rule(allowed: bool, normalized: Str, tokens: seq<Token>, anchored: bool, specificity: nat)

  datatype GroupValue = GroupValue(agents: seq<Str>, rules: seq<Rule>)

  function Specificity(ts: seq<Token>): nat {
    if ts == [] then 0 else (if ts[0] == Wild then 0 else 1) + Specificity(ts[1..])
  }

  predicate RuleCharacters(v: Str) {
    v != [] && v[0] == SLASH && forall i :: 0 <= i < |v| ==> v[i] > 0x20 && v[i] != 0x7F
  }

  function ParseRule(value: Str, allowed: bool): (r: Option<Rule>) {
    if !RuleCharacters(value) then None
    else
      match NormalForm(value, true)
      case None => None
      case Some(n) =>
        var anchored := n.text != [] && Last(n.text) == DOLLAR;
        var tokens := if anchored && n.tokens != [] then n.tokens[..|n.tokens| - 1] else n.tokens;
        Some(Rule(allowed, n.text, tokens, anchored, Specificity(tokens)))
  }

  // ---------- Lines and records ----------

  /** Split at CR LF, CR or LF. */
  function SplitLines(t: Str): (ls: seq<Str>)
    ensures ls != []
  {
    if t == [] then [[]]
    else if t[0] == CR && |t| > 1 && t[1] == LF then [[]] + SplitLines(t[2..])
    else if t[0] == CR || t[0] == LF then [[]] + SplitLines(t[1..])
    else var ls := SplitLines(t[1..]); [[t[0]] + ls[0]] + ls[1..]
  }

  /** The part before the first occurrence of a character: `split(c, 1)[0]`. */
  function Before(s: Str, c: Code): (r: Str)
    ensures r <= s && c !in r
    ensures c in s ==> |r| < |s| && s[|r|] == c
    ensures c !in s ==> r == s
  {
    if s == [] || s[0] == c then [] else [s[0]] + Before(s[1..], c)
  }

  predicate Blank(c: Code) { c == SPACE || c == TAB }

  function StripLeft(s: Str): (r: Str)
    ensures r != [] ==> !Blank(r[0])
    ensures s != [] && !Blank(s[0]) ==> r == s
  {
    if s != [] && Blank(s[0]) then StripLeft(s[1..]) else s
  }

  function StripRight(s: Str): (r: Str)
    ensures s != [] && !Blank(Last(s)) ==> r == s
  {
    if s != [] && Blank(Last(s)) then StripRight(s[..|s| - 1]) else s
  }

  /** `strip(" \t")`. */
  function Strip(s: Str): Str { StripRight(StripLeft(s)) }

  /** `[A-Za-z_-]+` or `*`. */
  predicate ProductToken(v: Str) {
    v == [STAR] || (v != [] && forall i :: 0 <= i < |v| ==> IsUpper(v[i]) || IsLower(v[i]) || v[i] == 0x5F || v[i] == 0x2D)
  }

  datatype Record = AgentRecord(agent: Str) | RuleRecord(rule: Rule) | Ignored

  const USER_AGENT: Str := Codes("user-agent")
  const ALLOW: Str := Codes("allow")
  const DISALLOW: Str := Codes("disallow")

  /** What a field and its value contribute. */
  function ParseField(field: Str, value: Str): Record {
    if field == USER_AGENT then
      if ProductToken(value) then AgentRecord(value) else Ignored
    else if field == ALLOW || field == DISALLOW then
      match ParseRule(value, field == ALLOW)
      case None => Ignored
      case Some(rule) => RuleRecord(rule)
    else Ignored
  }

  /** What one line contributes. */
  function ParseLine(raw: Str): Record {
    var line := Before(raw, HASH);
    if COLON !in line then Ignored
    else
      var rawField := Before(line, COLON);
      ParseField(Lower(Strip(rawField)), Strip(line[|rawField| + 1..]))
  }

  /** The group list after one more record: agents accumulate until the open group has a rule. */
  function AddRecord(gs: seq<GroupValue>, r: Record): seq<GroupValue> {
    var n := |gs|;
    match r
    case Ignored => gs
    case AgentRecord(a) =>
      if n == 0 || gs[n - 1].rules != [] then gs + [GroupValue([a], [])]
      else gs[n - 1 := gs[n - 1].(agents := gs[n - 1].agents + [a])]
    case RuleRecord(rule) =>
      if n == 0 then gs else gs[n - 1 := gs[n - 1].(rules := gs[n - 1].rules + [rule])]
  }

  function AddLines(gs: seq<GroupValue>, lines: seq<Str>): seq<GroupValue>
    decreases |lines|
  {
    if lines == [] then gs else AddLines(AddRecord(gs, ParseLine(lines[0])), lines[1..])
  }

  function ParseGroups(text: Str): seq<GroupValue> { AddLines([], SplitLines(text)) }

  // ---------- The parser, with groups updated in place ----------

  class Group {
    var agents: seq<Str>
    var rules: seq<Rule>

    constructor ()
      ensures agents == [] && rules == []
    {
      agents, rules := [], [];
    }

    function Value(): GroupValue
      reads this
    {
      GroupValue(agents, rules)
    }
  }

  ghost predicate Represents(groups: seq<Group>, gs: seq<GroupValue>)
    reads groups
  {
    && |groups| == |gs|
    && (forall i, j :: 0 <= i < j < |groups| ==> groups[i] != groups[j])
    && (forall i :: 0 <= i < |groups| ==> groups[i].Value() == gs[i])
  }

  method BuildGroups(text: Str) returns (groups: seq<Group>)
    ensures fresh(groups) && Represents(groups, ParseGroups(text))
  {
    hide ParseLine, AddLines, SplitLines, ParseRule, RuleCharacters, Specificity;
    groups := [];
    var current: Group? := null;
    var lines := SplitLines(text);
    ghost var gs: seq<GroupValue> := [];
    for n := 0 to |lines|
      invariant fresh(groups) && Represents(groups, gs)
      invariant if groups == [] then current == null else current == groups[|groups| - 1]
      invariant ParseGroups(text) == AddLines(gs, lines[n..])
    {
      var record := ParseLine(lines[n]);
      match record {
        case AgentRecord(agent) =>
          if current == null || current.rules != [] {
            current := new Group();
            groups := groups + [current];
          }
          current.agents := current.agents + [agent];
        case RuleRecord(rule) =>
          if current != null {
            current.rules := current.rules + [rule];
          }
        case Ignored =>
      }
      AddNextLine(gs, lines, n);
      gs := AddRecord(gs, record);
    }
    NoLinesLeft(gs, lines[|lines|..]);
  }

  lemma AddNextLine(gs: seq<GroupValue>, lines: seq<Str>, n: nat)
    requires n < |lines|
    ensures AddLines(gs, lines[n..]) == AddLines(AddRecord(gs, ParseLine(lines[n])), lines[n + 1..])
  {
    assert lines[n..][1..] == lines[n + 1..];
  }

  lemma NoLinesLeft(gs: seq<GroupValue>, lines: seq<Str>)
    requires |lines| == 0
    ensures AddLines(gs, lines) == gs
  {
  }

  // ---------- Rendering ----------

  function RecordLine(field: Str, value: Str): Str { field + [COLON] + value }

  function AgentLine(a: Str): Str { RecordLine(USER_AGENT, a) }

  function RuleLine(r: Rule): Str { RecordLine(if r.allowed then ALLOW else DISALLOW, r.normalized) }

  function AgentLines(agents: seq<Str>): seq<Str> {
    seq(|agents|, i requires 0 <= i < |agents| => AgentLine(agents[i]))
  }

  function RuleLines(rules: seq<Rule>): seq<Str> {
    seq(|rules|, i requires 0 <= i < |rules| => RuleLine(rules[i]))
  }

  function GroupLines(gs: seq<GroupValue>): seq<Str> {
    if gs == [] then [] else AgentLines(gs[0].agents) + RuleLines(gs[0].rules) + GroupLines(gs[1..])
  }

  /** Every line followed by a line feed. */
  function Unlines(ls: seq<Str>): Str { if ls == [] then [] else ls[0] + [LF] + Unlines(ls[1..]) }

  function RenderGroups(gs: seq<GroupValue>): Str { Unlines(GroupLines(gs)) }

  // ---------- What a parsed rule looks like ----------

  /** A rule is the parse of its own normalised text. */
  predicate CanonicalRule(r: Rule) { ParseRule(r.normalized, r.allowed) == Some(r) && HASH !in r.normalized }

  lemma {:induction false} SpecificityCounts(ts: seq<Token>)
    ensures Specificity(ts) == |ts| - multiset(ts)[Wild]
  {
    if ts != [] {
      SpecificityCounts(ts[1..]);
      assert ts == [ts[0]] + ts[1..];
    }
  }

  /** The normal text of a value that starts with `/` starts with `/`. */
  lemma NormalStartsWithSlash(v: Str, pattern: bool)
    requires v != [] && v[0] == SLASH && NormalForm(v, pattern).Some?
    ensures var n := NormalForm(v, pattern).value;
            && n.tokens != [] && n.tokens[0] == Lit(SLASH) && n.text == [SLASH] + Render(n.tokens[1..])
            && Tokenize(v[1..], pattern) == Some(n.tokens[1..])
  {
    var n := NormalForm(v, pattern).value;
    assert FirstUnit(v, pattern) == Some(([Lit(SLASH)], 1));
    assert n.tokens == [Lit(SLASH)] + Tokenize(v[1..], pattern).value;
    assert TokenText(n.tokens[0]) == [SLASH];
  }

  lemma NormalRuleCharacters(v: Str)
    requires RuleCharacters(v) && HASH !in v && NormalForm(v, true).Some?
    ensures RuleCharacters(NormalForm(v, true).value.text) && HASH !in NormalForm(v, true).value.text
  {
    hide Render, Tokenize;
    var n := NormalForm(v, true).value;
    NormalStartsWithSlash(v, true);
    NormalCharacters(v, true);
    assert forall i :: 0 <= i < |n.text| ==> n.text[i] in n.text;
  }

  lemma ParsedRuleCanonical(v: Str, allowed: bool)
    requires ParseRule(v, allowed).Some? && HASH !in v
    ensures CanonicalRule(ParseRule(v, allowed).value)
  {
    hide NormalForm, RuleCharacters, Specificity, Last;
    NormalizeIdempotent(v, true);
    NormalRuleCharacters(v);
  }

  /** The rule of a text, in terms of its tokens. */
  lemma RuleOfTokens(v: Str, allowed: bool, ts: seq<Token>)
    requires ParseRule(v, allowed).Some? && Tokenize(v, true) == Some(ts) && ts != [] && Render(ts) != []
    ensures var r := ParseRule(v, allowed).value;
            && (r.anchored <==> Last(Render(ts)) == DOLLAR)
            && r.tokens == (if r.anchored then ts[..|ts| - 1] else ts) && r.specificity == Specificity(r.tokens)
  {
    hide Tokenize, Render, Last, Specificity, RuleCharacters;
  }

  lemma AnchoredTokens(v: Str, allowed: bool)
    requires ParseRule(v, allowed).Some?
    ensures var ts, r := Tokenize(v, true).value, ParseRule(v, allowed).value;
            && ts != []
            && (r.anchored <==> ts[|ts| - 1] == Lit(DOLLAR))
            && ts == r.tokens + (if r.anchored then [Lit(DOLLAR)] else [])
            && r.specificity == Specificity(r.tokens)
  {
    var ts := Tokenize(v, true).value;
    NormalStartsWithSlash(v, true);
    hide *;
    TokensCanonical(v, true);
    LastIsDollar(ts, true);
    RuleOfTokens(v, allowed, ts);
    assert ts == ts[..|ts| - 1] + [ts[|ts| - 1]];
  }

  /** `anchored` says exactly that the text ended in a raw `$`, the tokens are the others, and the
      specificity is the number of them that are no wildcards. */
  lemma AnchoredMeaning(v: Str, allowed: bool)
    requires ParseRule(v, allowed).Some?
    ensures var ts, r := Tokenize(v, true).value, ParseRule(v, allowed).value;
            && ts != []
            && (r.anchored <==> ts[|ts| - 1] == Lit(DOLLAR))
            && ts == r.tokens + (if r.anchored then [Lit(DOLLAR)] else [])
            && r.specificity == |r.tokens| - multiset(r.tokens)[Wild]
  {
    var r := ParseRule(v, allowed).value;
    AnchoredTokens(v, allowed);
    hide ParseRule, Tokenize, Specificity;
    SpecificityCounts(r.tokens);
  }

  // ---------- Parse, render, parse ----------

  ghost predicate WellFormedGroup(g: GroupValue) {
    && g.agents != []
    && (forall i :: 0 <= i < |g.agents| ==> ProductToken(g.agents[i]))
    && (forall i :: 0 <= i < |g.rules| ==> CanonicalRule(g.rules[i]))
  }

  /** What the parser maintains: only the last group may still lack rules. */
  ghost predicate WellFormed(gs: seq<GroupValue>) {
    && (forall i :: 0 <= i < |gs| ==> WellFormedGroup(gs[i]))
    && (forall i :: 0 <= i < |gs| - 1 ==> gs[i].rules != [])
  }

  lemma {:induction false} StripSubset(s: Str, c: Code)
    requires c !in s
    ensures c !in StripLeft(s) && c !in StripRight(s)
    decreases |s|
  {
    if s != [] {
      StripSubset(s[1..], c);
      StripSubset(s[..|s| - 1], c);
    }
  }

  lemma LineRecordCanonical(raw: Str)
    ensures ParseLine(raw).AgentRecord? ==> ProductToken(ParseLine(raw).agent)
    ensures ParseLine(raw).RuleRecord? ==> CanonicalRule(ParseLine(raw).rule)
  {
    if ParseLine(raw).RuleRecord? {
      var line := Before(raw, HASH);
      var rawValue := line[|Before(line, COLON)| + 1..];
      StripSubset(rawValue, HASH);
      StripSubset(StripLeft(rawValue), HASH);
      ParsedRuleCanonical(Strip(rawValue), ParseLine(raw).rule.allowed);
    }
  }

  lemma AddRecordWellFormed(gs: seq<GroupValue>, r: Record)
    requires WellFormed(gs)
    requires r.AgentRecord? ==> ProductToken(r.agent)
    requires r.RuleRecord? ==> CanonicalRule(r.rule)
    ensures WellFormed(AddRecord(gs, r))
  {
  }

  lemma {:induction false} AddLinesWellFormed(gs: seq<GroupValue>, lines: seq<Str>)
    requires WellFormed(gs)
    ensures WellFormed(AddLines(gs, lines))
    decreases |lines|
  {
    if lines != [] {
      LineRecordCanonical(lines[0]);
      AddRecordWellFormed(gs, ParseLine(lines[0]));
      AddLinesWellFormed(AddRecord(gs, ParseLine(lines[0])), lines[1..]);
    }
  }

  predicate NoBreak(l: Str) { CR !in l && LF !in l }

  lemma {:induction false} SplitFirst(l: Str, rest: Str)
    requires NoBreak(l)
    ensures SplitLines(l + [LF] + rest) == [l] + SplitLines(rest)
  {
    var t := l + [LF] + rest;
    if l == [] {
      assert t[1..] == rest;
    } else {
      assert t[1..] == l[1..] + [LF] + rest;
      SplitFirst(l[1..], rest);
      assert [l[0]] + l[1..] == l;
    }
  }

  lemma {:induction false} SplitUnlines(ls: seq<Str>)
    requires forall i :: 0 <= i < |ls| ==> NoBreak(ls[i])
    ensures SplitLines(Unlines(ls)) == ls + [[]]
  {
    if ls != [] {
      SplitFirst(ls[0], Unlines(ls[1..]));
      SplitUnlines(ls[1..]);
      assert ls == [ls[0]] + ls[1..];
    }
  }

  lemma {:induction false} BeforeFirst(s: Str, c: Code, rest: Str)
    requires c !in s
    ensures Before(s + [c] + rest, c) == s
  {
    if s != [] {
      assert (s + [c] + rest)[1..] == s[1..] + [c] + rest;
      BeforeFirst(s[1..], c, rest);
    }
  }

  predicate FieldName(f: Str) {
    f != [] && forall i :: 0 <= i < |f| ==> IsLower(f[i]) || f[i] == 0x2D
  }

  lemma FieldNames()
    ensures FieldName(USER_AGENT) && FieldName(ALLOW) && FieldName(DISALLOW)
    ensures USER_AGENT != ALLOW && USER_AGENT != DISALLOW && ALLOW != DISALLOW
  {
    assert USER_AGENT[0] == 0x75 && ALLOW[0] == 0x61 && DISALLOW[0] == 0x64;
    assert forall i :: 0 <= i < 10 ==> IsLower(USER_AGENT[i]) || USER_AGENT[i] == 0x2D;
    assert forall i :: 0 <= i < 5 ==> IsLower(ALLOW[i]);
    assert forall i :: 0 <= i < 8 ==> IsLower(DISALLOW[i]);
  }

  lemma FieldNameUnchanged(f: Str)
    requires FieldName(f)
    ensures Lower(Strip(f)) == f && HASH !in f && COLON !in f && NoBreak(f)
  {
    assert Lower(f) == f;
  }

  lemma FieldLine(field: Str, value: Str)
    requires FieldName(field)
    requires value != [] && !Blank(value[0]) && !Blank(Last(value)) && HASH !in value && NoBreak(value)
    ensures ParseLine(RecordLine(field, value)) == ParseField(field, value) && NoBreak(RecordLine(field, value))
  {
    hide ParseField;
    var line := RecordLine(field, value);
    FieldNameUnchanged(field);
    assert HASH !in line;
    BeforeFirst(field, COLON, value);
    assert line[|field|] == COLON && line[|field| + 1..] == value;
  }

  lemma AgentLineParses(a: Str)
    requires ProductToken(a)
    ensures ParseLine(AgentLine(a)) == AgentRecord(a) && NoBreak(AgentLine(a))
  {
    hide ParseLine;
    FieldNames();
    FieldLine(USER_AGENT, a);
  }

  lemma RuleLineParses(r: Rule)
    requires CanonicalRule(r)
    ensures ParseLine(RuleLine(r)) == RuleRecord(r) && NoBreak(RuleLine(r))
  {
    assert RuleCharacters(r.normalized);
    hide ParseRule, ParseLine;
    FieldNames();
    FieldLine(if r.allowed then ALLOW else DISALLOW, r.normalized);
  }

  lemma {:induction false} AddLinesConcat(gs: seq<GroupValue>, a: seq<Str>, b: seq<Str>)
    ensures AddLines(gs, a + b) == AddLines(AddLines(gs, a), b)
    decreases |a|
  {
    if a == [] {
      assert a + b == b;
    } else {
      assert (a + b)[1..] == a[1..] + b;
      AddLinesConcat(AddRecord(gs, ParseLine(a[0])), a[1..], b);
    }
  }

  /** Adding agent lines to an open group without rules extends its agents. */
  lemma {:induction false} AddAgents(gs: seq<GroupValue>, done: seq<Str>, agents: seq<Str>)
    requires done != [] && forall i :: 0 <= i < |agents| ==> ProductToken(agents[i])
    ensures AddLines(gs + [GroupValue(done, [])], AgentLines(agents)) == gs + [GroupValue(done + agents, [])]
    decreases |agents|
  {
    hide ParseLine;
    var open := gs + [GroupValue(done, [])];
    if agents == [] {
      assert done + agents == done;
    } else {
      AgentLineParses(agents[0]);
      assert AgentLines(agents)[1..] == AgentLines(agents[1..]);
      assert AddRecord(open, AgentRecord(agents[0])) == gs + [GroupValue(done + [agents[0]], [])];
      AddAgents(gs, done + [agents[0]], agents[1..]);
      assert done + [agents[0]] + agents[1..] == done + agents;
    }
  }

  lemma {:induction false} AddRules(gs: seq<GroupValue>, g: GroupValue, rules: seq<Rule>)
    requires forall i :: 0 <= i < |rules| ==> CanonicalRule(rules[i])
    ensures AddLines(gs + [g], RuleLines(rules)) == gs + [g.(rules := g.rules + rules)]
    decreases |rules|
  {
    hide ParseLine, CanonicalRule;
    if rules == [] {
      assert g.rules + rules == g.rules;
    } else {
      RuleLineParses(rules[0]);
      var g' := g.(rules := g.rules + [rules[0]]);
      assert RuleLines(rules)[1..] == RuleLines(rules[1..]);
      assert (gs + [g])[|gs| := g'] == gs + [g'];
      AddRules(gs, g', rules[1..]);
      assert g.rules + [rules[0]] + rules[1..] == g.rules + rules;
    }
  }

  lemma {:induction false} AddOneGroup(gs: seq<GroupValue>, g: GroupValue)
    requires WellFormedGroup(g) && (gs != [] ==> gs[|gs| - 1].rules != [])
    ensures AddLines(gs, AgentLines(g.agents) + RuleLines(g.rules)) == gs + [g]
  {
    AgentLineParses(g.agents[0]);
    var first := GroupValue([g.agents[0]], []);
    assert AgentLines(g.agents)[1..] == AgentLines(g.agents[1..]);
    AddAgents(gs, [g.agents[0]], g.agents[1..]);
    assert [g.agents[0]] + g.agents[1..] == g.agents;
    AddLinesConcat(gs, AgentLines(g.agents), RuleLines(g.rules));
    AddRules(gs, GroupValue(g.agents, []), g.rules);
    assert [] + g.rules == g.rules;
  }

  lemma {:induction false} AddGroupLines(done: seq<GroupValue>, gs: seq<GroupValue>)
    requires WellFormed(gs) && (done != [] && gs != [] ==> done[|done| - 1].rules != [])
    ensures AddLines(done, GroupLines(gs)) == done + gs
    decreases |gs|
  {
    hide ParseLine;
    if gs == [] {
      assert done + gs == done;
    } else {
      AddLinesConcat(done, AgentLines(gs[0].agents) + RuleLines(gs[0].rules), GroupLines(gs[1..]));
      AddOneGroup(done, gs[0]);
      AddGroupLines(done + [gs[0]], gs[1..]);
      assert done + [gs[0]] + gs[1..] == done + gs;
    }
  }

  lemma {:induction false} GroupLinesNoBreak(gs: seq<GroupValue>)
    requires forall i :: 0 <= i < |gs| ==> WellFormedGroup(gs[i])
    ensures forall i :: 0 <= i < |GroupLines(gs)| ==> NoBreak(GroupLines(gs)[i])
  {
    if gs != [] {
      var g := gs[0];
      forall i | 0 <= i < |g.agents|
        ensures NoBreak(AgentLines(g.agents)[i])
      {
        AgentLineParses(g.agents[i]);
      }
      forall i | 0 <= i < |g.rules|
        ensures NoBreak(RuleLines(g.rules)[i])
      {
        RuleLineParses(g.rules[i]);
      }
      GroupLinesNoBreak(gs[1..]);
    }
  }

  /** Parsing the rendering of parsed groups gives the same agents, tokens, anchors and specificities. */
  lemma ParseRenderParse(text: Str)
    ensures ParseGroups(RenderGroups(ParseGroups(text))) == ParseGroups(text)
  {
    var gs := ParseGroups(text);
    AddLinesWellFormed([], SplitLines(text));
    GroupLinesNoBreak(gs);
    SplitUnlines(GroupLines(gs));
    AddLinesConcat([], GroupLines(gs), [[]]);
    AddGroupLines([], gs);
    assert [] + gs == gs;
    assert ParseLine([]) == Ignored;
  }
}
