/** What the lines of a robots.txt file mean, character by character: breaks, fields, values, rules and groups. */
module RobotsLines {
  import opened Wrappers
  import opened Text
  import opened Normalize
  import opened RobotsFile

  // ---------- Lines ----------

  /** A line ends at a line feed, at a carriage return, or at both in this order. */
  lemma LinesEnd(line: Str, rest: Str)
    requires 0x0A !in line && 0x0D !in line
    ensures SplitLines(line) == [line]
    ensures SplitLines(line + [0x0A] + rest) == [line] + SplitLines(rest)
    ensures SplitLines(line + [0x0D, 0x0A] + rest) == [line] + SplitLines(rest)
    ensures rest == [] || rest[0] != 0x0A ==> SplitLines(line + [0x0D] + rest) == [line] + SplitLines(rest)
  {
    LastLine(line);
    BreakEnds(line, [0x0A], rest);
    BreakEnds(line, [0x0D, 0x0A], rest);
    if rest == [] || rest[0] != 0x0A { BreakEnds(line, [0x0D], rest); }
  }

  lemma {:induction false} LastLine(line: Str)
    requires 0x0A !in line && 0x0D !in line
    ensures SplitLines(line) == [line]
  {
    if line != [] {
      LastLine(line[1..]);
      assert line == [line[0]] + line[1..];
    }
  }

  lemma {:induction false} BreakEnds(line: Str, end: Str, rest: Str)
    requires 0x0A !in line && 0x0D !in line
    requires end == [0x0A] || end == [0x0D, 0x0A] || (end == [0x0D] && (rest == [] || rest[0] != 0x0A))
    ensures SplitLines(line + end + rest) == [line] + SplitLines(rest)
  {
    var text := line + end + rest;
    if line == [] {
      assert text[|end|..] == rest;
      assert text[0] == end[0] && (|end| == 2 ==> text[1] == end[1]) && (|end| == 1 && rest != [] ==> text[1] == rest[0]);
    } else {
      assert text[1..] == line[1..] + end + rest;
      BreakEnds(line[1..], end, rest);
      assert line == [line[0]] + line[1..];
    }
  }

  // ---------- Fields and values ----------

  predicate Blanks(s: Str) { forall i :: 0 <= i < |s| ==> s[i] == 0x20 || s[i] == 0x09 }

  /** Neither end is a blank. */
  predicate Bare(s: Str) {
    s != [] ==> s[0] != 0x20 && s[0] != 0x09 && s[|s| - 1] != 0x20 && s[|s| - 1] != 0x09
  }

  /** A spelling of a lower-case name: each letter in either case. */
  predicate Spells(s: Str, name: string) {
    && |s| == |name|
    && forall i :: 0 <= i < |s| ==> s[i] == name[i] as int || ('a' <= name[i] <= 'z' && s[i] == name[i] as int - 0x20)
  }

  lemma LowerSpells(s: Str, name: string)
    requires forall i :: 0 <= i < |name| ==> 'a' <= name[i] <= 'z' || name[i] == '-'
    ensures Lower(s) == Codes(name) <==> Spells(s, name)
  {
    var l := Lower(s);
    if |s| == |name| {
      forall i | 0 <= i < |s|
        ensures l[i] == name[i] as int <==> s[i] == name[i] as int || ('a' <= name[i] <= 'z' && s[i] == name[i] as int - 0x20)
      {
      }
      assert l == Codes(name) <==> forall i :: 0 <= i < |s| ==> l[i] == name[i] as int;
    }
  }

  /** A line in its parts; `tail` is the comment. */
  datatype Parts = Parts(pad0: Str, field: Str, pad1: Str, pad2: Str, value: Str, pad3: Str, tail: Str)

  predicate IsLine(raw: Str, p: Parts) {
    && raw == p.pad0 + p.field + p.pad1 + [0x3A] + p.pad2 + p.value + p.pad3 + p.tail
    && Blanks(p.pad0) && Blanks(p.pad1) && Blanks(p.pad2) && Blanks(p.pad3)
    && Bare(p.field) && 0x3A !in p.field && 0x23 !in p.field && Bare(p.value) && 0x23 !in p.value
    && (p.tail != [] ==> p.tail[0] == 0x23)
  }

  lemma {:induction false} StripLeftPad(pad: Str, s: Str)
    requires Blanks(pad)
    ensures StripLeft(pad + s) == StripLeft(s)
  {
    if pad == [] {
      assert pad + s == s;
    } else {
      assert (pad + s)[1..] == pad[1..] + s;
      StripLeftPad(pad[1..], s);
    }
  }

  lemma {:induction false} StripRightPad(s: Str, pad: Str)
    requires Blanks(pad)
    ensures StripRight(s + pad) == StripRight(s)
  {
    if pad == [] {
      assert s + pad == s;
    } else {
      var n := |pad| - 1;
      assert (s + pad)[..|s + pad| - 1] == s + pad[..n];
      StripRightPad(s, pad[..n]);
    }
  }

  lemma StripPads(before: Str, s: Str, after: Str)
    requires Blanks(before) && Blanks(after) && Bare(s)
    ensures Strip(before + s + after) == s
  {
    assert before + s + after == before + (s + after);
    StripLeftPad(before, s + after);
    if s == [] {
      assert s + after == after + [];
      StripLeftPad(after, []);
    } else {
      StripRightPad(s, after);
    }
  }

  lemma UpTo(s: Str, c: Code, rest: Str)
    requires c !in s && (rest != [] ==> rest[0] == c)
    ensures Before(s + rest, c) == s
  {
    if rest == [] {
      assert s + rest == s;
    } else {
      var more := rest[1..];
      assert rest == [c] + more;
      assert s + rest == s + [c] + more;
      hide Before;
      BeforeFirst(s, c, more);
    }
  }

  lemma LineSplits(raw: Str, p: Parts)
    requires IsLine(raw, p)
    ensures ParseLine(raw) == ParseField(Lower(p.field), p.value)
  {
    var left, right := p.pad0 + p.field + p.pad1, p.pad2 + p.value + p.pad3;
    var line := left + [COLON] + right;
    assert raw == line + p.tail;
    UpTo(line, HASH, p.tail);
    BeforeFirst(left, COLON, right);
    assert line[|left|] == COLON && line[|left| + 1..] == right;
    StripPads(p.pad0, p.field, p.pad1);
    StripPads(p.pad2, p.value, p.pad3);
    hide ParseField, Strip, Lower;
  }

  /** A letter, `_` or `-`. */
  predicate TokenCharacter(c: Code) { 0x41 <= c <= 0x5A || 0x61 <= c <= 0x7A || c == 0x5F || c == 0x2D }

  function RuleRecordOf(value: Str, allowed: bool): Record {
    if ParseRule(value, allowed).Some? then RuleRecord(ParseRule(value, allowed).value) else Ignored
  }

  lemma FieldMeans(field: Str, value: Str)
    ensures
      ParseField(field, value) ==
        if field == Codes("user-agent") then
          if value == [0x2A] || (value != [] && forall i :: 0 <= i < |value| ==> TokenCharacter(value[i]))
          then AgentRecord(value) else Ignored
        else if field == Codes("allow") then RuleRecordOf(value, true)
        else if field == Codes("disallow") then RuleRecordOf(value, false)
        else Ignored
  {
    FieldNames();
    hide ParseRule;
  }

  /** A line means its field in any ASCII case, with blanks around field and value and a comment behind them. Every
      other field means nothing. */
  lemma LineMeans(raw: Str, p: Parts)
    requires IsLine(raw, p)
    ensures
      ParseLine(raw) ==
        if Spells(p.field, "user-agent") then
          if p.value == [0x2A] || (p.value != [] && forall i :: 0 <= i < |p.value| ==> TokenCharacter(p.value[i]))
          then AgentRecord(p.value) else Ignored
        else if Spells(p.field, "allow") then RuleRecordOf(p.value, true)
        else if Spells(p.field, "disallow") then RuleRecordOf(p.value, false)
        else Ignored
  {
    hide *;
    LineSplits(raw, p);
    LowerSpells(p.field, "user-agent");
    LowerSpells(p.field, "allow");
    LowerSpells(p.field, "disallow");
    FieldMeans(Lower(p.field), p.value);
  }

  /** A line without a colon before its comment means nothing. */
  lemma NoFieldMeansNothing(content: Str, tail: Str)
    requires 0x3A !in content && 0x23 !in content && (tail != [] ==> tail[0] == 0x23)
    ensures ParseLine(content + tail) == Ignored
  {
    UpTo(content, HASH, tail);
  }

  predicate BlankCode(c: Code) { c == 0x20 || c == 0x09 }

  lemma {:induction false} TrimLeft(s: Str) returns (pad: Str, rest: Str)
    ensures s == pad + rest && Blanks(pad) && (rest != [] ==> !BlankCode(rest[0]))
  {
    pad, rest := [], s;
    if s != [] && BlankCode(s[0]) {
      pad, rest := TrimLeft(s[1..]);
      pad := [s[0]] + pad;
    }
  }

  lemma {:induction false} TrimRight(s: Str) returns (rest: Str, pad: Str)
    ensures s == rest + pad && Blanks(pad) && (rest != [] ==> !BlankCode(rest[|rest| - 1]))
  {
    rest, pad := s, [];
    if s != [] && BlankCode(s[|s| - 1]) {
      rest, pad := TrimRight(s[..|s| - 1]);
      pad := pad + [s[|s| - 1]];
    }
  }

  lemma Trim(s: Str) returns (before: Str, bare: Str, after: Str)
    ensures s == before + bare + after && Blanks(before) && Blanks(after) && Bare(bare)
    ensures forall c :: c in bare ==> c in s
  {
    var rest;
    before, rest := TrimLeft(s);
    bare, after := TrimRight(rest);
    if bare != [] { assert bare[0] == rest[0]; }
    assert s == before + bare + after;
    hide Blanks;
  }

  lemma Assemble(a: Str, b: Str, c: Str, d: Str, e: Str, f: Str, tail: Str)
    ensures (a + b + c) + [COLON] + (d + e + f) + tail == a + b + c + [COLON] + d + e + f + tail
  {
  }

  /** Every other line has such parts, so these two laws cover all lines. */
  lemma EveryLineHasParts(content: Str, tail: Str) returns (p: Parts)
    requires 0x3A in content && 0x23 !in content && (tail != [] ==> tail[0] == 0x23)
    ensures IsLine(content + tail, p)
  {
    var left := Before(content, COLON);
    var right := content[|left| + 1..];
    assert content == left + [COLON] + right;
    assert 0x3A !in left && 0x23 !in left && 0x23 !in right;
    var pad0, field, pad1 := Trim(left);
    var pad2, value, pad3 := Trim(right);
    hide Blanks, Bare, Before;
    Assemble(pad0, field, pad1, pad2, value, pad3, tail);
    p := Parts(pad0, field, pad1, pad2, value, pad3, tail);
  }

  // ---------- Rules ----------

  predicate HexDigitCode(c: Code) { 0x30 <= c <= 0x39 || 0x41 <= c <= 0x46 || 0x61 <= c <= 0x66 }

  /** Every `%` begins an escape, and there is no surrogate. */
  predicate Escaped(v: Str) { forall i :: 0 <= i < |v| ==> EscapedHere(v, i) }

  predicate EscapedHere(v: Str, i: nat)
    requires i < |v|
  {
    && !(0xD800 <= v[i] <= 0xDFFF)
    && (v[i] == 0x25 ==> i + 2 < |v| && HexDigitCode(v[i + 1]) && HexDigitCode(v[i + 2]))
  }

  lemma EscapeAt(v: Str, i: nat)
    requires i < |v|
    ensures Escape(v[i..]) <==> v[i] == 0x25 && i + 2 < |v| && HexDigitCode(v[i + 1]) && HexDigitCode(v[i + 2])
  {
  }

  lemma EscapedMeans(v: Str)
    ensures Escaped(v) <==> WellEscaped(v)
  {
    forall i | 0 <= i < |v|
      ensures EscapedHere(v, i) <==> !IsSurrogate(v[i]) && (v[i] == PERCENT ==> Escape(v[i..]))
    {
      EscapeAt(v, i);
    }
    hide Escape, IsSurrogate, EscapedHere;
    if WellEscaped(v) {
      assert forall i :: 0 <= i < |v| ==> v[i..] == v[i..] && EscapedHere(v, i);
    }
  }

  lemma {:induction false} TokenizesWellEscaped(v: Str, pattern: bool)
    requires Tokenize(v, pattern).Some?
    ensures WellEscaped(v)
  {
    if v != [] {
      var n := FirstUnit(v, pattern).value.1;
      TokenizesWellEscaped(v[n..], pattern);
      assert v[0..] == v;
      forall i | 0 <= i < |v|
        ensures !IsSurrogate(v[i]) && (v[i] == PERCENT ==> Escape(v[i..]))
      {
        if i >= n {
          assert v[i..] == v[n..][i - n..] && v[i] == v[n..][i - n];
        }
      }
    }
  }

  /** Exactly these texts normalise. */
  lemma NormalizesMeans(v: Str, pattern: bool)
    ensures NormalForm(v, pattern).Some? <==> Escaped(v)
  {
    EscapedMeans(v);
    if Tokenize(v, pattern).Some? {
      TokenizesWellEscaped(v, pattern);
    }
    if WellEscaped(v) {
      WellEscapedNormalizes(v, pattern);
    }
    hide Escaped, WellEscaped, Tokenize;
  }

  /** A value is a rule exactly if it begins with `/`, has no blank, control character, DEL or surrogate, and every `%`
      begins an escape. */
  lemma RuleMeans(v: Str, allowed: bool)
    ensures ParseRule(v, allowed).Some?
       <==> v != [] && v[0] == 0x2F && Escaped(v) && forall i :: 0 <= i < |v| ==> v[i] > 0x20 && v[i] != 0x7F
    ensures ParseRule(v, allowed).Some? ==>
              var r := ParseRule(v, allowed).value;
              r.allowed == allowed && NormalForm(v, true).Some? && r.normalized == NormalForm(v, true).value.text
  {
    NormalizesMeans(v, true);
    hide NormalForm, Escaped;
  }

  // ---------- Characters of a normal text ----------

  /** ALPHA, DIGIT, `-`, `.`, `_` and `~` (RFC 3986 section 2.3). */
  predicate UnreservedCharacter(o: int) {
    || 'A' as int <= o <= 'Z' as int || 'a' as int <= o <= 'z' as int || '0' as int <= o <= '9' as int
    || o == '-' as int || o == '.' as int || o == '_' as int || o == '~' as int
  }

  const HEX_DIGITS: string := "0123456789ABCDEF"

  /** The upper-case form of a hexadecimal digit. */
  function UpperHex(c: Code): Code
    requires HexDigitCode(c)
  {
    if c >= 0x61 then c - 0x20 else c
  }

  lemma HexDigitsMean(c: Code)
    requires HexDigitCode(c)
    ensures HEX_DIGITS[HexValue(c)] as int == UpperHex(c) == HexDigit(HexValue(c))
  {
    assert forall i :: 0 <= i < 10 ==> HEX_DIGITS[i] as int == 0x30 + i;
    assert forall i :: 10 <= i < 16 ==> HEX_DIGITS[i] as int == 0x41 + (i - 10);
  }

  lemma EscapeIsOneToken(v: Str, pattern: bool)
    requires |v| == 3 && v[0] == 0x25 && HexDigitCode(v[1]) && HexDigitCode(v[2])
    ensures var t := OctetToken(16 * HexValue(v[1]) + HexValue(v[2]));
            NormalForm(v, pattern) == Some(Normal(TokenText(t), [t]))
  {
    var t := OctetToken(16 * HexValue(v[1]) + HexValue(v[2]));
    assert v[3..] == [] && Tokenize([], pattern) == Some([]);
    assert Tokenize(v, pattern) == Some([t] + []) && [t] + [] == [t];
    hide OctetToken, TokenText;
    RenderOne(t);
  }

  /** An escape of an unreserved character becomes that character, and every other escape gets upper-case digits. */
  lemma EscapeNormalizes(v: Str, pattern: bool)
    requires |v| == 3 && v[0] == 0x25 && HexDigitCode(v[1]) && HexDigitCode(v[2])
    ensures NormalForm(v, pattern).Some?
    ensures var o := 16 * HexValue(v[1]) + HexValue(v[2]);
            NormalForm(v, pattern).value.text ==
              if UnreservedCharacter(o) then [o] else [0x25, UpperHex(v[1]), UpperHex(v[2])]
  {
    EscapeIsOneToken(v, pattern);
    HexDigitsMean(v[1]);
    HexDigitsMean(v[2]);
    OctetText(HexValue(v[1]), HexValue(v[2]));
    hide *;
  }

  lemma OctetText(a: nat, b: nat)
    requires a < 16 && b < 16
    ensures TokenText(OctetToken(16 * a + b))
         == if UnreservedCharacter(16 * a + b) then [16 * a + b] else [0x25, HexDigit(a), HexDigit(b)]
  {
    assert (16 * a + b) / 16 == a && (16 * a + b) % 16 == b;
  }

  /** Every other ASCII character stays, and what is not ASCII is escaped octet by octet. */
  lemma CharacterNormalizes(c: Code, pattern: bool)
    requires c != 0x25
    ensures c < 0x80 ==> NormalForm([c], pattern) == Some(Normal([c], [if pattern && c == 0x2A then Wild else Lit(c)]))
    ensures c >= 0x80 && !(0xD800 <= c <= 0xDFFF) ==>
              && NormalForm([c], pattern).Some? && |NormalForm([c], pattern).value.text| == 3 * |Encode([c])|
              && |NormalForm([c], pattern).value.tokens| == |Encode([c])|
              && forall i :: 0 <= i < |Encode([c])| ==>
                   NormalForm([c], pattern).value.tokens[i] == Lit(256 + Encode([c])[i] as int)
  {
    assert [c][1..] == [] && Tokenize([], pattern) == Some([]);
    if c < 0x80 {
      var t := if pattern && c == STAR then Wild else Lit(c);
      assert Tokenize([c], pattern) == Some([t] + []) && [t] + [] == [t];
      RenderOne(t);
    } else if !IsSurrogate(c) {
      assert Encode([c]) == Utf8(c) + [] == Utf8(c);
      assert EncodedTokens(Utf8(c)) + [] == EncodedTokens(Utf8(c));
      EncodedLength(Utf8(c));
    }
  }

  lemma {:induction false} EncodedLength(os: seq<Octet>)
    ensures |Render(EncodedTokens(os))| == 3 * |os|
  {
    if os != [] {
      assert EncodedTokens(os)[1..] == EncodedTokens(os[1..]);
      EncodedLength(os[1..]);
    }
  }

  // ---------- Groups ----------

  predicate AgentOrNothing(line: Str) { !ParseLine(line).RuleRecord? }

  predicate RuleOrNothing(line: Str) { !ParseLine(line).AgentRecord? }

  /** The agents that lines name, in order. */
  function AgentsOf(lines: seq<Str>): seq<Str> {
    if lines == [] then []
    else (if ParseLine(lines[0]).AgentRecord? then [ParseLine(lines[0]).agent] else []) + AgentsOf(lines[1..])
  }

  /** The rules that lines give, in order. */
  function RulesOf(lines: seq<Str>): seq<Rule> {
    if lines == [] then []
    else (if ParseLine(lines[0]).RuleRecord? then [ParseLine(lines[0]).rule] else []) + RulesOf(lines[1..])
  }

  /** Rules before the first agent are dropped. */
  lemma {:induction false} LeadingRulesAreDropped(lines: seq<Str>)
    requires forall l <- lines :: RuleOrNothing(l)
    ensures AddLines([], lines) == []
    decreases |lines|
  {
    hide ParseLine;
    if lines != [] {
      assert RuleOrNothing(lines[0]);
      LeadingRulesAreDropped(lines[1..]);
    }
  }

  /** Rules go to the last group, in order, whatever comes between them. */
  lemma {:induction false} RulesFillTheGroup(gs: seq<GroupValue>, g: GroupValue, lines: seq<Str>)
    requires forall l <- lines :: RuleOrNothing(l)
    ensures AddLines(gs + [g], lines) == gs + [GroupValue(g.agents, g.rules + RulesOf(lines))]
    decreases |lines|
  {
    hide ParseLine;
    if lines == [] {
      assert g.rules + [] == g.rules;
    } else {
      assert RuleOrNothing(lines[0]);
      var rs := if ParseLine(lines[0]).RuleRecord? then [ParseLine(lines[0]).rule] else [];
      var next := GroupValue(g.agents, g.rules + rs);
      assert AddRecord(gs + [g], ParseLine(lines[0])) == gs + [next] by {
        assert g.rules + [] == g.rules;
        assert (gs + [g])[|gs| := next] == gs + [next];
      }
      RulesFillTheGroup(gs, next, lines[1..]);
      assert g.rules + rs + RulesOf(lines[1..]) == g.rules + (rs + RulesOf(lines[1..]));
    }
  }

  /** Agents join the last group while it has no rule. */
  lemma {:induction false} AgentsJoinTheGroup(gs: seq<GroupValue>, agents: seq<Str>, lines: seq<Str>)
    requires forall l <- lines :: AgentOrNothing(l)
    ensures AddLines(gs + [GroupValue(agents, [])], lines) == gs + [GroupValue(agents + AgentsOf(lines), [])]
    decreases |lines|
  {
    hide ParseLine;
    if lines == [] {
      assert agents + [] == agents;
    } else {
      assert AgentOrNothing(lines[0]);
      var more := if ParseLine(lines[0]).AgentRecord? then [ParseLine(lines[0]).agent] else [];
      AgentJoins(gs, agents, lines[0]);
      AgentsJoinTheGroup(gs, agents + more, lines[1..]);
      assert agents + more + AgentsOf(lines[1..]) == agents + (more + AgentsOf(lines[1..]));
    }
  }

  lemma AgentJoins(gs: seq<GroupValue>, agents: seq<Str>, line: Str)
    requires AgentOrNothing(line)
    ensures var more := if ParseLine(line).AgentRecord? then [ParseLine(line).agent] else [];
            AddRecord(gs + [GroupValue(agents, [])], ParseLine(line)) == gs + [GroupValue(agents + more, [])]
  {
    hide ParseLine;
    if ParseLine(line).AgentRecord? {
      var next := GroupValue(agents + [ParseLine(line).agent], []);
      assert (gs + [GroupValue(agents, [])])[|gs| := next] == gs + [next];
    } else {
      assert agents + [] == agents;
    }
  }

  /** An agent behind a rule, or the first agent, opens a group. */
  lemma AgentOpensAGroup(gs: seq<GroupValue>, line: Str, lines: seq<Str>)
    requires gs == [] || gs[|gs| - 1].rules != []
    requires ParseLine(line).AgentRecord? && forall l <- lines :: AgentOrNothing(l)
    ensures AddLines(gs, [line] + lines) == gs + [GroupValue([ParseLine(line).agent] + AgentsOf(lines), [])]
  {
    hide ParseLine;
    assert ([line] + lines)[1..] == lines;
    AgentsJoinTheGroup(gs, [ParseLine(line).agent], lines);
  }
}
