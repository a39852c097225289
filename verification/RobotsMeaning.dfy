/** What a robots.txt file says about a target, stated on the groups and rules of the file alone. */
module RobotsMeaning {
  import opened Wrappers
  import opened Text
  import opened Normalize
  import opened Matcher
  import opened RobotsFile
  import opened RobotsLines
  import opened Verdict

  // ---------- Targets ----------

  /** A target is refused exactly if it does not begin with one `/`, or has a `#`, a control character, DEL, a surrogate
      or a `%` that begins no escape. */
  lemma TargetMeans(t: Str)
    ensures ValidTarget(t)
       <==> && |t| >= 1 && t[0] == 0x2F && (|t| >= 2 ==> t[1] != 0x2F)
            && Escaped(t) && forall i :: 0 <= i < |t| ==> t[i] >= 0x20 && t[i] != 0x7F && t[i] != 0x23
  {
    EscapedMeans(t);
    hide Escaped, WellEscaped;
  }

  // ---------- Whose rules count ----------

  /** Equal but for the case of ASCII letters. */
  predicate SameLetters(a: Str, b: Str) {
    |a| == |b| && forall i :: 0 <= i < |a| ==> SameLetter(a[i], b[i])
  }

  predicate SameLetter(c: Code, d: Code) {
    || c == d
    || (0x41 <= c <= 0x5A && d == c + 0x20)
    || (0x41 <= d <= 0x5A && c == d + 0x20)
  }

  lemma LowerMeans(a: Str, b: Str)
    ensures Lower(a) == Lower(b) <==> SameLetters(a, b)
  {
    if |a| == |b| {
      forall i | 0 <= i < |a|
        ensures Lower(a)[i] == Lower(b)[i] <==> SameLetter(a[i], b[i])
      {
      }
      assert (forall i :: 0 <= i < |a| ==> Lower(a)[i] == Lower(b)[i]) ==> Lower(a) == Lower(b);
    }
  }

  const PRODUCT: Str := Codes("GrowthOSBot")

  /** The group lists the product. */
  predicate NamesProduct(g: GroupValue) { exists i :: 0 <= i < |g.agents| && SameLetters(g.agents[i], PRODUCT) }

  /** The group lists `*`. */
  predicate NamesAll(g: GroupValue) { exists i :: 0 <= i < |g.agents| && g.agents[i] == [0x2A] }

  predicate SomeNamesProduct(gs: seq<GroupValue>) { exists i :: 0 <= i < |gs| && NamesProduct(gs[i]) }

  predicate SomeNamesAll(gs: seq<GroupValue>) { exists i :: 0 <= i < |gs| && NamesAll(gs[i]) }

  /** The rule is in a group that counts: one that lists the product, or, if none does, one that lists `*`. */
  predicate Counts(gs: seq<GroupValue>, r: Rule) {
    exists i :: 0 <= i < |gs| && r in gs[i].rules && if SomeNamesProduct(gs) then NamesProduct(gs[i]) else NamesAll(gs[i])
  }

  lemma GroupMeans(g: GroupValue)
    ensures IsExact(g) <==> NamesProduct(g)
    ensures IsWildcard(g) <==> NamesAll(g)
  {
    forall i | 0 <= i < |g.agents|
      ensures Lower(g.agents[i]) == Lower(PRODUCT_TOKEN) <==> SameLetters(g.agents[i], PRODUCT)
    {
      LowerMeans(g.agents[i], PRODUCT);
    }
    hide Lower, SameLetters;
  }

  lemma SelectionMeans(gs: seq<GroupValue>)
    ensures Filter(gs, true) != [] <==> SomeNamesProduct(gs)
    ensures Filter(gs, false) != [] <==> SomeNamesAll(gs)
    ensures forall r :: r in AllRules(Selected(gs)) <==> Counts(gs, r)
  {
    forall g
      ensures (IsExact(g) <==> NamesProduct(g)) && (IsWildcard(g) <==> NamesAll(g))
    {
      GroupMeans(g);
    }
    hide IsExact, IsWildcard, NamesProduct, NamesAll, Filter, AllRules;
    NotEmpty(Filter(gs, true));
    NotEmpty(Filter(gs, false));
    forall r
      ensures r in AllRules(Selected(gs)) <==> Counts(gs, r)
    {
      if r in AllRules(Selected(gs)) {
        var g :| g in Selected(gs) && r in g.rules;
        var i :| 0 <= i < |gs| && gs[i] == g;
      }
      if Counts(gs, r) {
        var i :| 0 <= i < |gs| && r in gs[i].rules && if SomeNamesProduct(gs) then NamesProduct(gs[i]) else NamesAll(gs[i]);
        assert gs[i] in gs && gs[i] in Selected(gs);
      }
    }
  }

  lemma NotEmpty<T>(s: seq<T>)
    ensures s != [] <==> exists x :: x in s
  {
    if s != [] { assert s[0] in s; }
  }

  // ---------- The verdict ----------

  /** A rule that counts matches the target. */
  ghost predicate Hits(gs: seq<GroupValue>, r: Rule, target: seq<Token>) {
    Counts(gs, r) && Matches(r.tokens + if r.anchored then [] else [Wild], target)
  }

  ghost predicate SomeHits(gs: seq<GroupValue>, target: seq<Token>) { exists r :: Hits(gs, r, target) }

  /** Some Disallow that counts and matches is more specific than every Allow that does. */
  ghost predicate Forbidden(gs: seq<GroupValue>, target: seq<Token>) {
    exists d :: Hits(gs, d, target) && !d.allowed
                && forall a :: Hits(gs, a, target) && a.allowed ==> a.specificity < d.specificity
  }

  /** The text of a rule that counts, matches, has this verdict, and is as specific as any that matches. */
  ghost predicate Reports(gs: seq<GroupValue>, target: seq<Token>, allowed: bool, text: Str) {
    exists r :: Hits(gs, r, target) && r.allowed == allowed && r.normalized == text
                && forall x :: Hits(gs, x, target) ==> x.specificity <= r.specificity
  }

  ghost predicate IsVerdict(gs: seq<GroupValue>, target: seq<Token>, d: Decision) {
    if !SomeNamesProduct(gs) && !SomeNamesAll(gs) then d == Decision(true, NoMatchingGroup, None, None)
    else
      && d.agent == Some(if SomeNamesProduct(gs) then PRODUCT else [0x2A])
      && d.allowed == !Forbidden(gs, target)
      && (d.reason == if !SomeHits(gs, target) then NoMatchingRule else if d.allowed then MatchedAllow else MatchedDisallow)
      && if SomeHits(gs, target) then d.rule.Some? && Reports(gs, target, d.allowed, d.rule.value) else d.rule == None
  }

  lemma HitsMean(gs: seq<GroupValue>, target: seq<Token>)
    ensures forall r :: Hits(gs, r, target) <==> r in AllRules(Selected(gs)) && Applies(r, target)
  {
    SelectionMeans(gs);
    forall r: Rule
      ensures FullPattern(r.tokens, r.anchored) == r.tokens + if r.anchored then [] else [Wild]
    {
    }
    hide Counts, AllRules, Selected, Matches, FullPattern;
  }

  /** The winner, on the rules that count. */
  lemma WinnerMeans(gs: seq<GroupValue>, target: seq<Token>)
    ensures
      match Winner(AllRules(Selected(gs)), target)
      case None => !SomeHits(gs, target) && !Forbidden(gs, target)
      case Some(w) =>
        && Hits(gs, w, target) && (w.allowed <==> !Forbidden(gs, target))
        && forall x :: Hits(gs, x, target) ==> x.specificity <= w.specificity
  {
    HitsMean(gs, target);
    var rules := AllRules(Selected(gs));
    WinnerIsFirstBest(rules, target);
    WinnerAllows(rules, target);
    hide Hits, AllRules, Selected, Applies, Winner;
    if Winner(rules, target).Some? {
      var w := Winner(rules, target).value;
      var i :| FirstBest(rules, target, i) && rules[i] == w;
      assert w in rules && forall x :: x in rules && Applies(x, target) ==> !Better(x, w);
    }
  }

  /** A group is selected exactly if some group lists the product or `*`. */
  lemma SomeSelected(gs: seq<GroupValue>)
    ensures Filter(gs, true) != [] <==> SomeNamesProduct(gs)
    ensures Selected(gs) == [] <==> !SomeNamesProduct(gs) && !SomeNamesAll(gs)
  {
    SelectionMeans(gs);
    hide SomeNamesProduct, SomeNamesAll, Counts, Filter, AllRules;
  }

  /** The text of the winner is a text to report. */
  lemma WinnerReports(gs: seq<GroupValue>, target: seq<Token>, w: Rule)
    requires Hits(gs, w, target) && forall x :: Hits(gs, x, target) ==> x.specificity <= w.specificity
    ensures SomeHits(gs, target) && Reports(gs, target, w.allowed, w.normalized)
  {
    hide Hits;
  }

  lemma DecideMeans(gs: seq<GroupValue>, target: Normal)
    requires Before(target.text, QUESTION) != ROBOTS_URI
    ensures IsVerdict(gs, target.tokens, Decide(gs, target))
  {
    SomeSelected(gs);
    WinnerMeans(gs, target.tokens);
    hide SomeNamesProduct, SomeNamesAll, Hits, Filter, AllRules, Selected, Forbidden, Winner, Before, SomeHits, Reports;
    match Winner(AllRules(Selected(gs)), target.tokens) {
      case None =>
      case Some(w) => WinnerReports(gs, target.tokens, w);
    }
  }

  /** The whole evaluation: the errors in their order, the robots URI, and otherwise the verdict of the groups that list
      the product, or else of those that list `*`. */
  lemma EvaluationMeans(robotsTxt: seq<Octet>, target: Str)
    ensures
      var r := Evaluate(robotsTxt, target);
      if |robotsTxt| > 512_000 then r == Err(TooLarge)
      else if Decode(robotsTxt).None? then r == Err(InvalidEncoding)
      else if !ValidTarget(target) then r == Err(InvalidInput)
      else
        && NormalForm(target, false).Some? && r.Ok?
        && var n := NormalForm(target, false).value;
           if UpToQuery(n.text) == Codes("/robots.txt") then r.value == Decision(true, RobotsUri, None, None)
           else IsVerdict(ParseGroups(Decode(robotsTxt).value), n.tokens, r.value)
  {
    if |robotsTxt| <= 512_000 && Decode(robotsTxt).Some? && ValidTarget(target) {
      var n := TargetForm(target);
      QueryMeans(n.text);
      hide UpToQuery, ValidTarget, IsVerdict, Decide, NormalForm, ParseGroups, Decode;
      if Before(n.text, QUESTION) != ROBOTS_URI {
        DecideMeans(ParseGroups(Decode(robotsTxt).value), n);
      }
    } else {
      hide Decode, ValidTarget, Decide, NormalForm, ParseGroups;
    }
  }

  /** What comes before the first `?`. */
  function UpToQuery(s: Str): Str {
    if s == [] || s[0] == 0x3F then [] else [s[0]] + UpToQuery(s[1..])
  }

  lemma {:induction false} QueryMeans(s: Str)
    ensures UpToQuery(s) == Before(s, QUESTION)
  {
    if s != [] { QueryMeans(s[1..]); }
  }

  // ---------- Strict decoding ----------

  /** Octets decode exactly if they are the encoding of a text without surrogates, and then to that text. */
  lemma DecodingMeans(b: seq<Octet>)
    ensures Decode(b).Some? ==> b == Encode(Decode(b).value)
    ensures Decode(b).None? ==> forall s: Str :: (forall c :: c in s ==> !IsSurrogate(c)) ==> b != Encode(s)
  {
    if Decode(b).Some? {
      EncodeDecode(b);
    } else {
      forall s: Str | forall c :: c in s ==> !IsSurrogate(c)
        ensures b != Encode(s)
      {
        DecodeEncode(s);
      }
    }
  }

  lemma DigitsOfThree(a: nat, b: nat, d: nat)
    requires b < 64 && d < 64
    ensures var c := a * 4096 + b * 64 + d; c / 4096 == a && c / 64 % 64 == b && c % 64 == d
  {
    var c := a * 4096 + b * 64 + d;
    assert c == 64 * (a * 64 + b) + d;
    assert c / 64 == a * 64 + b;
  }

  lemma DigitsOfFour(a: nat, b: nat, d: nat, e: nat)
    requires b < 64 && d < 64 && e < 64
    ensures var c := a * 262144 + b * 4096 + d * 64 + e;
            c / 262144 == a && c / 4096 % 64 == b && c / 64 % 64 == d && c % 64 == e
  {
    var c := a * 262144 + b * 4096 + d * 64 + e;
    DigitsOfThree(a * 64 + b, d, e);
    assert c == (a * 64 + b) * 4096 + d * 64 + e;
    assert c / 4096 == a * 64 + b;
  }

  lemma Utf8DecodeFirst(b: seq<Octet>)
    requires b != [] && DecodeFirst(b).Some?
    ensures var (c, n) := DecodeFirst(b).value; n <= |b| && Utf8(c) == b[..n]
  {
    if b[0] >= 0xF0 {
      DigitsOfFour(b[0] as int - 0xF0, b[1] as int - 0x80, b[2] as int - 0x80, b[3] as int - 0x80);
      assert b[..4] == [b[0], b[1], b[2], b[3]];
    } else if b[0] >= 0xE0 {
      DigitsOfThree(b[0] as int - 0xE0, b[1] as int - 0x80, b[2] as int - 0x80);
      assert b[..3] == [b[0], b[1], b[2]];
    } else if b[0] >= 0x80 {
      assert b[..2] == [b[0], b[1]];
    } else {
      assert b[..1] == [b[0]];
    }
  }

  lemma EncodeCons(b: seq<Octet>, n: nat, c: Code, rest: Str)
    requires !IsSurrogate(c) && forall d :: d in rest ==> !IsSurrogate(d)
    requires n <= |b| && Utf8(c) == b[..n] && Encode(rest) == b[n..]
    ensures Encode([c] + rest) == b
  {
    assert ([c] + rest)[1..] == rest;
    hide Utf8;
    assert Encode([c] + rest) == b[..n] + b[n..];
  }

  lemma {:induction false} EncodeDecode(b: seq<Octet>)
    requires Decode(b).Some?
    ensures b == Encode(Decode(b).value)
  {
    if b != [] {
      hide DecodeFirst, Encode, Utf8;
      var (c, n) := DecodeFirst(b).value;
      Utf8DecodeFirst(b);
      EncodeDecode(b[n..]);
      EncodeCons(b, n, c, Decode(b[n..]).value);
    }
  }
}
