/** Percent-encoding normalisation of robots rules and targets (RFC 3986 sections 2.3 and 6.2.2). */
module Normalize {
  import opened Wrappers
  import opened Text

  /** A wildcard, a raw ASCII character (its code) or a percent-encoded octet (256 + octet). */
  datatype Token = Wild | Lit(code: nat)

  datatype Normal = Normal(text: Str, tokens: seq<Token>)

  function OctetToken(o: Octet): Token { if Unreserved(o) then Lit(o) else Lit(256 + o) }

  function EncodedTokens(os: seq<Octet>): (r: seq<Token>)
    ensures |r| == |os| && forall i :: 0 <= i < |os| ==> r[i] == Lit(256 + os[i] as int)
  {
    seq(|os|, i requires 0 <= i < |os| => Lit(256 + os[i] as int))
  }

  predicate Escape(v: Str) { |v| >= 3 && v[0] == PERCENT && IsHex(v[1]) && IsHex(v[2]) }

  function EscapedOctet(v: Str): Octet
    requires Escape(v)
  {
    16 * HexValue(v[1]) + HexValue(v[2])
  }

  /** The tokens of the first unit of a text and the number of characters it takes; None where the
      original raises ValueError. */
  function FirstUnit(v: Str, pattern: bool): (r: Option<(seq<Token>, nat)>)
    requires v != []
    ensures r.Some? ==> 1 <= r.value.1 <= |v| && r.value.0 != []
  {
    if v[0] == PERCENT then
      if Escape(v) then Some(([OctetToken(EscapedOctet(v))], 3)) else None
    else if pattern && v[0] == STAR then Some(([Wild], 1))
    else if v[0] < 0x80 then Some(([Lit(v[0])], 1))
    else if IsSurrogate(v[0]) then None
    else Some((EncodedTokens(Utf8(v[0])), 1))
  }

  function Prepend<T>(ts: seq<T>, r: Option<seq<T>>): Option<seq<T>> {
    if r.Some? then Some(ts + r.value) else None
  }

  function Tokenize(v: Str, pattern: bool): Option<seq<Token>>
  {
    if v == [] then Some([])
    else
      match FirstUnit(v, pattern)
      case None => None
      case Some((ts, n)) =>
        Prepend(ts, Tokenize(v[n..], pattern))
  }

  /** The tokens a normalised text can have: raw ASCII other than `%`, and octets that are not unreserved. */
  predicate CanonicalToken(t: Token, pattern: bool) {
    match t
    case Wild => pattern
    case Lit(n) =>
      (n < 0x80 && n != PERCENT && !(pattern && n == STAR)) || (256 <= n < 512 && !Unreserved(n - 256))
  }

  ghost predicate Canonical(ts: seq<Token>, pattern: bool) {
    forall i :: 0 <= i < |ts| ==> CanonicalToken(ts[i], pattern)
  }

  function EncodedText(o: Octet): (r: Str)
    ensures |r| == 3 && Escape(r) && EscapedOctet(r) == o
  {
    [PERCENT, HexDigit(o / 16), HexDigit(o % 16)]
  }

  function TokenText(t: Token): (r: Str)
    ensures r != []
  {
    match t
    case Wild => [STAR]
    case Lit(n) => if 256 <= n < 512 then EncodedText(n - 256) else if n < 256 then [n] else [STAR]
  }

  function Render(ts: seq<Token>): Str {
    if ts == [] then [] else TokenText(ts[0]) + Render(ts[1..])
  }

  function NormalForm(v: Str, pattern: bool): Option<Normal> {
    match Tokenize(v, pattern)
    case None => None
    case Some(ts) => Some(Normal(Render(ts), ts))
  }

  /** The text, the tokens and the length of the unit at an index. */
  method NormalizeUnit(value: Str, index: nat, pattern: bool) returns (unit: Option<(Str, seq<Token>, nat)>)
    requires index < |value|
    ensures unit.None? <==> FirstUnit(value[index..], pattern).None?
    ensures unit.Some? ==> FirstUnit(value[index..], pattern) == Some((unit.value.1, unit.value.2))
                           && unit.value.0 == Render(unit.value.1)
  {
    UnitAt(value, index, pattern);
    hide FirstUnit, EncodedText, Utf8, Render;
    var character := value[index];
    if character == PERCENT {
      if index + 2 >= |value| || !IsHex(value[index + 1]) || !IsHex(value[index + 2]) {
        return None;
      }
      var octet: Octet := 16 * HexValue(value[index + 1]) + HexValue(value[index + 2]);
      RenderOne(OctetToken(octet));
      if Unreserved(octet) {
        return Some(([octet], [Lit(octet)], 3));
      }
      return Some((EncodedText(octet), [Lit(256 + octet)], 3));
    }
    if pattern && character == STAR {
      RenderOne(Wild);
      return Some(([character], [Wild], 1));
    }
    if character < 0x80 {
      RenderOne(Lit(character));
      return Some(([character], [Lit(character)], 1));
    }
    if IsSurrogate(character) {
      return None;
    }
    var text, tokens := EncodeOctets(Utf8(character));
    return Some((text, tokens, 1));
  }

  /** The loop of the original: text and tokens grow together. */
  method NormalizeText(value: Str, pattern: bool) returns (r: Option<Normal>)
    ensures r == NormalForm(value, pattern)
  {
    var normalized: Str := [];
    var tokens: seq<Token> := [];
    var index := 0;
    PrependConcat([], [], Tokenize(value, pattern));
    assert value[0..] == value && Render([]) == [] && Tokenize([], pattern) == Some([]);
    hide Render, Tokenize, Prepend, FirstUnit;
    while index < |value|
      invariant 0 <= index <= |value|
      invariant normalized == Render(tokens)
      invariant Tokenize(value, pattern) == Prepend(tokens, Tokenize(value[index..], pattern))
    {
      var unit := NormalizeUnit(value, index, pattern);
      Consume(value, index, tokens, pattern);
      if unit.None? {
        return None;
      }
      RenderConcat(tokens, unit.value.1);
      normalized := normalized + unit.value.0;
      tokens := tokens + unit.value.1;
      index := index + unit.value.2;
    }
    assert value[index..] == [];
    PrependNothing(tokens);
    return Some(Normal(normalized, tokens));
  }

  /** The first unit from an index on. */
  lemma UnitAt(v: Str, i: nat, pattern: bool)
    requires i < |v|
    ensures
      FirstUnit(v[i..], pattern)
      == if v[i] == PERCENT then
           if i + 2 < |v| && IsHex(v[i + 1]) && IsHex(v[i + 2])
           then Some(([OctetToken(16 * HexValue(v[i + 1]) + HexValue(v[i + 2]))], 3)) else None
         else if pattern && v[i] == STAR then Some(([Wild], 1))
         else if v[i] < 0x80 then Some(([Lit(v[i])], 1))
         else if IsSurrogate(v[i]) then None
         else Some((EncodedTokens(Utf8(v[i])), 1))
  {
    hide OctetToken, EncodedTokens, Utf8;
  }

  /** The inner loop: the UTF-8 octets of one character, each escaped. */
  method EncodeOctets(octets: seq<Octet>) returns (text: Str, tokens: seq<Token>)
    ensures tokens == EncodedTokens(octets) && text == Render(tokens)
  {
    text, tokens := [], [];
    assert EncodedTokens(octets[..0]) == [] && Render([]) == [];
    hide Render, TokenText, EncodedText, EncodedTokens;
    for i := 0 to |octets|
      invariant tokens == EncodedTokens(octets[..i])
      invariant text == Render(tokens)
    {
      EncodedSnoc(octets, i);
      RenderSnoc(tokens, Lit(256 + octets[i] as int));
      text := text + EncodedText(octets[i]);
      tokens := tokens + [Lit(256 + octets[i] as int)];
    }
    assert octets[..|octets|] == octets;
  }

  lemma EncodedSnoc(os: seq<Octet>, i: nat)
    requires i < |os|
    ensures EncodedTokens(os[..i + 1]) == EncodedTokens(os[..i]) + [Lit(256 + os[i] as int)]
    ensures TokenText(Lit(256 + os[i] as int)) == EncodedText(os[i])
  {
    hide EncodedText;
    assert os[..i + 1] == os[..i] + [os[i]];
  }

  /** One iteration: what remains to be tokenised after the first unit. */
  lemma Consume(v: Str, i: nat, done: seq<Token>, pattern: bool)
    requires i < |v|
    ensures var u := FirstUnit(v[i..], pattern);
            if u.None? then Prepend(done, Tokenize(v[i..], pattern)).None?
            else i + u.value.1 <= |v| &&
                 Prepend(done, Tokenize(v[i..], pattern))
                 == Prepend(done + u.value.0, Tokenize(v[i + u.value.1..], pattern))
  {
    var u := FirstUnit(v[i..], pattern);
    if u.Some? {
      var (ts, n) := u.value;
      assert v[i..][n..] == v[i + n..];
      PrependConcat(done, ts, Tokenize(v[i + n..], pattern));
    }
  }

  lemma PrependNothing<T>(a: seq<T>)
    ensures Prepend(a, Some([])) == Some(a)
  {
    assert a + [] == a;
  }

  lemma PrependConcat<T>(a: seq<T>, b: seq<T>, r: Option<seq<T>>)
    ensures Prepend(a, Prepend(b, r)) == Prepend(a + b, r) && Prepend([], r) == r
  {
    if r.Some? {
      assert a + (b + r.value) == (a + b) + r.value;
      assert [] + r.value == r.value;
    }
  }

  lemma {:induction false} RenderConcat(a: seq<Token>, b: seq<Token>)
    ensures Render(a + b) == Render(a) + Render(b)
  {
    if a == [] {
      assert a + b == b;
    } else {
      assert (a + b)[1..] == a[1..] + b;
      RenderConcat(a[1..], b);
    }
  }

  lemma RenderOne(t: Token)
    ensures Render([t]) == TokenText(t)
  {
    assert [t][1..] == [];
  }

  lemma RenderSnoc(ts: seq<Token>, t: Token)
    ensures Render(ts + [t]) == Render(ts) + TokenText(t)
  {
    RenderConcat(ts, [t]);
    RenderOne(t);
  }

  lemma {:induction false} TokensCanonical(v: Str, pattern: bool)
    ensures Tokenize(v, pattern).Some? ==> Canonical(Tokenize(v, pattern).value, pattern)
  {
    if v != [] && Tokenize(v, pattern).Some? {
      var (ts, n) := FirstUnit(v, pattern).value;
      TokensCanonical(v[n..], pattern);
      assert forall i :: 0 <= i < |ts| ==> CanonicalToken(ts[i], pattern);
    }
  }

  lemma FirstOfCanonical(t: Token, rest: Str, pattern: bool)
    requires CanonicalToken(t, pattern)
    ensures FirstUnit(TokenText(t) + rest, pattern) == Some(([t], |TokenText(t)|))
  {
    var text := TokenText(t) + rest;
    assert forall i :: 0 <= i < |TokenText(t)| ==> text[i] == TokenText(t)[i];
  }

  /** A canonical token list is the token list of its own rendering. */
  lemma {:induction false} TokenizeRender(ts: seq<Token>, pattern: bool)
    requires Canonical(ts, pattern)
    ensures Tokenize(Render(ts), pattern) == Some(ts)
  {
    if ts != [] {
      var text, head, rest := Render(ts), TokenText(ts[0]), Render(ts[1..]);
      assert text == head + rest;
      assert text[|head|..] == rest;
      assert CanonicalToken(ts[0], pattern);
      hide Render, TokenText, FirstUnit, CanonicalToken;
      FirstOfCanonical(ts[0], rest, pattern);
      TokenizeRender(ts[1..], pattern);
      assert [ts[0]] + ts[1..] == ts;
    }
  }

  /** Normalising a normalised text changes neither the text nor the tokens. */
  lemma NormalizeIdempotent(v: Str, pattern: bool)
    requires NormalForm(v, pattern).Some?
    ensures NormalForm(NormalForm(v, pattern).value.text, pattern) == NormalForm(v, pattern)
  {
    TokensCanonical(v, pattern);
    TokenizeRender(Tokenize(v, pattern).value, pattern);
  }

  /** Two texts have the same normalised text exactly when they have the same tokens. */
  lemma SameTextSameTokens(v: Str, w: Str, pattern: bool)
    requires NormalForm(v, pattern).Some? && NormalForm(w, pattern).Some?
    ensures NormalForm(v, pattern).value.text == NormalForm(w, pattern).value.text
       <==> NormalForm(v, pattern).value.tokens == NormalForm(w, pattern).value.tokens
  {
    NormalizeIdempotent(v, pattern);
    NormalizeIdempotent(w, pattern);
  }

  // ---------- What normalisation preserves ----------

  /** The octets a text stands for: every escape decoded, every other character in UTF-8. */
  function Octets(v: Str): Option<seq<Octet>> {
    if v == [] then Some([])
    else if v[0] == PERCENT then
      if Escape(v) then Prepend([EscapedOctet(v)], Octets(v[3..])) else None
    else if IsSurrogate(v[0]) then None
    else Prepend(Utf8(v[0]), Octets(v[1..]))
  }

  function TokenOctet(t: Token): Octet {
    match t
    case Wild => STAR
    case Lit(n) => if n < 256 then n else if n < 512 then n - 256 else STAR
  }

  function TokenOctets(ts: seq<Token>): (r: seq<Octet>)
    ensures |r| == |ts| && forall i :: 0 <= i < |ts| ==> r[i] == TokenOctet(ts[i])
  {
    seq(|ts|, i requires 0 <= i < |ts| => TokenOctet(ts[i]))
  }

  lemma UnitKeepsOctets(v: Str, pattern: bool)
    requires v != []
    ensures var u := FirstUnit(v, pattern);
            if u.None? then Octets(v).None? else Octets(v) == Prepend(TokenOctets(u.value.0), Octets(v[u.value.1..]))
  {
    if v[0] == PERCENT {
      if Escape(v) {
        assert TokenOctets([OctetToken(EscapedOctet(v))]) == [EscapedOctet(v)];
      }
    } else if !IsSurrogate(v[0]) {
      assert TokenOctets(FirstUnit(v, pattern).value.0) == Utf8(v[0]);
    }
  }

  function OptionalOctets(ts: Option<seq<Token>>): Option<seq<Octet>> {
    if ts.Some? then Some(TokenOctets(ts.value)) else None
  }

  lemma OctetsOfPrepend(ts: seq<Token>, r: Option<seq<Token>>)
    ensures OptionalOctets(Prepend(ts, r)) == Prepend(TokenOctets(ts), OptionalOctets(r))
  {
    if r.Some? {
      assert TokenOctets(ts + r.value) == TokenOctets(ts) + TokenOctets(r.value);
    }
  }

  /** The octets of a text are those of its tokens. */
  lemma {:induction false} TokensKeepOctets(v: Str, pattern: bool)
    ensures Octets(v) == OptionalOctets(Tokenize(v, pattern))
  {
    if v == [] {
      assert TokenOctets([]) == [];
    } else {
      UnitKeepsOctets(v, pattern);
      hide FirstUnit, Octets, OptionalOctets, Prepend;
      var u := FirstUnit(v, pattern);
      if u.Some? {
        TokensKeepOctets(v[u.value.1..], pattern);
        OctetsOfPrepend(u.value.0, Tokenize(v[u.value.1..], pattern));
      } else {
        assert OptionalOctets(None) == None by { NoOctets(); }
      }
    }
  }

  lemma NoOctets()
    ensures OptionalOctets(None) == None
  {
  }

  /** Normalisation fails exactly on texts without a meaning, and never changes the meaning. */
  lemma NormalizePreservesOctets(v: Str, pattern: bool)
    ensures NormalForm(v, pattern).Some? <==> Octets(v).Some?
    ensures Octets(v).Some? ==> Octets(NormalForm(v, pattern).value.text) == Octets(v)
  {
    hide Octets, Tokenize, Render;
    TokensKeepOctets(v, pattern);
    if Tokenize(v, pattern).Some? {
      NormalizeIdempotent(v, pattern);
      TokensKeepOctets(NormalForm(v, pattern).value.text, pattern);
    }
  }

  // ---------- Characters of a normalised text ----------

  lemma {:induction false} EncodedCharacters(ts: seq<Token>)
    requires forall i :: 0 <= i < |ts| ==> ts[i].Lit? && 256 <= ts[i].code < 512
    ensures forall c :: c in Render(ts) ==> c < 0x80 && (c == PERCENT || Unreserved(c))
  {
    if ts != [] {
      EncodedCharacters(ts[1..]);
    }
  }

  lemma UnitCharacters(v: Str, pattern: bool)
    requires v != [] && FirstUnit(v, pattern).Some?
    ensures forall c :: c in Render(FirstUnit(v, pattern).value.0) ==>
              c < 0x80 && (c in v || c == PERCENT || Unreserved(c))
  {
    var ts := FirstUnit(v, pattern).value.0;
    if v[0] >= 0x80 {
      EncodedCharacters(ts);
    } else {
      RenderOne(ts[0]);
      assert ts == [ts[0]];
    }
  }

  /** Normalisation introduces no character but `%` and unreserved ones, and only ASCII remains. */
  lemma {:induction false} NormalCharacters(v: Str, pattern: bool)
    requires Tokenize(v, pattern).Some?
    ensures forall c :: c in Render(Tokenize(v, pattern).value) ==>
              c < 0x80 && (c in v || c == PERCENT || Unreserved(c))
  {
    if v != [] {
      var (ts, n) := FirstUnit(v, pattern).value;
      UnitCharacters(v, pattern);
      hide FirstUnit, Render, Unreserved;
      NormalCharacters(v[n..], pattern);
      RenderConcat(ts, Tokenize(v[n..], pattern).value);
    } else {
      assert Render([]) == [];
    }
  }

  /** Every `%` of the text begins a complete escape, and no surrogate occurs. */
  predicate WellEscaped(v: Str) {
    forall i :: 0 <= i < |v| ==> !IsSurrogate(v[i]) && (v[i] == PERCENT ==> Escape(v[i..]))
  }

  /** A well-escaped text has a normal form. */
  lemma {:induction false} WellEscapedNormalizes(v: Str, pattern: bool)
    requires WellEscaped(v)
    ensures Tokenize(v, pattern).Some?
  {
    if v != [] {
      assert v[0..] == v;
      var n := FirstUnit(v, pattern).value.1;
      assert forall i :: 0 <= i < |v| - n ==> v[n..][i..] == v[n + i..];
      WellEscapedNormalizes(v[n..], pattern);
    }
  }

  lemma {:induction false} RenderWellEscaped(ts: seq<Token>, pattern: bool)
    requires Canonical(ts, pattern)
    ensures WellEscaped(Render(ts))
  {
    if ts != [] {
      RenderWellEscaped(ts[1..], pattern);
      assert CanonicalToken(ts[0], pattern);
      var head, rest, text := TokenText(ts[0]), Render(ts[1..]), Render(ts);
      forall i | 0 <= i < |text|
        ensures !IsSurrogate(text[i]) && (text[i] == PERCENT ==> Escape(text[i..]))
      {
        if i >= |head| {
          assert text[i..] == rest[i - |head|..];
        } else if text[i] == PERCENT {
          assert i == 0 && text[0..] == text;
        }
      }
    }
  }

  /** The last character of a rendering is `$` exactly when the last token is a raw `$`. */
  lemma {:induction false} LastIsDollar(ts: seq<Token>, pattern: bool)
    requires Canonical(ts, pattern) && ts != []
    ensures Render(ts) != [] && (Last(Render(ts)) == DOLLAR <==> ts[|ts| - 1] == Lit(DOLLAR))
  {
    var n := |ts| - 1;
    RenderConcat(ts[..n], [ts[n]]);
    assert ts == ts[..n] + [ts[n]];
    assert Render([ts[n]]) == TokenText(ts[n]);
    assert CanonicalToken(ts[n], pattern);
  }

  function Last(s: Str): Code
    requires s != []
  {
    s[|s| - 1]
  }
}
