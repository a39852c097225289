/** Strings as sequences of code points, octets, UTF-8 and hexadecimal digits. */
module Text {
  import opened Wrappers

  /** One element of a Python `str`: any code point, lone surrogates included. */
  type Code = c: int | 0 <= c <= 0x10FFFF
  type Str = seq<Code>
  type Octet = o: int | 0 <= o < 256

  const SLASH: Code := 0x2F
  const PERCENT: Code := 0x25
  const STAR: Code := 0x2A
  const DOLLAR: Code := 0x24
  const HASH: Code := 0x23
  const COLON: Code := 0x3A
  const QUESTION: Code := 0x3F
  const CR: Code := 0x0D
  const LF: Code := 0x0A
  const SPACE: Code := 0x20
  const TAB: Code := 0x09

  function Codes(s: string): (r: Str)
    ensures |r| == |s|
    ensures forall i :: 0 <= i < |s| ==> r[i] == s[i] as int
  {
    seq(|s|, i requires 0 <= i < |s| => s[i] as int)
  }

  predicate IsLower(c: Code) { 0x61 <= c <= 0x7A }
  predicate IsUpper(c: Code) { 0x41 <= c <= 0x5A }
  predicate IsDigit(c: Code) { 0x30 <= c <= 0x39 }
  predicate IsSurrogate(c: Code) { 0xD800 <= c <= 0xDFFF }

  /** ASCII lower-casing. */
  function Lower(s: Str): (r: Str)
    ensures |r| == |s|
  {
    seq(|s|, i requires 0 <= i < |s| => if IsUpper(s[i]) then s[i] + 0x20 else s[i])
  }

  predicate IsHex(c: Code) { IsDigit(c) || 0x41 <= c <= 0x46 || 0x61 <= c <= 0x66 }

  function HexValue(c: Code): (n: nat)
    requires IsHex(c)
    ensures n < 16
  {
    if IsDigit(c) then c - 0x30 else if c <= 0x46 then c - 0x37 else c - 0x57
  }

  /** The upper-case digit, as in the format `X`. */
  function HexDigit(n: nat): (c: Code)
    requires n < 16
    ensures IsHex(c) && HexValue(c) == n
  {
    if n < 10 then 0x30 + n else 0x37 + n
  }

  /** The unreserved characters of RFC 3986 section 2.3. */
  predicate Unreserved(o: int) {
    0x41 <= o <= 0x5A || 0x61 <= o <= 0x7A || 0x30 <= o <= 0x39 || o == 0x2D || o == 0x2E || o == 0x5F || o == 0x7E
  }

  /** UTF-8 octets of one code point; a surrogate cannot be encoded. */
  function Utf8(c: Code): (r: seq<Octet>)
    requires !IsSurrogate(c)
    ensures 1 <= |r| <= 4
    ensures c < 0x80 <==> r[0] < 0x80
    ensures c >= 0x80 ==> forall i :: 0 <= i < |r| ==> r[i] >= 0x80
  {
    if c < 0x80 then [c]
    else if c < 0x800 then [0xC0 + c / 64, 0x80 + c % 64]
    else if c < 0x10000 then [0xE0 + c / 4096, 0x80 + c / 64 % 64, 0x80 + c % 64]
    else [0xF0 + c / 262144, 0x80 + c / 4096 % 64, 0x80 + c / 64 % 64, 0x80 + c % 64]
  }

  function Encode(s: Str): seq<Octet>
    requires forall c :: c in s ==> !IsSurrogate(c)
  {
    if s == [] then [] else Utf8(s[0]) + Encode(s[1..])
  }

  predicate Continuation(o: int) { 0x80 <= o < 0xC0 }

  /** The first code point of a strict UTF-8 decoding and its length; overlong forms, surrogates
      and values over U+10FFFF are errors. */
  function DecodeFirst(b: seq<Octet>): (r: Option<(Code, nat)>)
    requires b != []
    ensures r.Some? ==> 1 <= r.value.1 <= |b| && !IsSurrogate(r.value.0)
  {
    if b[0] < 0x80 then Some((b[0], 1))
    else if 0xC2 <= b[0] < 0xE0 then
      if |b| >= 2 && Continuation(b[1]) then
        var c: int := (b[0] as int - 0xC0) * 64 + (b[1] as int - 0x80);
        Some((c, 2))
      else None
    else if 0xE0 <= b[0] < 0xF0 then
      if |b| >= 3 && Continuation(b[1]) && Continuation(b[2]) then
        var c: int := (b[0] as int - 0xE0) * 4096 + (b[1] as int - 0x80) * 64 + (b[2] as int - 0x80);
        if 0x800 <= c && !IsSurrogate(c) then Some((c, 3)) else None
      else None
    else if 0xF0 <= b[0] < 0xF5 then
      if |b| >= 4 && Continuation(b[1]) && Continuation(b[2]) && Continuation(b[3]) then
        var c: int :=
          (b[0] as int - 0xF0) * 262144 + (b[1] as int - 0x80) * 4096 + (b[2] as int - 0x80) * 64 + (b[3] as int - 0x80);
        if 0x10000 <= c <= 0x10FFFF then Some((c, 4)) else None
      else None
    else None
  }

  /** `bytes.decode("utf-8", errors="strict")`. */
  function Decode(b: seq<Octet>): (r: Option<Str>)
    ensures r.Some? ==> forall c :: c in r.value ==> !IsSurrogate(c)
  {
    if b == [] then Some([])
    else
      match DecodeFirst(b)
      case None => None
      case Some((c, n)) =>
        match Decode(b[n..])
        case None => None
        case Some(rest) => Some([c] + rest)
  }

  /** Three octets carry a code point by its digits in base 64. */
  lemma DecodeThree(a: nat, b: nat, d: nat, tail: seq<Octet>)
    requires a < 16 && b < 64 && d < 64 && 0x800 <= a * 4096 + b * 64 + d && !IsSurrogate(a * 4096 + b * 64 + d)
    ensures DecodeFirst([(0xE0 + a) as Octet, (0x80 + b) as Octet, (0x80 + d) as Octet] + tail)
         == Some(((a * 4096 + b * 64 + d) as Code, 3))
  {
  }

  /** And so do four. */
  lemma DecodeFour(a: nat, b: nat, d: nat, e: nat, tail: seq<Octet>)
    requires a < 5 && b < 64 && d < 64 && e < 64 && 0x10000 <= a * 262144 + b * 4096 + d * 64 + e <= 0x10FFFF
    ensures DecodeFirst([(0xF0 + a) as Octet, (0x80 + b) as Octet, (0x80 + d) as Octet, (0x80 + e) as Octet] + tail)
         == Some(((a * 262144 + b * 4096 + d * 64 + e) as Code, 4))
  {
  }

  lemma Digits(c: nat)
    ensures c == c / 4096 * 4096 + c / 64 % 64 * 64 + c % 64
    ensures c == c / 262144 * 262144 + c / 4096 % 64 * 4096 + c / 64 % 64 * 64 + c % 64
  {
  }

  lemma DecodeFirstUtf8(c: Code, tail: seq<Octet>)
    requires !IsSurrogate(c)
    ensures DecodeFirst(Utf8(c) + tail) == Some((c, |Utf8(c)|))
  {
    if c >= 0x800 {
      hide DecodeFirst;
      Digits(c);
      if c < 0x10000 {
        DecodeThree(c / 4096, c / 64 % 64, c % 64, tail);
      } else {
        DecodeFour(c / 262144, c / 4096 % 64, c / 64 % 64, c % 64, tail);
      }
    }
  }

  /** Strict decoding inverts encoding. */
  lemma {:induction false} DecodeEncode(s: Str)
    requires forall c :: c in s ==> !IsSurrogate(c)
    ensures Decode(Encode(s)) == Some(s)
  {
    if s != [] {
      var u, rest := Utf8(s[0]), Encode(s[1..]);
      DecodeFirstUtf8(s[0], rest);
      assert (u + rest)[|u|..] == rest;
      DecodeEncode(s[1..]);
      assert [s[0]] + s[1..] == s;
    }
  }
}
