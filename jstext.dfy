/**
 * JavaScript strings: sequences of UTF-16 code units. Literals of the extension's source are
 * written here as Dafny strings (sequences of Unicode scalar values) and encoded with `Encode`;
 * `Decode` inverts it, which makes distinct literals distinct JavaScript strings.
 */
module JsText {
  import opened Text

  newtype CodeUnit = x: int | 0 <= x < 0x1_0000

  type JsString = seq<CodeUnit>

  const LF: CodeUnit := 0x0A
  const Space: CodeUnit := 0x20
  const Nbsp: CodeUnit := 0xA0

  predicate IsHighSurrogate(u: CodeUnit) { 0xD800 <= u <= 0xDBFF }
  predicate IsLowSurrogate(u: CodeUnit) { 0xDC00 <= u <= 0xDFFF }

  /** The UTF-16 encoding of one Unicode scalar value: one code unit, or a surrogate pair above U+FFFF. */
  function Units(c: char): (r: JsString)
    ensures 1 <= |r| <= 2
  {
    var v := c as int;
    if v < 0x1_0000 then [v as CodeUnit]
    else [(0xD800 + (v - 0x1_0000) / 0x400) as CodeUnit, (0xDC00 + (v - 0x1_0000) % 0x400) as CodeUnit]
  }

  /**
   * The JavaScript string of a Dafny string. It is defined through the length of `s`, so that
   * the verifier does not expand it character by character on every string literal in sight.
   */
  function Encode(s: string): (r: JsString)
    ensures |s| <= |r| <= 2 * |s|
  {
    EncodePrefix(s, |s|)
  }

  /** The encoding of the first `n` characters of `s`. */
  function EncodePrefix(s: string, n: nat): (r: JsString)
    requires n <= |s|
    ensures n <= |r| <= 2 * n
    decreases n
  {
    if n == 0 then [] else EncodePrefix(s, n - 1) + Units(s[n - 1])
  }

  lemma {:induction false} EncodePrefixCons(s: string, n: nat)
    requires 1 <= n <= |s|
    ensures EncodePrefix(s, n) == Units(s[0]) + EncodePrefix(s[1..], n - 1)
    decreases n
  {
    if n > 1 {
      EncodePrefixCons(s, n - 1);
      var head := Units(s[0]);
      var mid := EncodePrefix(s[1..], n - 2);
      var last := Units(s[n - 1]);
      assert s[1..][n - 2] == s[n - 1];
      assert EncodePrefix(s[1..], n - 1) == mid + last;
      assert EncodePrefix(s, n) == (head + mid) + last;
    }
  }

  /** Encoding works character by character from the front. */
  lemma EncodeCons(s: string)
    requires s != []
    ensures Encode(s) == Units(s[0]) + Encode(s[1..])
  {
    EncodePrefixCons(s, |s|);
  }

  /** A string of characters below U+10000 encodes to one code unit per character. */
  lemma {:induction false} EncodePrefixBmp(s: string, n: nat)
    requires n <= |s|
    requires forall i :: 0 <= i < |s| ==> s[i] as int < 0x1_0000
    ensures |EncodePrefix(s, n)| == n
    ensures forall i :: 0 <= i < n ==> EncodePrefix(s, n)[i] == s[i] as int as CodeUnit
    decreases n
  {
    if n > 0 {
      EncodePrefixBmp(s, n - 1);
    }
  }

  lemma EncodeBmp(s: string)
    requires forall i :: 0 <= i < |s| ==> s[i] as int < 0x1_0000
    ensures |Encode(s)| == |s|
    ensures forall i :: 0 <= i < |s| ==> Encode(s)[i] == s[i] as int as CodeUnit
  {
    EncodePrefixBmp(s, |s|);
  }

  /** Reads UTF-16 back into scalar values; a lone surrogate reads as U+FFFD. */
  function Decode(u: JsString): string
    decreases |u|
  {
    if u == [] then []
    else if |u| >= 2 && IsHighSurrogate(u[0]) && IsLowSurrogate(u[1]) then
      [(0x1_0000 + (u[0] as int - 0xD800) * 0x400 + (u[1] as int - 0xDC00)) as char] + Decode(u[2..])
    else if IsHighSurrogate(u[0]) || IsLowSurrogate(u[0]) then ['\U{FFFD}'] + Decode(u[1..])
    else [u[0] as int as char] + Decode(u[1..])
  }

  /** Decoding the units of one character gives that character back, whatever follows. */
  lemma DecodeUnits(c: char, rest: JsString)
    ensures Decode(Units(c) + rest) == [c] + Decode(rest)
  {
    var v := c as int;
    var u := Units(c) + rest;
    if v < 0x1_0000 {
      assert u[1..] == rest;
      assert !IsHighSurrogate(u[0]) && !IsLowSurrogate(u[0]);
    } else {
      var w := v - 0x1_0000;
      assert u[2..] == rest;
      assert 0x1_0000 + (w / 0x400) * 0x400 + w % 0x400 == v;
    }
  }

  /** Decoding undoes encoding. */
  lemma {:induction false} DecodeEncode(s: string)
    ensures Decode(Encode(s)) == s
  {
    if s != [] {
      EncodeCons(s);
      DecodeUnits(s[0], Encode(s[1..]));
      DecodeEncode(s[1..]);
      assert s == [s[0]] + s[1..];
    }
  }

  /** Distinct Dafny strings encode to distinct JavaScript strings. */
  lemma EncodeInjective(a: string, b: string)
    requires a != b
    ensures Encode(a) != Encode(b)
  {
    DecodeEncode(a);
    DecodeEncode(b);
  }

  /**
   * The code units that `String.prototype.trim` removes: the ECMAScript WhiteSpace set (TAB, VT,
   * FF, ZWNBSP and every space separator of category Zs) and the LineTerminator set (LF, CR, LS, PS).
   */
  predicate IsJsWhitespace(u: CodeUnit)
  {
    u == 0x09 || u == 0x0A || u == 0x0B || u == 0x0C || u == 0x0D || u == 0x20 || u == 0xA0
    || u == 0x1680 || 0x2000 <= u <= 0x200A || u == 0x2028 || u == 0x2029 || u == 0x202F
    || u == 0x205F || u == 0x3000 || u == 0xFEFF
  }

  /** `s.trim()` */
  function JsTrim(s: JsString): (r: JsString)
    ensures IsTrimmed(r, IsJsWhitespace)
    ensures |r| <= |s|
  {
    Trim(s, IsJsWhitespace)
  }

  /** `s.startsWith(p)` */
  predicate StartsWith(s: JsString, p: JsString)
  {
    p <= s
  }
}
