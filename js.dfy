/** JavaScript value semantics that the dashboard relies on: optional values, numbers
    that may be NaN, the `||` fallback on falsy values, `Number(string)`, template
    rendering of integers, `String.prototype.trim` and `String.prototype.toUpperCase`. */
module Js {

  datatype Option<T> = None | Some(value: T)

  datatype Result<T, E> = Ok(value: T) | Err(error: E)

  /** A JavaScript number. Infinities do not arise in the modelled code and are not represented. */
  datatype Num = Num(v: real) | NaN

  /** A scalar as it arrives from the HTTP API or a form control. */
  datatype Scalar = SNum(n: Num) | SStr(s: string) | SNull

  function Min(a: real, b: real): real { if a <= b then a else b }

  function Max(a: real, b: real): real { if a >= b then a else b }

  function MinNat(a: nat, b: nat): nat { if a <= b then a else b }

  /** JavaScript truthiness of a number: 0 and NaN are falsy. */
  predicate NumTruthy(n: Num) { n.Num? && n.v != 0.0 }

  /** JavaScript truthiness of a scalar: 0, NaN, '' and null are falsy. */
  predicate ScalarTruthy(x: Scalar)
  {
    match x
    case SNum(n) => NumTruthy(n)
    case SStr(s) => s != ""
    case SNull => false
  }

  /** `Number(x) || d`, where `n` is what `Number(x)` gave. */
  function NumOr(n: Num, d: real): (r: real)
    ensures NumTruthy(n) ==> r == n.v
    ensures !NumTruthy(n) ==> r == d
  {
    if NumTruthy(n) then n.v else d
  }

  /** `s || d` on a string that may be null (None). */
  function StrOr(s: Option<string>, d: string): (r: string)
    ensures r == d || (s.Some? && r == s.value && r != "")
  {
    if s.Some? && s.value != "" then s.value else d
  }

  /** The comparison `n <= x`, `n < x`, `n > x` on a number that may be NaN (NaN compares false). */
  predicate NumLe(n: Num, x: real) { n.Num? && n.v <= x }
  predicate NumLt(n: Num, x: real) { n.Num? && n.v < x }
  predicate NumGt(n: Num, x: real) { n.Num? && n.v > x }

  // ---------------------------------------------------------------------------
  // Decimal digits

  predicate IsDigit(c: char) { '0' <= c <= '9' }

  predicate AllDigits(s: string) { forall i :: 0 <= i < |s| ==> IsDigit(s[i]) }

  function DigitChar(d: nat): (c: char)
    requires d < 10
    ensures IsDigit(c)
  {
    ['0', '1', '2', '3', '4', '5', '6', '7', '8', '9'][d]
  }

  function DigitValue(c: char): (d: nat)
    requires IsDigit(c)
    ensures d < 10 && DigitChar(d) == c
  {
    (c as int) - ('0' as int)
  }

  /** The value of a string of decimal digits, read left to right. */
  function DigitsValue(s: string): nat
    requires AllDigits(s)
  {
    if s == [] then 0 else 10 * DigitsValue(s[..|s| - 1]) + DigitValue(s[|s| - 1])
  }

  /** How a non-negative integer is rendered by a template literal `${n}`. */
  function NatToString(n: nat): (s: string)
    ensures |s| > 0 && AllDigits(s)
    ensures s[0] == '0' ==> n == 0
  {
    if n < 10 then [DigitChar(n)] else NatToString(n / 10) + [DigitChar(n % 10)]
  }

  /** How an integer is rendered by a template literal `${i}`. */
  function IntToString(i: int): (s: string)
    ensures |s| > 0
    ensures s[0] == '-' <==> i < 0
  {
    if i < 0 then "-" + NatToString(-i) else NatToString(i)
  }

  /** Reading back the digits of a rendered number gives the number. */
  lemma {:induction false} NatToStringDigits(n: nat)
    ensures DigitsValue(NatToString(n)) == n
  {
    if n >= 10 {
      NatToStringDigits(n / 10);
      var s, p := NatToString(n), NatToString(n / 10);
      assert s == p + [DigitChar(n % 10)];
      assert s[..|s| - 1] == p;
      assert DigitValue(s[|s| - 1]) == n % 10;
    }
  }

  /** Distinct numbers are rendered as distinct strings. */
  lemma NatToStringInjective(m: nat, n: nat)
    requires NatToString(m) == NatToString(n)
    ensures m == n
  {
    NatToStringDigits(m);
    NatToStringDigits(n);
  }

  // ---------------------------------------------------------------------------
  // Whitespace and trim

  /** The characters `String.prototype.trim` removes: ECMAScript WhiteSpace
      (tab, vertical tab, form feed, the Zs category, U+FEFF) and LineTerminator. */
  predicate IsWhitespace(c: char)
  {
    c == '\t' || c == '\n' || c == '\U{000B}' || c == '\U{000C}' || c == '\r' || c == ' ' ||
    c == '\U{00A0}' || c == '\U{1680}' || ('\U{2000}' <= c <= '\U{200A}') ||
    c == '\U{2028}' || c == '\U{2029}' || c == '\U{202F}' || c == '\U{205F}' ||
    c == '\U{3000}' || c == '\U{FEFF}'
  }

  predicate IsBlank(s: string) { forall i :: 0 <= i < |s| ==> IsWhitespace(s[i]) }

  /** Whitespace followed by whitespace is whitespace. */
  lemma BlankAppend(a: string, b: string)
    requires IsBlank(a) && IsBlank(b)
    ensures IsBlank(a + b)
  {
    assert forall i :: |a| <= i < |a| + |b| ==> (a + b)[i] == b[i - |a|];
  }

  /** Drops leading whitespace. */
  function TrimStart(s: string): (r: string)
    ensures |r| <= |s| && r == s[|s| - |r|..]
    ensures IsBlank(s[..|s| - |r|])
    ensures r == [] || !IsWhitespace(r[0])
  {
    if s != [] && IsWhitespace(s[0]) then
      var p := s[1..];
      var r := TrimStart(p);
      assert p[|p| - |r|..] == s[|s| - |r|..];
      assert s[..|s| - |r|] == [s[0]] + p[..|p| - |r|];
      BlankAppend([s[0]], p[..|p| - |r|]);
      r
    else s
  }

  /** Drops trailing whitespace. */
  function TrimEnd(s: string): (r: string)
    ensures |r| <= |s| && r == s[..|r|]
    ensures IsBlank(s[|r|..])
    ensures r == [] || !IsWhitespace(r[|r| - 1])
  {
    if s != [] && IsWhitespace(s[|s| - 1]) then
      var p := s[..|s| - 1];
      var r := TrimEnd(p);
      assert p[..|r|] == s[..|r|];
      assert s[|r|..] == p[|r|..] + [s[|s| - 1]];
      BlankAppend(p[|r|..], [s[|s| - 1]]);
      r
    else s
  }

  /** `String.prototype.trim`. */
  function Trim(s: string): string { TrimEnd(TrimStart(s)) }

  /** `s.trim()` is empty exactly when `s` consists of whitespace only. */
  lemma TrimEmptyIffBlank(s: string)
    ensures Trim(s) == "" <==> IsBlank(s)
  {
    var t := TrimStart(s);
    assert s == s[..|s| - |t|] + t;
    if t != [] {
      assert s[|s| - |t|] == t[0];
      assert TrimEnd(t) != [];
    } else {
      assert IsBlank(s);
    }
  }

  /** Trimming twice is trimming once. */
  lemma TrimIdempotent(s: string)
    ensures Trim(Trim(s)) == Trim(s)
  {
    var t := TrimStart(s);
    var r := TrimEnd(t);
    if r != [] {
      assert r[0] == t[0];
      assert TrimStart(r) == r;
    }
  }

  // ---------------------------------------------------------------------------
  // Number(string)

  /** The length of the longest prefix of decimal digits. */
  function DigitPrefixLength(s: string): (k: nat)
    ensures k <= |s| && AllDigits(s[..k])
    ensures k < |s| ==> !IsDigit(s[k])
  {
    if s != [] && IsDigit(s[0]) then
      var k := 1 + DigitPrefixLength(s[1..]);
      assert s[..k] == [s[0]] + s[1..][..k - 1];
      k
    else 0
  }

  /** The value of the digits after a decimal point: "25" is 0.25. */
  function FractionValue(s: string): (v: real)
    requires AllDigits(s)
    ensures 0.0 <= v <= 1.0
  {
    if s == [] then 0.0 else (DigitValue(s[0]) as real + FractionValue(s[1..])) / 10.0
  }

  /** An unsigned decimal literal: digits, optionally a point and more digits, at least one digit. */
  function ParseUnsigned(t: string): Num
  {
    var k := DigitPrefixLength(t);
    var whole := DigitsValue(t[..k]) as real;
    if k == |t| then
      (if k == 0 then NaN else Num(whole))
    else if t[k] == '.' && AllDigits(t[k + 1..]) && (k > 0 || k + 1 < |t|) then
      Num(whole + FractionValue(t[k + 1..]))
    else NaN
  }

  function Negate(n: Num): Num
  {
    match n
    case Num(v) => Num(-v)
    case NaN => NaN
  }

  /** `Number(s)` for decimal notation: surrounding whitespace is ignored, the empty
      string is 0, a sign is allowed, anything else is NaN. */
  function ParseNumber(s: string): Num
  {
    var t := Trim(s);
    if t == "" then Num(0.0)
    else if t[0] == '-' then Negate(ParseUnsigned(t[1..]))
    else if t[0] == '+' then ParseUnsigned(t[1..])
    else ParseUnsigned(t)
  }

  /** `Number(`${n}`) === n`: rendering a non-negative integer and converting it back gives it. */
  lemma NumberOfNatToString(n: nat)
    ensures ParseNumber(NatToString(n)) == Num(n as real)
  {
    NumberOfDigits(NatToString(n));
    NatToStringDigits(n);
  }

  /** A non-empty string of digits converts to its decimal value. */
  lemma NumberOfDigits(s: string)
    requires |s| > 0 && AllDigits(s)
    ensures ParseNumber(s) == Num(DigitsValue(s) as real)
  {
    DigitNotWhitespace(s[0]);
    DigitNotWhitespace(s[|s| - 1]);
    DigitNotSign(s[0]);
    NumberOfPlain(s);
    UnsignedOfDigits(s);
  }

  /** Without surrounding blanks or a sign, `Number` reads an unsigned literal. */
  lemma NumberOfPlain(s: string)
    requires s != "" && !IsWhitespace(s[0]) && !IsWhitespace(s[|s| - 1])
    requires s[0] != '-' && s[0] != '+'
    ensures ParseNumber(s) == ParseUnsigned(s)
  {
    assert TrimStart(s) == s;
    assert TrimEnd(s) == s;
  }

  /** An unsigned literal without a point is its digits' value. */
  lemma UnsignedOfDigits(s: string)
    requires |s| > 0 && AllDigits(s)
    ensures ParseUnsigned(s) == Num(DigitsValue(s) as real)
  {
    DigitPrefixAll(s);
    assert s[..|s|] == s;
  }

  lemma DigitNotSign(c: char)
    requires IsDigit(c)
    ensures c != '-' && c != '+'
  {
  }

  lemma DigitNotWhitespace(c: char)
    requires IsDigit(c)
    ensures !IsWhitespace(c)
  {
  }

  lemma {:induction false} DigitPrefixAll(s: string)
    requires AllDigits(s)
    ensures DigitPrefixLength(s) == |s|
  {
    if s != [] {
      DigitPrefixAll(s[1..]);
    }
  }

  /** `String.prototype.replace(pat, rep)` with a string pattern: only the first occurrence is replaced. */
  function ReplaceFirst(s: string, pat: string, rep: string): string
    decreases |s|
  {
    if pat == [] then rep + s
    else if |s| < |pat| then s
    else if s[..|pat|] == pat then rep + s[|pat|..]
    else [s[0]] + ReplaceFirst(s[1..], pat, rep)
  }

  // ---------------------------------------------------------------------------
  // toUpperCase

  /** `toUpperCase` of one character, for Basic Latin and Latin-1: a-z, the Latin-1
      lower-case letters, 'ÿ' (to U+0178), 'µ' (to U+039C) and 'ß' (to "SS"). */
  function UpperChar(c: char): (r: string)
    ensures |r| >= 1
  {
    if 'a' <= c <= 'z' || ('\U{00E0}' <= c <= '\U{00FE}' && c != '\U{00F7}') then
      [((c as int) - 32) as char]
    else if c == '\U{00FF}' then ['\U{0178}']
    else if c == '\U{00B5}' then ['\U{039C}']
    else if c == '\U{00DF}' then "SS"
    else [c]
  }

  /** `String.prototype.toUpperCase`, character by character. */
  function ToUpper(s: string): string
  {
    if s == [] then [] else UpperChar(s[0]) + ToUpper(s[1..])
  }

  lemma {:induction false} ToUpperAppend(a: string, b: string)
    ensures ToUpper(a + b) == ToUpper(a) + ToUpper(b)
  {
    if a == [] {
      assert a + b == b;
    } else {
      assert (a + b)[0] == a[0];
      assert (a + b)[1..] == a[1..] + b;
      ToUpperAppend(a[1..], b);
      calc {
        ToUpper(a + b);
        UpperChar(a[0]) + ToUpper(a[1..] + b);
        UpperChar(a[0]) + (ToUpper(a[1..]) + ToUpper(b));
        (UpperChar(a[0]) + ToUpper(a[1..])) + ToUpper(b);
        ToUpper(a) + ToUpper(b);
      }
    }
  }

  lemma UpperCharFixed(c: char)
    ensures ToUpper(UpperChar(c)) == UpperChar(c)
  {
    var r := UpperChar(c);
    if |r| == 1 {
      assert ToUpper(r) == UpperChar(r[0]) + ToUpper([]);
    } else {
      assert r == "SS";
      assert ToUpper("SS") == UpperChar('S') + ToUpper("S");
    }
  }

  /** Upper-casing an upper-cased string changes nothing. */
  lemma {:induction false} ToUpperIdempotent(s: string)
    ensures ToUpper(ToUpper(s)) == ToUpper(s)
  {
    if s != [] {
      ToUpperAppend(UpperChar(s[0]), ToUpper(s[1..]));
      UpperCharFixed(s[0]);
      ToUpperIdempotent(s[1..]);
    }
  }
}
