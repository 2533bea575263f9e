/**
 * Stand-ins for the ECMAScript built-ins the client relies on: ASCII case
 * mapping, `String(n)` for integers, `Number(s)` on strings, the `| 0`
 * conversion (ToInt32) and `String.prototype.replace` with a string pattern.
 */
module Js {

  datatype Option<+T> = None | Some(value: T) {
    /** `o ?? fallback` for an optional property. */
    function GetOr(fallback: T): T
    {
      match this
      case Some(v) => v
      case None => fallback
    }
  }

  datatype Result<+T, +E> = Ok(value: T) | Err(error: E)

  // ---------------------------------------------------------------------------
  // Characters (ASCII only)
  // ---------------------------------------------------------------------------

  predicate IsDigit(c: char) { '0' <= c <= '9' }
  predicate IsLower(c: char) { 'a' <= c <= 'z' }
  predicate IsUpper(c: char) { 'A' <= c <= 'Z' }
  predicate IsLetter(c: char) { IsLower(c) || IsUpper(c) }

  function LowerChar(c: char): (r: char)
    ensures IsLetter(c) <==> IsLetter(r)
    ensures IsLetter(c) ==> IsLower(r)
  {
    if IsUpper(c) then (c as int + 32) as char else c
  }

  function UpperChar(c: char): (r: char)
    ensures IsLetter(c) <==> IsLetter(r)
    ensures IsLetter(c) ==> IsUpper(r)
  {
    if IsLower(c) then (c as int - 32) as char else c
  }

  /** `s.toLowerCase()` restricted to ASCII letters. */
  function ToLower(s: string): (r: string)
    ensures |r| == |s|
  {
    seq(|s|, i requires 0 <= i < |s| => LowerChar(s[i]))
  }

  /** `s.toUpperCase()` restricted to ASCII letters. */
  function ToUpper(s: string): (r: string)
    ensures |r| == |s|
  {
    seq(|s|, i requires 0 <= i < |s| => UpperChar(s[i]))
  }

  predicate AllDigits(s: string) { forall i :: 0 <= i < |s| ==> IsDigit(s[i]) }

  function Count(s: string, c: char): nat
  {
    if s == [] then 0 else (if s[0] == c then 1 else 0) + Count(s[1..], c)
  }

  lemma {:induction false} CountAppend(a: string, b: string, c: char)
    ensures Count(a + b, c) == Count(a, c) + Count(b, c)
  {
    if a == [] {
      assert a + b == b;
    } else {
      assert (a + b)[1..] == a[1..] + b;
      CountAppend(a[1..], b, c);
    }
  }

  lemma {:induction false} CountZero(s: string, c: char)
    ensures c !in s <==> Count(s, c) == 0
  {
    if s != [] {
      CountZero(s[1..], c);
      assert s == [s[0]] + s[1..];
    }
  }

  // ---------------------------------------------------------------------------
  // String(n) for integers
  // ---------------------------------------------------------------------------

  function DigitChar(d: nat): (c: char)
    requires d < 10
    ensures IsDigit(c)
  {
    ('0' as int + d) as char
  }

  function DigitValue(c: char): nat
    requires IsDigit(c)
  {
    c as int - '0' as int
  }

  /** The decimal rendering `String(n)` of a non-negative integer. */
  function NatToString(n: nat): (s: string)
    ensures |s| >= 1 && AllDigits(s)
  {
    if n < 10 then [DigitChar(n)] else NatToString(n / 10) + [DigitChar(n % 10)]
  }

  /** The decimal rendering `String(n)` of an integer. */
  function IntToString(n: int): (s: string)
    ensures |s| >= 1
  {
    if n < 0 then "-" + NatToString(-n) else NatToString(n)
  }

  /** The value of a string of decimal digits, most significant first. */
  function DigitsValue(s: string): nat
    requires AllDigits(s)
  {
    if s == [] then 0 else DigitsValue(s[..|s| - 1]) * 10 + DigitValue(s[|s| - 1])
  }

  lemma {:induction false} NatToStringValue(n: nat)
    ensures DigitsValue(NatToString(n)) == n
  {
    if n >= 10 {
      var s := NatToString(n);
      assert s[..|s| - 1] == NatToString(n / 10);
      NatToStringValue(n / 10);
    }
  }

  lemma SignOfRendering(n: int)
    ensures (IntToString(n)[0] == '-') <==> n < 0
  {
    if n >= 0 {
      assert IsDigit(NatToString(n)[0]);
    }
  }

  /** Distinct integers have distinct renderings, so they are distinct object keys. */
  lemma IntToStringInjective(a: int, b: int)
    ensures IntToString(a) == IntToString(b) ==> a == b
  {
    if (a < 0) != (b < 0) {
      SignOfRendering(a);
      SignOfRendering(b);
    } else if IntToString(a) == IntToString(b) {
      if a < 0 {
        assert NatToString(-a) == IntToString(a)[1..] == IntToString(b)[1..] == NatToString(-b);
        NatToStringValue(-a);
        NatToStringValue(-b);
      } else {
        NatToStringValue(a);
        NatToStringValue(b);
      }
    }
  }

  // ---------------------------------------------------------------------------
  // Number(s) on strings
  // ---------------------------------------------------------------------------

  /** The white space and line terminators `Number` trims: WhiteSpace and LineTerminator of ECMAScript. */
  predicate IsSpace(c: char)
  {
    c == ' ' || c == '\t' || c == '\n' || c == '\r' || c == '\U{000B}' || c == '\U{000C}'
    || c == '\U{00A0}' || c == '\U{FEFF}' || c == '\U{1680}' || '\U{2000}' <= c <= '\U{200A}'
    || c == '\U{2028}' || c == '\U{2029}' || c == '\U{202F}' || c == '\U{205F}' || c == '\U{3000}'
  }

  function TrimStart(s: string): (r: string)
    ensures |r| <= |s|
  {
    if s != [] && IsSpace(s[0]) then TrimStart(s[1..]) else s
  }

  function TrimEnd(s: string): (r: string)
    ensures |r| <= |s|
  {
    if s != [] && IsSpace(s[|s| - 1]) then TrimEnd(s[..|s| - 1]) else s
  }

  /** The longest prefix of `s` made of decimal digits. */
  function DigitPrefix(s: string): (r: string)
    ensures |r| <= |s| && r == s[..|r|] && AllDigits(r)
    ensures |r| < |s| ==> !IsDigit(s[|r|])
  {
    if s != [] && IsDigit(s[0]) then [s[0]] + DigitPrefix(s[1..]) else []
  }

  function Pow10(n: nat): (r: nat)
    ensures r >= 1
  {
    if n == 0 then 1 else 10 * Pow10(n - 1)
  }

  /** An unsigned decimal literal: `digits`, `digits.`, `digits.digits` or `.digits`. */
  function UnsignedDecimal(t: string): Option<real>
  {
    var whole := DigitPrefix(t);
    var rest := t[|whole|..];
    if rest == [] then
      if whole == [] then None else Some(DigitsValue(whole) as real)
    else if rest[0] == '.' then
      var frac := DigitPrefix(rest[1..]);
      if |frac| == |rest| - 1 && (whole != [] || frac != []) then
        Some(DigitsValue(whole) as real + DigitsValue(frac) as real / Pow10(|frac|) as real)
      else
        None
    else
      None
  }

  /**
   * `Number(s)` for a string: `None` stands for NaN. Surrounding white space is
   * ignored, an empty or blank string is 0, and a sign may precede an unsigned
   * decimal literal.
   */
  function StringToNumber(s: string): Option<real>
  {
    var t := TrimEnd(TrimStart(s));
    if t == [] then Some(0.0)
    else if t[0] == '-' then
      match UnsignedDecimal(t[1..])
      case Some(v) => Some(-v)
      case None => None
    else if t[0] == '+' then UnsignedDecimal(t[1..])
    else UnsignedDecimal(t)
  }

  lemma {:induction false} DigitPrefixOfDigits(s: string)
    requires AllDigits(s)
    ensures DigitPrefix(s) == s
  {
    if s != [] {
      DigitPrefixOfDigits(s[1..]);
    }
  }

  lemma {:induction false} TrimOfDigits(s: string)
    requires s != [] && AllDigits(s)
    ensures TrimEnd(TrimStart(s)) == s
  {
    assert TrimStart(s) == s;
  }

  /** `Number(String(n)) === n` for every non-negative integer. */
  lemma NumberOfNatToString(n: nat)
    ensures StringToNumber(NatToString(n)) == Some(n as real)
  {
    var s := NatToString(n);
    TrimOfDigits(s);
    DigitPrefixOfDigits(s);
    NatToStringValue(n);
    assert s[|s|..] == [];
  }

  // ---------------------------------------------------------------------------
  // x | 0
  // ---------------------------------------------------------------------------

  const TWO_32: int := 0x1_0000_0000
  const TWO_31: int := 0x8000_0000

  /** Truncation toward zero, as JavaScript's ToIntegerOrInfinity does for finite numbers. */
  function Truncate(x: real): int
  {
    if x >= 0.0 then x.Floor else -((-x).Floor)
  }

  /** ECMAScript ToInt32 of a finite number, the value of `x | 0`. */
  function ToInt32(x: real): (r: int)
    ensures -TWO_31 <= r < TWO_31
    ensures r % TWO_32 == Truncate(x) % TWO_32
  {
    var m := Truncate(x) % TWO_32;
    if m >= TWO_31 then m - TWO_32 else m
  }

  // ---------------------------------------------------------------------------
  // s.replace(pattern, replacement) with a string pattern
  // ---------------------------------------------------------------------------

  predicate OccursAt(s: string, pat: string, i: int)
  {
    0 <= i && i + |pat| <= |s| && s[i..i + |pat|] == pat
  }

  /** The first index at or after `from` where `pat` occurs in `s`. */
  function IndexOfFrom(s: string, pat: string, from: nat): (r: Option<nat>)
    requires from <= |s|
    ensures r.Some? ==> from <= r.value && OccursAt(s, pat, r.value)
    ensures r.Some? ==> forall j :: from <= j < r.value ==> !OccursAt(s, pat, j)
    ensures r.None? ==> forall j :: from <= j <= |s| ==> !OccursAt(s, pat, j)
    decreases |s| - from
  {
    if OccursAt(s, pat, from) then Some(from)
    else if from == |s| then None
    else IndexOfFrom(s, pat, from + 1)
  }

  /**
   * `s.replace(pat, rep)`: the first occurrence of `pat`, if any, is replaced by
   * `rep` taken literally (the `$` patterns of a replacement string are not
   * modelled; the callers never pass a replacement containing `$`).
   */
  function ReplaceFirst(s: string, pat: string, rep: string): (r: string)
  {
    match IndexOfFrom(s, pat, 0)
    case None => s
    case Some(i) => s[..i] + rep + s[i + |pat|..]
  }

  /** `replace` rewrites exactly the leftmost occurrence and leaves a string without one unchanged. */
  lemma ReplaceFirstSpec(s: string, pat: string, rep: string, i: nat)
    requires OccursAt(s, pat, i)
    requires forall j :: 0 <= j < i ==> !OccursAt(s, pat, j)
    ensures ReplaceFirst(s, pat, rep) == s[..i] + rep + s[i + |pat|..]
  {
    var k := IndexOfFrom(s, pat, 0);
    assert k.Some?;
    assert k.value == i;
  }
}
