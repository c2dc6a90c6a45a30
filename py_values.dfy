/**
 * The values that travel in the configuration dictionaries, and the Python
 * conversions (`int()`, `float()`, `str()`, `bool()`, `str.upper()`,
 * `str.lower()`, `in` on strings) the configuration code applies to them.
 * Python floats are modelled as exact reals: the code only compares and
 * assigns them.
 */
module PyValues {
  import opened Wrappers

  /** A dictionary value as the dashboard or the JSON store can supply it. */
  datatype Value =
    | VNone
    | VBool(b: bool)
    | VInt(i: int)
    | VReal(r: real)
    | VStr(s: string)
    | VList(items: seq<string>)

  /** A parameter dictionary: parameter name to value. */
  type Params = map<string, Value>

  // ---------------------------------------------------------------- digits

  predicate IsDigit(c: char) { '0' <= c <= '9' }

  predicate AllDigits(s: string) { forall i :: 0 <= i < |s| ==> IsDigit(s[i]) }

  function DigitValue(c: char): (d: nat)
    requires IsDigit(c)
    ensures d < 10
  {
    c as int - '0' as int
  }

  function DigitChar(d: nat): (c: char)
    requires d < 10
    ensures IsDigit(c) && DigitValue(c) == d
  {
    ('0' as int + d) as char
  }

  /** The number a string of decimal digits denotes. */
  function DigitsValue(s: string): nat
    requires AllDigits(s)
  {
    if s == [] then 0 else DigitsValue(s[..|s| - 1]) * 10 + DigitValue(s[|s| - 1])
  }

  /** Decimal rendering of a natural number, as Python's `str()` of an int. */
  function NatToString(n: nat): (s: string)
    ensures |s| > 0 && AllDigits(s)
  {
    if n < 10 then [DigitChar(n)] else NatToString(n / 10) + [DigitChar(n % 10)]
  }

  function IntToString(n: int): string
  {
    if n < 0 then "-" + NatToString(-n) else NatToString(n)
  }

  lemma {:induction false} NatToStringRoundTrip(n: nat)
    ensures DigitsValue(NatToString(n)) == n
  {
    if n >= 10 {
      var s := NatToString(n);
      NatToStringRoundTrip(n / 10);
      assert s[..|s| - 1] == NatToString(n / 10);
    }
  }

  function Pow10(k: nat): (p: nat)
    ensures p > 0
  {
    if k == 0 then 1 else 10 * Pow10(k - 1)
  }

  // ------------------------------------------------------------- parsing

  /** An unsigned decimal integer literal: one or more digits. */
  function ParseNat(s: string): Option<nat>
  {
    if |s| > 0 && AllDigits(s) then Some(DigitsValue(s)) else None
  }

  /** Python's `int()` on a string: an optional sign and decimal digits. */
  function ParseInt(s: string): Option<int>
  {
    if |s| > 0 && (s[0] == '-' || s[0] == '+') then
      match ParseNat(s[1..])
      case None => None
      case Some(m) => var n: int := if s[0] == '-' then -(m as int) else m; Some(n)
    else
      match ParseNat(s)
      case None => None
      case Some(m) => var n: int := m; Some(n)
  }

  lemma ParseIntRoundTrip(n: int)
    ensures ParseInt(IntToString(n)) == Some(n)
  {
    if n < 0 {
      var t := NatToString(-n);
      var s := "-" + t;
      assert IntToString(n) == s;
      assert s[0] == '-' && s[1..] == t;
      NatToStringRoundTrip(-n);
      assert ParseNat(t) == Some(-n);
    } else {
      var s := NatToString(n);
      assert IntToString(n) == s;
      assert IsDigit(s[0]);
      NatToStringRoundTrip(n);
      assert ParseNat(s) == Some(n);
    }
  }

  /** Index of the first occurrence of `c` in `s`. */
  function FirstIndex(s: string, c: char): (i: nat)
    requires c in s
    ensures i < |s| && s[i] == c && c !in s[..i]
  {
    if s[0] == c then 0 else 1 + FirstIndex(s[1..], c)
  }

  /** An unsigned decimal literal: digits, optionally a point and more digits, at least one digit in all. */
  function ParseUnsignedReal(s: string): Option<real>
  {
    if '.' !in s then
      match ParseNat(s)
      case None => None
      case Some(m) => Some(m as real)
    else
      var i := FirstIndex(s, '.');
      var whole, fraction := s[..i], s[i + 1..];
      if AllDigits(whole) && AllDigits(fraction) && |whole| + |fraction| > 0 then
        Some(DigitsValue(whole) as real + DigitsValue(fraction) as real / Pow10(|fraction|) as real)
      else
        None
  }

  /** Python's `float()` on a string, decimal notation only. */
  function ParseReal(s: string): Option<real>
  {
    if |s| > 0 && (s[0] == '-' || s[0] == '+') then
      match ParseUnsignedReal(s[1..])
      case None => None
      case Some(m) => Some(if s[0] == '-' then -m else m)
    else
      ParseUnsignedReal(s)
  }

  // --------------------------------------------------------- conversions

  /** Truncation toward zero, as Python's `int()` of a float. */
  function Trunc(r: real): (n: int)
    ensures r >= 0.0 ==> n as real <= r < n as real + 1.0
    ensures r < 0.0 ==> n as real - 1.0 < r <= n as real
  {
    if r >= 0.0 then r.Floor else -((-r).Floor)
  }

  /** Python's `int(v)`; `None` where Python raises ValueError or TypeError. */
  function PyInt(v: Value): Option<int>
  {
    match v
    case VNone => None
    case VBool(b) => Some(if b then 1 else 0)
    case VInt(i) => Some(i)
    case VReal(r) => Some(Trunc(r))
    case VStr(s) => ParseInt(s)
    case VList(_) => None
  }

  /**
   * Python's `float(v)`; `None` where Python raises ValueError or TypeError.
   * The result is the exact real: an int beyond the float range, where Python
   * raises OverflowError, and a digit string beyond it, which Python reads as
   * `inf`, are not modelled.
   */
  function PyFloat(v: Value): Option<real>
  {
    match v
    case VNone => None
    case VBool(b) => Some(if b then 1.0 else 0.0)
    case VInt(i) => Some(i as real)
    case VReal(r) => Some(r)
    case VStr(s) => ParseReal(s)
    case VList(_) => None
  }

  /** Python's `bool(v)`: truthiness. */
  predicate Truthy(v: Value)
  {
    match v
    case VNone => false
    case VBool(b) => b
    case VInt(i) => i != 0
    case VReal(r) => r != 0.0
    case VStr(s) => |s| > 0
    case VList(l) => |l| > 0
  }

  /** Python's `v == 0` (`False == 0` holds in Python, `"0" == 0` does not). */
  predicate PyEqualsZero(v: Value)
  {
    match v
    case VBool(b) => !b
    case VInt(i) => i == 0
    case VReal(r) => r == 0.0
    case _ => false
  }

  /** Up to `budget` decimal digits of a fraction in [0, 1), stopping early when it terminates. */
  function FractionDigits(f: real, budget: nat): string
    requires 0.0 <= f < 1.0
    decreases budget
  {
    if f == 0.0 || budget == 0 then ""
    else
      var d := (f * 10.0).Floor;
      [DigitChar(d)] + FractionDigits(f * 10.0 - d as real, budget - 1)
  }

  /** Python's `str()` of a float, in positional notation. */
  function RealToString(r: real): string
  {
    var m := if r < 0.0 then -r else r;
    var whole := m.Floor;
    var digits := NatToString(whole) + "." + (if m == whole as real then "0" else FractionDigits(m - whole as real, 17));
    if r < 0.0 then "-" + digits else digits
  }

  function QuoteJoin(items: seq<string>): string
  {
    if items == [] then ""
    else if |items| == 1 then "'" + items[0] + "'"
    else "'" + items[0] + "', " + QuoteJoin(items[1..])
  }

  /** Python's `str(v)`. */
  function PyStr(v: Value): (s: string)
    ensures v.VStr? ==> s == v.s
  {
    match v
    case VNone => "None"
    case VBool(b) => if b then "True" else "False"
    case VInt(i) => IntToString(i)
    case VReal(r) => RealToString(r)
    case VStr(s) => s
    case VList(l) => "[" + QuoteJoin(l) + "]"
  }

  // ------------------------------------------------------ letter case

  predicate IsLowerAscii(c: char) { 'a' <= c <= 'z' }

  predicate IsUpperAscii(c: char) { 'A' <= c <= 'Z' }

  /** `str.upper()` on ASCII letters. */
  function Upper(s: string): (r: string)
    ensures |r| == |s|
    ensures forall i :: 0 <= i < |s| ==> !IsLowerAscii(r[i])
    ensures forall i :: 0 <= i < |s| && !IsLowerAscii(s[i]) ==> r[i] == s[i]
    // a small letter becomes the capital at the same place in the alphabet
    ensures forall i :: 0 <= i < |s| && IsLowerAscii(s[i]) ==>
      IsUpperAscii(r[i]) && r[i] as int - 'A' as int == s[i] as int - 'a' as int
  {
    seq(|s|, i requires 0 <= i < |s| => if IsLowerAscii(s[i]) then (s[i] as int - 32) as char else s[i])
  }

  /** `str.lower()` on ASCII letters. */
  function Lower(s: string): (r: string)
    ensures |r| == |s|
    ensures forall i :: 0 <= i < |s| ==> !IsUpperAscii(r[i])
    ensures forall i :: 0 <= i < |s| && !IsUpperAscii(s[i]) ==> r[i] == s[i]
    // a capital becomes the small letter at the same place in the alphabet
    ensures forall i :: 0 <= i < |s| && IsUpperAscii(s[i]) ==>
      IsLowerAscii(r[i]) && r[i] as int - 'a' as int == s[i] as int - 'A' as int
  {
    seq(|s|, i requires 0 <= i < |s| => if IsUpperAscii(s[i]) then (s[i] as int + 32) as char else s[i])
  }

  lemma UpperIdempotent(s: string)
    ensures Upper(Upper(s)) == Upper(s)
  {
  }

  // ------------------------------------------------------ substrings

  predicate OccursAt(s: string, sub: string, i: nat)
  {
    i + |sub| <= |s| && s[i..i + |sub|] == sub
  }

  /** Python's `sub in s` for strings. */
  predicate Contains(s: string, sub: string)
  {
    exists i: nat | i <= |s| :: OccursAt(s, sub, i)
  }

  /** No occurrence of `sub` is possible when one of its characters never appears in `s`. */
  lemma AbsentChar(s: string, sub: string, c: char)
    requires c in sub && c !in s
    ensures !Contains(s, sub)
  {
  }

  // -------------------------------------------------- numeric view

  /** The number an int or float value denotes; other values are not numbers here. */
  function AsNumber(v: Value): Option<real>
  {
    match v
    case VInt(i) => Some(i as real)
    case VReal(r) => Some(r)
    case _ => None
  }

  /** Python equality between two values, where `50 == 50.0`. */
  predicate SameValue(a: Value, b: Value)
  {
    a == b || (AsNumber(a).Some? && AsNumber(a) == AsNumber(b))
  }
}
