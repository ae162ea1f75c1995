/**
 * The JavaScript values and built-ins the TypeScript front end relies on:
 * strings that may be `undefined`, numbers that may be `NaN`, truthiness,
 * template-literal rendering, `String.prototype.trim` and `parseInt`.
 */
module Js {
  import opened Wrappers
  import opened Text

  /** A property that holds a string or is `undefined`. */
  datatype JsString = Str(s: string) | Undefined

  /** `!!v` for a string-or-undefined: only a non-empty string is truthy. */
  predicate Truthy(v: JsString) {
    v.Str? && v.s != ""
  }

  /** `${v}` in a template literal. */
  function Render(v: JsString): string {
    match v
    case Str(s) => s
    case Undefined => "undefined"
  }

  /** `a ?? b` for strings that may be `undefined`. */
  function Coalesce(a: JsString, b: JsString): JsString {
    if a.Str? then a else b
  }

  /** A number the model needs: an integer or `NaN`. */
  datatype JsNumber = Int(n: int) | NaN

  /** `!!x` for a number: zero and `NaN` are falsy. */
  predicate NumberTruthy(x: JsNumber) {
    x.Int? && x.n != 0
  }

  /** `s.trim()`. */
  function JsTrim(s: string): string {
    Trim(s, IsJsSpace)
  }

  /**
   * `s.length`: JavaScript counts UTF-16 code units, so a character outside
   * the Basic Multilingual Plane counts twice.
   */
  function Utf16Length(s: string): (n: nat)
    ensures |s| <= n <= 2 * |s|
  {
    Utf16From(s, 0)
  }

  /** The UTF-16 length of `s[i..]`. */
  function Utf16From(s: string, i: nat): (n: nat)
    requires i <= |s|
    ensures |s| - i <= n <= 2 * (|s| - i)
    decreases |s| - i
  {
    if i == |s| then 0 else (if s[i] as int > 0xFFFF then 2 else 1) + Utf16From(s, i + 1)
  }

  /** On text inside the Basic Multilingual Plane, `length` is the number of characters. */
  lemma Utf16LengthBmp(s: string)
    requires forall i :: 0 <= i < |s| ==> s[i] as int <= 0xFFFF
    ensures Utf16Length(s) == |s|
  {
    Utf16FromBmp(s, 0);
  }

  lemma {:induction false} Utf16FromBmp(s: string, i: nat)
    requires i <= |s| && forall k :: i <= k < |s| ==> s[k] as int <= 0xFFFF
    ensures Utf16From(s, i) == |s| - i
    decreases |s| - i
  {
    if i < |s| {
      Utf16FromBmp(s, i + 1);
    }
  }

  /** `xs.map((x) => x.trim())`. */
  function TrimAll(xs: seq<string>): (r: seq<string>)
    ensures |r| == |xs| && forall i :: 0 <= i < |xs| ==> r[i] == JsTrim(xs[i])
  {
    seq(|xs|, i requires 0 <= i < |xs| => JsTrim(xs[i]))
  }

  lemma TrimAllAppend(a: seq<string>, b: seq<string>)
    ensures TrimAll(a + b) == TrimAll(a) + TrimAll(b)
  {
  }

  /** The value of `c` as a digit in base `radix` (2 to 36), if it is one. */
  function DigitValue(c: char, radix: nat): (r: Option<nat>)
    ensures r.Some? ==> r.value < radix
    ensures '0' <= c <= '9' && radix == 10 ==> r == Some(c as nat - '0' as nat)
  {
    var d :=
      if '0' <= c <= '9' then Some(c as nat - '0' as nat)
      else if 'a' <= c <= 'z' then Some(c as nat - 'a' as nat + 10)
      else if 'A' <= c <= 'Z' then Some(c as nat - 'A' as nat + 10)
      else None;
    if d.Some? && d.value < radix then d else None
  }

  /** Length of the longest prefix of `s` made of base-`radix` digits. */
  function DigitRun(s: string, radix: nat): (n: nat)
    ensures n <= |s|
    ensures forall i :: 0 <= i < n ==> DigitValue(s[i], radix).Some?
    ensures n < |s| ==> DigitValue(s[n], radix).None?
  {
    if |s| > 0 && DigitValue(s[0], radix).Some? then 1 + DigitRun(s[1..], radix) else 0
  }

  /** The number a run of base-`radix` digits denotes. */
  function DigitsValue(s: string, radix: nat): nat {
    if s == [] then 0
    else DigitsValue(s[..|s| - 1], radix) * radix + DigitValue(s[|s| - 1], radix).GetOr(0)
  }

  /**
   * `parseInt(s)` with no radix: skip leading whitespace, take one sign,
   * then read the digits as `ParseUnsigned` does. Negative zero is
   * reported as `Int(0)`.
   */
  function ParseInt(s: string): JsNumber {
    var t := TrimStart(s, IsJsSpace);
    if |t| > 0 && t[0] == '-' then
      match ParseUnsigned(t[1..])
      case Int(v) => Int(-v)
      case NaN => NaN
    else if |t| > 0 && t[0] == '+' then ParseUnsigned(t[1..])
    else ParseUnsigned(t)
  }

  /**
   * The digits part of `parseInt`: a `0x`/`0X` prefix selects base 16,
   * otherwise base 10; the longest run of digits is read and no digit at
   * all gives `NaN`.
   */
  function ParseUnsigned(u: string): JsNumber {
    var hex := |u| >= 2 && u[0] == '0' && (u[1] == 'x' || u[1] == 'X');
    var radix := if hex then 16 else 10;
    var digits := if hex then u[2..] else u;
    var n := DigitRun(digits, radix);
    if n == 0 then NaN else Int(DigitsValue(digits[..n], radix))
  }

  /** The decimal numeral of `n`, as `String(n)` writes it. */
  function Decimal(n: nat): (r: string)
    ensures |r| > 0 && forall i :: 0 <= i < |r| ==> '0' <= r[i] <= '9'
  {
    if n < 10 then [('0' as nat + n) as char]
    else Decimal(n / 10) + [('0' as nat + n % 10) as char]
  }

  lemma {:induction false} DecimalValue(n: nat)
    ensures DigitsValue(Decimal(n), 10) == n
  {
    var r := Decimal(n);
    if n >= 10 {
      DecimalValue(n / 10);
      assert r[..|r| - 1] == Decimal(n / 10);
    } else {
      assert r[..0] == [];
    }
  }

  lemma {:induction false} DigitRunOfDigits(s: string)
    requires forall i :: 0 <= i < |s| ==> '0' <= s[i] <= '9'
    ensures DigitRun(s, 10) == |s|
  {
    if |s| > 0 {
      DigitRunOfDigits(s[1..]);
    }
  }

  /** `parseInt` reads back every decimal numeral. */
  lemma ParseIntDecimal(n: nat)
    ensures ParseInt(Decimal(n)) == Int(n)
  {
    var d := Decimal(n);
    assert !IsJsSpace(d[0]);
    assert TrimStart(d, IsJsSpace) == d;
    UnsignedDigits(d);
    DecimalValue(n);
  }

  lemma UnsignedDigits(d: string)
    requires |d| > 0 && forall i :: 0 <= i < |d| ==> '0' <= d[i] <= '9'
    ensures ParseUnsigned(d) == Int(DigitsValue(d, 10))
  {
    assert |d| >= 2 ==> d[1] != 'x' && d[1] != 'X';
    DigitRunOfDigits(d);
    assert d[..|d|] == d;
  }

  /** Input with no digit after optional whitespace is `NaN`, the empty text included. */
  lemma ParseIntBlank(s: string)
    requires forall i :: 0 <= i < |s| ==> IsJsSpace(s[i])
    ensures ParseInt(s) == NaN
  {
    TrimStartShape(s, IsJsSpace);
  }
}
