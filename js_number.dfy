/**
 * The JavaScript numbers the application stores as text: integers and `NaN`,
 * `String(n)` in decimal and `parseInt(s, 10)`.
 */
module JsNumber {

  /** A JavaScript number as the hint counter uses it: an integer or `NaN`. */
  datatype Number = Finite(value: int) | NaN

  /** `x + k`; `NaN` absorbs the addition. */
  function Plus(x: Number, k: int): Number {
    match x
    case Finite(v) => Finite(v + k)
    case NaN => NaN
  }

  /** `x > 0`; every comparison with `NaN` is false. */
  predicate IsPositive(x: Number) {
    x.Finite? && x.value > 0
  }

  predicate IsDigit(c: char) {
    '0' <= c <= '9'
  }

  predicate AllDigits(s: string) {
    forall i :: 0 <= i < |s| ==> IsDigit(s[i])
  }

  function DigitChar(d: nat): (c: char)
    requires d < 10
    ensures IsDigit(c)
  {
    ('0' as int + d) as char
  }

  function DigitValue(c: char): nat
    requires IsDigit(c)
  {
    c as int - '0' as int
  }

  /** The decimal digits of `n`, most significant first, without leading zeros. */
  function NatToString(n: nat): (r: string)
    ensures r != [] && AllDigits(r)
    ensures r[0] == '0' ==> r == "0"
    decreases n
  {
    if n < 10 then [DigitChar(n)] else NatToString(n / 10) + [DigitChar(n % 10)]
  }

  /** `String(x)`. */
  function ToString(x: Number): (r: string)
    ensures x.NaN? ==> r == "NaN"
    ensures x.Finite? ==> r != [] && (r[0] == '-' <==> x.value < 0)
    ensures x.Finite? ==> Unsigned(r) != [] && AllDigits(Unsigned(r))
    ensures x.Finite? && Unsigned(r)[0] == '0' ==> Unsigned(r) == "0"
  {
    match x
    case NaN => "NaN"
    case Finite(v) => if v < 0 then "-" + NatToString(-v) else NatToString(v)
  }

  /** The value of a string of decimal digits, read left to right. */
  function DigitsValue(s: string): nat
    requires AllDigits(s)
    decreases |s|
  {
    if s == [] then 0 else DigitsValue(s[..|s| - 1]) * 10 + DigitValue(s[|s| - 1])
  }

  /** The longest prefix of `s` made only of decimal digits. */
  function LeadingDigits(s: string): (r: string)
    ensures r <= s && AllDigits(r)
    ensures |r| < |s| ==> !IsDigit(s[|r|])
    decreases |s|
  {
    if s != [] && IsDigit(s[0]) then [s[0]] + LeadingDigits(s[1..]) else []
  }

  predicate IsWhitespace(c: char) {
    c == ' ' || c == '\t' || c == '\n' || c == '\r'
  }

  /** `s` without its leading white space. */
  function TrimStart(s: string): (r: string)
    ensures |r| <= |s| && r == s[|s| - |r|..]
    ensures r != [] ==> !IsWhitespace(r[0])
    decreases |s|
  {
    if s != [] && IsWhitespace(s[0]) then TrimStart(s[1..]) else s
  }

  /**
   * `parseInt(s, 10)`: skip leading white space, read an optional sign, then
   * the longest run of decimal digits; `NaN` when there is no digit.
   */
  function ParseInt(s: string): (r: Number)
    ensures r.NaN? <==> LeadingDigits(Unsigned(TrimStart(s))) == []
  {
    var t := TrimStart(s);
    var digits := LeadingDigits(Unsigned(t));
    if digits == [] then NaN
    else if t[0] == '-' then Finite(-(DigitsValue(digits) as int))
    else Finite(DigitsValue(digits))
  }

  /** `t` without the sign it may start with. */
  function Unsigned(t: string): string {
    if t != [] && (t[0] == '-' || t[0] == '+') then t[1..] else t
  }

  lemma {:induction false} DigitsValueOfNatToString(n: nat)
    ensures DigitsValue(NatToString(n)) == n
    decreases n
  {
    if n >= 10 {
      var s := NatToString(n);
      assert s[..|s| - 1] == NatToString(n / 10);
      DigitsValueOfNatToString(n / 10);
    }
  }

  lemma {:induction false} LeadingDigitsOfDigits(s: string)
    requires AllDigits(s)
    ensures LeadingDigits(s) == s
    decreases |s|
  {
    if s != [] {
      LeadingDigitsOfDigits(s[1..]);
      assert s == [s[0]] + s[1..];
    }
  }

  /** Reading back what `String` wrote gives the same number, `NaN` included. */
  lemma ParseIntToString(x: Number)
    ensures ParseInt(ToString(x)) == x
  {
    if x.NaN? {
      ParseNaN();
    } else if x.value < 0 {
      ParseNegative(x.value);
    } else {
      ParseNonNegative(x.value);
    }
  }

  lemma ParseNaN()
    ensures ParseInt(ToString(NaN)) == NaN
  {
    var t := "NaN";
    assert t[0] == 'N';
    assert TrimStart(t) == t;
    assert Unsigned(t) == t;
    assert LeadingDigits(t) == [];
  }

  lemma ParseNonNegative(n: nat)
    ensures ParseInt(ToString(Finite(n))) == Finite(n)
  {
    var digits := NatToString(n);
    assert TrimStart(digits) == digits;
    assert Unsigned(digits) == digits;
    LeadingDigitsOfDigits(digits);
    DigitsValueOfNatToString(n);
  }

  lemma ParseNegative(v: int)
    requires v < 0
    ensures ParseInt(ToString(Finite(v))) == Finite(v)
  {
    var digits := NatToString(-v);
    var t := "-" + digits;
    assert TrimStart(t) == t;
    assert Unsigned(t) == digits;
    LeadingDigitsOfDigits(digits);
    DigitsValueOfNatToString(-v);
  }

  /** Distinct numbers have distinct decimal forms. */
  lemma NatToStringInjective(a: nat, b: nat)
    requires NatToString(a) == NatToString(b)
    ensures a == b
  {
    DigitsValueOfNatToString(a);
    DigitsValueOfNatToString(b);
  }
}
