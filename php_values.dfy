/**
 The PHP values a user model's attributes can hold, as far as the DTO mapping
 distinguishes them, and PHP's `(string)` conversion of the scalar ones.
 */
module PhpValues {

  /** A point in time; its representation is never inspected. */
  datatype Instant = Instant(micros: int)

  /** An attribute value read from a model. */
  datatype Value =
    | Str(s: string)
    | Int(i: int)
    | Bool(b: bool)
    | Time(t: Instant)   // a date object
    | Null
    | Composite          // an array or any other object

  /** PHP's `is_scalar`: strings, integers and booleans (floats are not modelled). */
  predicate IsScalar(v: Value): (b: bool)
    ensures b <==> !(v.Time? || v.Null? || v.Composite?)
  {
    v.Str? || v.Int? || v.Bool?
  }

  predicate IsDigit(c: char) {
    '0' <= c <= '9'
  }

  function DigitChar(d: nat): (c: char)
    requires d < 10
    ensures IsDigit(c) && c as int - '0' as int == d
  {
    "0123456789"[d]
  }

  function DigitValue(c: char): (d: nat)
    requires IsDigit(c)
    ensures d < 10
  {
    c as int - '0' as int
  }

  /** Decimal digits of `n`, most significant first, without leading zeros. */
  function NatToDecimal(n: nat): (s: string)
    ensures |s| > 0 && (|s| > 1 ==> s[0] != '0')
    ensures forall i :: 0 <= i < |s| ==> IsDigit(s[i])
    decreases n
  {
    if n < 10 then [DigitChar(n)] else NatToDecimal(n / 10) + [DigitChar(n % 10)]
  }

  /** The value a string of decimal digits denotes. */
  function ParseNat(s: string): nat
    requires forall i :: 0 <= i < |s| ==> IsDigit(s[i])
    decreases |s|
  {
    if s == [] then 0 else ParseNat(s[..|s| - 1]) * 10 + DigitValue(s[|s| - 1])
  }

  /** Reading back the decimal digits of a number gives the number. */
  lemma {:induction false} ParseNatToDecimal(n: nat)
    ensures ParseNat(NatToDecimal(n)) == n
    decreases n
  {
    var s := NatToDecimal(n);
    if n >= 10 {
      ParseNatToDecimal(n / 10);
      assert s[..|s| - 1] == NatToDecimal(n / 10);
    }
  }

  /** PHP's decimal rendering of an integer: a '-' before the digits of a negative one. */
  function IntToDecimal(i: int): (s: string)
    ensures |s| > 0 && (s[0] == '-' <==> i < 0)
    ensures forall k :: (if i < 0 then 1 else 0) <= k < |s| ==> IsDigit(s[k])
  {
    if i < 0 then "-" + NatToDecimal(-i) else NatToDecimal(i)
  }

  /** The integer a rendering produced by IntToDecimal denotes. */
  function ParseInt(s: string): int
    requires |s| > 0
    requires forall k :: (if s[0] == '-' then 1 else 0) <= k < |s| ==> IsDigit(s[k])
  {
    if s[0] == '-' then -(ParseNat(s[1..]) as int) else ParseNat(s)
  }

  /** Different integers render differently: the rendering can be read back. */
  lemma IntToDecimalRoundTrip(i: int)
    ensures ParseInt(IntToDecimal(i)) == i
  {
    if i < 0 {
      ParseNatToDecimal(-i);
      assert IntToDecimal(i)[1..] == NatToDecimal(-i);
    } else {
      ParseNatToDecimal(i);
    }
  }

  /** PHP's `(string)` conversion of a scalar. */
  function ToPhpString(v: Value): (s: string)
    requires IsScalar(v)
    ensures v.Str? ==> s == v.s
    ensures v.Int? ==> s == IntToDecimal(v.i) && ParseInt(IntToDecimal(v.i)) == v.i
    ensures v.Bool? ==> s == (if v.b then "1" else "")
  {
    match v
    case Str(s) => s
    case Int(i) => IntToDecimalRoundTrip(i); IntToDecimal(i)
    case Bool(b) => if b then "1" else ""
  }
}
