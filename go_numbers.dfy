/** Go's `strconv.Atoi`, `strconv.ParseUint(s, 10, 64)`, the decimal forms
    accepted by `strconv.ParseFloat`, `fmt.Sprintf("%d", n)` and 64-bit
    two's-complement wrap-around. Go's `int` is taken to be 64 bits wide. */
module GoNumbers {

  datatype Option<T> = None | Some(value: T)

  const MinInt64: int := -0x8000_0000_0000_0000
  const MaxInt64: int := 0x7FFF_FFFF_FFFF_FFFF
  const TwoTo64: int := 0x1_0000_0000_0000_0000

  predicate IsDigit(c: char) {
    '0' <= c <= '9'
  }

  predicate AllDigits(s: string) {
    forall k :: 0 <= k < |s| ==> IsDigit(s[k])
  }

  /** A string of one or more decimal digits. */
  predicate IsDigitString(s: string) {
    |s| > 0 && AllDigits(s)
  }

  function DigitValue(c: char): (d: nat)
    requires IsDigit(c)
    ensures d < 10
  {
    c as int - '0' as int
  }

  /** The number a digit string denotes, most significant digit first. */
  function DigitsValue(s: string): (v: nat)
    requires AllDigits(s)
    decreases |s|
  {
    if |s| == 0 then 0 else 10 * DigitsValue(s[..|s| - 1]) + DigitValue(s[|s| - 1])
  }

  /** A leading '+' or '-' and the text after it. */
  function SplitSign(s: string): (bool, string) {
    if |s| > 0 && (s[0] == '+' || s[0] == '-') then (s[0] == '-', s[1..]) else (false, s)
  }

  /** `strconv.Atoi`: an optional sign, then one or more decimal digits, whose
      value must fit in 64 bits; anything else is an error (`None`). */
  function Atoi(s: string): (r: Option<int>)
    ensures r.Some? ==> MinInt64 <= r.value <= MaxInt64
  {
    var (negative, body) := SplitSign(s);
    if !IsDigitString(body) then None
    else
      var v: int := if negative then 0 - DigitsValue(body) else DigitsValue(body);
      if MinInt64 <= v <= MaxInt64 then Some(v) else None
  }

  /** `strconv.ParseUint(s, 10, 64)`: one or more decimal digits, no sign,
      value below 2^64. */
  function ParseUint(s: string): (r: Option<nat>)
    ensures r.Some? ==> r.value < TwoTo64
    ensures r.Some? <==> IsDigitString(s) && DigitsValue(s) < TwoTo64
  {
    if IsDigitString(s) && DigitsValue(s) < TwoTo64 then Some(DigitsValue(s)) else None
  }

  /** Number of leading decimal digits of `s`. */
  function LeadingDigits(s: string): (n: nat)
    ensures n <= |s| && AllDigits(s[..n])
    ensures n < |s| ==> !IsDigit(s[n])
    decreases |s|
  {
    if |s| > 0 && IsDigit(s[0]) then
      var n := 1 + LeadingDigits(s[1..]);
      assert s[..n] == [s[0]] + s[1..][..n - 1];
      n
    else 0
  }

  /** `m` times ten to the power `e`, one factor of ten at a time. */
  function Scaled(m: nat, e: int): (r: real)
    ensures r >= 0.0
    ensures m > 0 ==> r > 0.0
    decreases if e < 0 then -e else e
  {
    if e == 0 then m as real
    else if e > 0 then 10.0 * Scaled(m, e - 1)
    else Scaled(m, e + 1) / 10.0
  }

  /** The optional exponent part `e`/`E`, sign, digits. `None` when the text
      is not empty and not a well-formed exponent. */
  function ParseExponent(s: string): Option<int> {
    if |s| == 0 then Some(0)
    else if s[0] != 'e' && s[0] != 'E' then None
    else
      var (negative, digits) := SplitSign(s[1..]);
      if !IsDigitString(digits) then None
      else Some(if negative then 0 - DigitsValue(digits) else DigitsValue(digits))
  }

  /** The decimal forms of `strconv.ParseFloat(s, 64)`: optional sign, digits
      with at most one '.', at least one digit, optional exponent. The value
      is the exact real number (float64 rounding is not modelled). */
  function ParseFloat(s: string): Option<real> {
    var (negative, body) := SplitSign(s);
    match ParseUnsignedDecimal(body)
    case None => None
    case Some(m) => Some(if negative then -m else m)
  }

  /** Digits, an optional '.' with more digits, an optional exponent. */
  function ParseUnsignedDecimal(body: string): Option<real> {
    var n := LeadingDigits(body);
    var afterInt := body[n..];
    if |afterInt| > 0 && afterInt[0] == '.' then
      var afterDot := afterInt[1..];
      var f := LeadingDigits(afterDot);
      DecimalValue(body[..n], afterDot[..f], afterDot[f..])
    else DecimalValue(body[..n], "", afterInt)
  }

  /** The value of integer digits, fraction digits and an exponent text. */
  function DecimalValue(intPart: string, frac: string, expText: string): Option<real>
    requires AllDigits(intPart) && AllDigits(frac)
  {
    if |intPart| + |frac| == 0 then None
    else match ParseExponent(expText)
      case None => None
      case Some(e) =>
        assert AllDigits(intPart + frac);
        Some(Scaled(DigitsValue(intPart + frac), e - |frac|))
  }

  /** On a plain digit string `ParseFloat` is exact. */
  lemma ParseFloatDigits(s: string)
    requires IsDigitString(s)
    ensures ParseFloat(s) == Some(DigitsValue(s) as real)
  {
    assert SplitSign(s) == (false, s);
    assert LeadingDigits(s) == |s|;
    assert s[..|s|] == s;
    assert s + "" == s;
  }

  /** On a plain digit string `Atoi` gives the digits' value when it fits. */
  lemma AtoiDigits(s: string)
    requires IsDigitString(s) && DigitsValue(s) <= MaxInt64
    ensures Atoi(s) == Some(DigitsValue(s))
  {
    assert SplitSign(s) == (false, s);
  }

  function DigitChar(d: nat): (c: char)
    requires d < 10
    ensures IsDigit(c) && DigitValue(c) == d
  {
    ('0' as int + d) as char
  }

  /** Decimal digits of a natural number, without leading zeros. */
  function NatToDecimal(n: nat): (s: string)
    ensures IsDigitString(s)
    decreases n
  {
    if n < 10 then [DigitChar(n)] else NatToDecimal(n / 10) + [DigitChar(n % 10)]
  }

  /** `fmt.Sprintf("%d", n)`. */
  function IntToDecimal(n: int): (s: string)
    ensures |s| > 0
  {
    if n < 0 then "-" + NatToDecimal(-n) else NatToDecimal(n)
  }

  lemma {:induction false} NatToDecimalValue(n: nat)
    ensures DigitsValue(NatToDecimal(n)) == n
    decreases n
  {
    if n >= 10 {
      NatToDecimalValue(n / 10);
      var s := NatToDecimal(n);
      assert s[..|s| - 1] == NatToDecimal(n / 10);
    }
  }

  /** Printing an integer with `%d` and reading it back with `Atoi` is the
      identity on 64-bit integers. */
  lemma AtoiIntToDecimal(n: int)
    requires MinInt64 <= n <= MaxInt64
    ensures Atoi(IntToDecimal(n)) == Some(n)
  {
    if n < 0 {
      NatToDecimalValue(-n);
      var s := IntToDecimal(n);
      assert s[0] == '-';
      assert s[1..] == NatToDecimal(-n);
      assert SplitSign(s) == (true, NatToDecimal(-n));
    } else {
      NatToDecimalValue(n);
      var s := NatToDecimal(n);
      assert IsDigit(s[0]);
      assert SplitSign(s) == (false, s);
    }
  }

  /** Go's 64-bit signed wrap-around of an exact integer result. */
  function Wrap64(x: int): (r: int)
    ensures MinInt64 <= r <= MaxInt64
    ensures MinInt64 <= x <= MaxInt64 ==> r == x
  {
    (x - MinInt64) % TwoTo64 + MinInt64
  }

  /** Go's unsigned 64-bit wrap-around of an exact natural result. */
  function WrapU64(x: nat): (r: nat)
    ensures r < TwoTo64
    ensures x < TwoTo64 ==> r == x
  {
    x % TwoTo64
  }
}
