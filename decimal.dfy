/** The decimal conversions the domain layer takes from Go's `strconv`:
    `Itoa`, used to format clock components, and `Atoi`, used to read the
    reaching-time threshold from the environment. */
module Decimal {
  import opened Common

  predicate IsDigit(c: char) {
    '0' <= c <= '9'
  }

  predicate AllDigits(s: string) {
    forall i :: 0 <= i < |s| ==> IsDigit(s[i])
  }

  function DigitChar(d: nat): (c: char)
    requires d < 10
    ensures IsDigit(c)
  {
    ('0' as int + d) as char
  }

  function DigitValue(c: char): (d: nat)
    requires IsDigit(c)
    ensures d < 10 && DigitChar(d) == c
  {
    c as int - '0' as int
  }

  /** The value of a string of decimal digits, most significant first. */
  function DigitsValue(s: string): nat
    requires AllDigits(s)
  {
    if s == [] then 0 else DigitsValue(s[..|s| - 1]) * 10 + DigitValue(s[|s| - 1])
  }

  /** Decimal text of a non-negative integer, without leading zeros. */
  function NatToString(n: nat): (s: string)
    ensures |s| > 0 && AllDigits(s)
    ensures s[0] == '0' ==> n == 0
  {
    if n < 10 then [DigitChar(n)] else NatToString(n / 10) + [DigitChar(n % 10)]
  }

  lemma {:induction false} NatToStringValue(n: nat)
    ensures DigitsValue(NatToString(n)) == n
  {
    if n >= 10 {
      var s := NatToString(n);
      assert s[..|s| - 1] == NatToString(n / 10);
      NatToStringValue(n / 10);
    }
  }

  /** `strconv.Itoa`: a minus sign for negative values, then the digits. */
  function Itoa(i: int): string
  {
    if i < 0 then "-" + NatToString(-i) else NatToString(i)
  }

  /** `strconv.Atoi` on a 64-bit platform: an optional `+` or `-` sign followed by
      at least one ASCII digit, whose value fits in 64 bits; `None` for the
      syntax and range errors. */
  function Atoi(s: string): (r: Option<int>)
    ensures r.Some? ==> |s| > 0 && MinInt64 <= r.value <= MaxInt64
    ensures r.Some? && !(s[0] == '-' || s[0] == '+') ==> AllDigits(s) && r.value == DigitsValue(s)
  {
    var signed := |s| > 0 && (s[0] == '-' || s[0] == '+');
    var digits := if signed then s[1..] else s;
    if digits == [] || !AllDigits(digits) then None
    else
      var v: int := if signed && s[0] == '-' then -(DigitsValue(digits) as int) else DigitsValue(digits);
      if MinInt64 <= v <= MaxInt64 then Some(v) else None
  }

  /** Reading back what `Itoa` wrote gives the number again, over the whole
      64-bit range. */
  lemma AtoiOfItoa(i: int)
    requires MinInt64 <= i <= MaxInt64
    ensures Atoi(Itoa(i)) == Some(i)
  {
    var s := Itoa(i);
    if i < 0 {
      var d := NatToString(-i);
      NatToStringValue(-i);
      assert s[0] == '-' && s[1..] == d;
    } else {
      NatToStringValue(i);
      assert IsDigit(s[0]);
    }
  }
}
