/**
 * JavaScript's `Number(string)` on the strings the session expiry is stored
 * as, and the decimal rendering that writes an epoch-millisecond timestamp
 * into storage.
 */
module JsNumber {

  datatype Num = NaN | Finite(value: int)

  predicate IsDigit(c: char)
  {
    '0' <= c <= '9'
  }

  predicate AllDigits(s: string)
  {
    forall i :: 0 <= i < |s| ==> IsDigit(s[i])
  }

  function DigitValue(c: char): nat
    requires IsDigit(c)
  {
    (c as int - '0' as int) as nat
  }

  function DigitChar(d: nat): (c: char)
    requires d < 10
    ensures IsDigit(c) && DigitValue(c) == d
  {
    ('0' as int + d) as char
  }

  /** Value of a string of decimal digits, read from the most significant digit. */
  function DigitsValue(s: string): nat
    requires AllDigits(s)
  {
    if s == [] then 0 else DigitsValue(s[..|s| - 1]) * 10 + DigitValue(s[|s| - 1])
  }

  /**
   * `Number(s)`: the empty string is 0, an optional sign followed by one or
   * more decimal digits is that integer, anything else is NaN.
   */
  function Number(s: string): (n: Num)
  {
    if s == [] then Finite(0)
    else if (s[0] == '-' || s[0] == '+') && |s| > 1 && AllDigits(s[1..]) then
      var magnitude: int := DigitsValue(s[1..]);
      Finite(if s[0] == '-' then -magnitude else magnitude)
    else if AllDigits(s) then Finite(DigitsValue(s))
    else NaN
  }

  /** The decimal rendering of a non-negative integer: its digits, no leading zeros. */
  function Decimal(n: nat): (s: string)
    ensures |s| > 0 && AllDigits(s)
  {
    if n < 10 then [DigitChar(n)] else Decimal(n / 10) + [DigitChar(n % 10)]
  }

  /** Reading back the decimal rendering gives the number. */
  lemma {:induction false} DigitsOfDecimal(n: nat)
    ensures DigitsValue(Decimal(n)) == n
  {
    var s := Decimal(n);
    if n >= 10 {
      assert s[..|s| - 1] == Decimal(n / 10);
      DigitsOfDecimal(n / 10);
    } else {
      assert s[..|s| - 1] == [];
    }
  }

  /** `Number` reads the decimal rendering of n back as n. */
  lemma NumberOfDecimal(n: nat)
    ensures Number(Decimal(n)) == Finite(n)
  {
    DigitsOfDecimal(n);
    assert IsDigit(Decimal(n)[0]);
  }
}
