// Decimal and hexadecimal renderings that end up inside finding identities and reports.
module Numerals {

  const HEX_DIGITS := "0123456789abcdef"

  function Pow2(n: nat): (p: nat)
    ensures p >= 1
  {
    if n == 0 then 1 else 2 * Pow2(n - 1)
  }

  predicate IsDigit(c: char) {
    '0' <= c <= '9'
  }

  predicate AllDigits(s: string) {
    forall i :: 0 <= i < |s| ==> IsDigit(s[i])
  }

  function Digit(d: nat): (c: char)
    requires d < 10
    ensures IsDigit(c) && DigitValue(c) == d
  {
    HEX_DIGITS[d]
  }

  function DigitValue(c: char): nat {
    if IsDigit(c) then (c as int) - ('0' as int) else 0
  }

  function Digits(n: nat): (s: string)
    ensures |s| > 0 && AllDigits(s)
  {
    if n < 10 then [Digit(n)] else Digits(n / 10) + [Digit(n % 10)]
  }

  function HexDigits(n: nat): string {
    if n < 16 then [HEX_DIGITS[n]] else HexDigits(n / 16) + [HEX_DIGITS[n % 16]]
  }

  function Decimal(i: int): (s: string)
    ensures |s| > 0
    ensures i >= 0 ==> AllDigits(s)
  {
    if i < 0 then "-" + Digits(-i) else Digits(i)
  }

  function Hex(n: nat): string {
    "0x" + HexDigits(n)
  }

  function Bit(b: bool): string {
    if b then "1" else "0"
  }

  // The identity of a run or operation: 32 lower-case hexadecimal digits.
  predicate OperationId(s: string) {
    |s| == 32 && forall i :: 0 <= i < 32 ==> ('0' <= s[i] <= '9' || 'a' <= s[i] <= 'f')
  }

  lemma Residue(w: nat, modulus: nat)
    requires w < modulus
    ensures w % modulus == w
  {
  }

  // Reading a digit string back; the inverse of Digits, hence Digits is injective.
  function Value(s: string): nat {
    if |s| == 0 then 0 else Value(s[..|s| - 1]) * 10 + DigitValue(s[|s| - 1])
  }

  lemma {:induction false} DigitsReadBack(n: nat)
    ensures Value(Digits(n)) == n
  {
    var s := Digits(n);
    if n < 10 {
      assert s[..|s| - 1] == "";
    } else {
      DigitsReadBack(n / 10);
      assert s[..|s| - 1] == Digits(n / 10);
    }
  }

  lemma DecimalInjective(m: nat, n: nat)
    requires Decimal(m) == Decimal(n)
    ensures m == n
  {
    DigitsReadBack(m);
    DigitsReadBack(n);
  }

  function HexValue(c: char): nat {
    if 'a' <= c <= 'f' then (c as int) - ('a' as int) + 10 else DigitValue(c)
  }

  function ValueOfHex(s: string): nat {
    if |s| == 0 then 0 else ValueOfHex(s[..|s| - 1]) * 16 + HexValue(s[|s| - 1])
  }

  lemma HexDigitReadsBack(d: nat)
    requires d < 16
    ensures HexValue(HEX_DIGITS[d]) == d
  {
  }

  // A hexadecimal rendering reads back as its number, so different words look different.
  lemma {:induction false} HexReadsBack(n: nat)
    ensures ValueOfHex(HexDigits(n)) == n
  {
    var s := HexDigits(n);
    if n < 16 {
      HexDigitReadsBack(n);
      assert s[..|s| - 1] == "";
    } else {
      HexReadsBack(n / 16);
      HexDigitReadsBack(n % 16);
      assert s[..|s| - 1] == HexDigits(n / 16);
    }
  }
}
