/**
 * Decimal digit strings: the character class `\d` of a JavaScript regular
 * expression, and fixed-width decimal rendering of a natural number together
 * with its inverse. The snapshot ids of the catalog are 14-digit strings.
 */
module Digits {

  /** `\d` in a JavaScript regular expression is ASCII 0-9. */
  predicate IsDigit(c: char) {
    '0' <= c <= '9'
  }

  predicate AllDigits(s: string) {
    forall k :: 0 <= k < |s| ==> IsDigit(s[k])
  }

  function Pow10(w: nat): (p: nat)
    ensures p >= 1
  {
    if w == 0 then 1 else 10 * Pow10(w - 1)
  }

  function DigitChar(d: nat): (c: char)
    requires d < 10
    ensures IsDigit(c)
  {
    (('0' as int) + d) as char
  }

  function DigitValue(c: char): (d: nat)
    requires IsDigit(c)
    ensures d < 10 && DigitChar(d) == c
  {
    (c as int) - ('0' as int)
  }

  /** The last `width` decimal digits of `n`, most significant first, zero-padded. */
  function Decimal(n: nat, width: nat): (s: string)
    ensures |s| == width && AllDigits(s)
  {
    if width == 0 then [] else Decimal(n / 10, width - 1) + [DigitChar(n % 10)]
  }

  lemma LeadingDigitBound(d: nat, p: nat, rest: nat)
    requires d < 10 && rest < p
    ensures d * p + rest < 10 * p
  {
  }

  /** The number a digit string denotes. */
  function Value(s: string): (v: nat)
    requires AllDigits(s)
    ensures v < Pow10(|s|)
  {
    if s == [] then 0
    else
      var d, rest := DigitValue(s[0]), Value(s[1..]);
      LeadingDigitBound(d, Pow10(|s| - 1), rest);
      d * Pow10(|s| - 1) + rest
  }

  /** Appending a digit shifts the value one place left. */
  lemma {:induction false} ValueAppend(s: string, c: char)
    requires AllDigits(s) && IsDigit(c)
    ensures AllDigits(s + [c])
    ensures Value(s + [c]) == 10 * Value(s) + DigitValue(c)
  {
    if s != [] {
      assert (s + [c])[1..] == s[1..] + [c];
      ValueAppend(s[1..], c);
      calc {
        Value(s + [c]);
        DigitValue(s[0]) * Pow10(|s|) + Value(s[1..] + [c]);
        DigitValue(s[0]) * (10 * Pow10(|s| - 1)) + 10 * Value(s[1..]) + DigitValue(c);
        { assert DigitValue(s[0]) * (10 * Pow10(|s| - 1)) == 10 * (DigitValue(s[0]) * Pow10(|s| - 1)); }
        10 * Value(s) + DigitValue(c);
      }
    }
  }

  lemma {:induction false} QuotientBound(n: nat, w: nat)
    requires w > 0 && n < Pow10(w)
    ensures n / 10 < Pow10(w - 1)
  {
  }

  /** Parsing a rendered number gives the number back. */
  lemma {:induction false} ValueOfDecimal(n: nat, width: nat)
    requires n < Pow10(width)
    ensures Value(Decimal(n, width)) == n
  {
    if width > 0 {
      QuotientBound(n, width);
      ValueOfDecimal(n / 10, width - 1);
      ValueAppend(Decimal(n / 10, width - 1), DigitChar(n % 10));
    }
  }

  /** Two numbers below 10^width never share a rendering. */
  lemma DecimalInjective(a: nat, b: nat, width: nat)
    requires a < Pow10(width) && b < Pow10(width)
    requires a != b
    ensures Decimal(a, width) != Decimal(b, width)
  {
    ValueOfDecimal(a, width);
    ValueOfDecimal(b, width);
  }
}
