/**
 * Decimal digit strings: writing a natural number in base ten, optionally
 * zero-padded, and reading such a string back.
 */
module Decimal {

  predicate IsDigit(c: char)
  {
    '0' <= c <= '9'
  }

  predicate AllDigits(s: string)
  {
    forall i :: 0 <= i < |s| ==> IsDigit(s[i])
  }

  function DigitChar(n: nat): (c: char)
    requires n < 10
    ensures IsDigit(c)
  {
    ('0' as int + n) as char
  }

  /** Ten to the power `w`. */
  function Pow10(w: nat): (p: nat)
    ensures p >= 1
  {
    if w == 0 then 1 else 10 * Pow10(w - 1)
  }

  /** The decimal digits of `n`, left-padded with zeros to at least `width` characters. */
  function Digits(n: nat, width: nat): string
    decreases n, width
  {
    if n < 10 && width <= 1 then [DigitChar(n)]
    else Digits(n / 10, if width == 0 then 0 else width - 1) + [DigitChar(n % 10)]
  }

  /** The number a string of decimal digits denotes. */
  function Value(s: string): nat
    requires AllDigits(s)
  {
    if |s| == 0 then 0 else 10 * Value(s[..|s| - 1]) + (s[|s| - 1] as int - '0' as int)
  }

  // ---------------------------------------------------------------- lemmas

  /** Digits writes only digits, and they denote `n` whatever the padding. */
  lemma {:induction false} DigitsValue(n: nat, width: nat)
    ensures AllDigits(Digits(n, width))
    ensures Value(Digits(n, width)) == n
    decreases n, width
  {
    if !(n < 10 && width <= 1) {
      var w' := if width == 0 then 0 else width - 1;
      var s := Digits(n, width);
      DigitsValue(n / 10, w');
      assert s == Digits(n / 10, w') + [DigitChar(n % 10)];
      assert s[..|s| - 1] == Digits(n / 10, w');
    }
  }

  /** A number below 10^width is written with exactly `width` characters. */
  lemma {:induction false} DigitsLength(n: nat, width: nat)
    requires 1 <= width && n < Pow10(width)
    ensures |Digits(n, width)| == width
    decreases width
  {
    if !(n < 10 && width <= 1) {
      assert width >= 2;
      assert n / 10 < Pow10(width - 1);
      DigitsLength(n / 10, width - 1);
    }
  }
}
