/** Decimal digits: reading a run of digits as a number, writing a number
    zero-padded to a fixed width (as the date patterns `yyyy`, `MM`, `dd`,
    `HH`, `mm` and `ss` do), and writing an integer the way a JavaScript
    template literal does. */
module Decimal {

  predicate IsDigit(c: char) {
    '0' <= c <= '9'
  }

  predicate AllDigits(s: string) {
    forall i :: 0 <= i < |s| ==> IsDigit(s[i])
  }

  function Pow10(k: nat): (p: nat)
    ensures p >= 1
  {
    if k == 0 then 1 else 10 * Pow10(k - 1)
  }

  function DigitChar(d: nat): (c: char)
    requires d < 10
    ensures IsDigit(c)
  {
    ('0' as int + d) as char
  }

  function DigitValue(c: char): (d: nat)
    requires IsDigit(c)
    ensures d < 10 && DigitChar(d) == c
  {
    c as int - '0' as int
  }

  /** The number a run of decimal digits denotes (leading zeros allowed). */
  function Value(s: string): (n: nat)
    requires AllDigits(s)
    ensures n < Pow10(|s|)
  {
    if |s| == 0 then 0 else Value(s[..|s| - 1]) * 10 + DigitValue(s[|s| - 1])
  }

  /** The last `width` decimal digits of n, with leading zeros. */
  function Padded(n: nat, width: nat): (s: string)
    ensures |s| == width && AllDigits(s)
  {
    if width == 0 then "" else Padded(n / 10, width - 1) + [DigitChar(n % 10)]
  }

  /** Padding a number that fits the width loses nothing. */
  lemma {:induction false} ValueOfPadded(n: nat, width: nat)
    requires n < Pow10(width)
    ensures Value(Padded(n, width)) == n
  {
    if width > 0 {
      var s := Padded(n, width);
      ValueOfPadded(n / 10, width - 1);
      assert s[..|s| - 1] == Padded(n / 10, width - 1);
      assert DigitValue(s[|s| - 1]) == n % 10;
    }
  }

  /** Re-padding the value of a digit run to its own width gives it back. */
  lemma {:induction false} PaddedOfValue(s: string)
    requires AllDigits(s)
    ensures Padded(Value(s), |s|) == s
  {
    if |s| > 0 {
      var init := s[..|s| - 1];
      var n := Value(s);
      assert n / 10 == Value(init) && n % 10 == DigitValue(s[|s| - 1]);
      PaddedOfValue(init);
      assert init + [s[|s| - 1]] == s;
    }
  }

  /** `${n}` for a non-negative integer: its digits, with no leading zero. */
  function NatText(n: nat): (s: string)
    ensures |s| > 0 && AllDigits(s)
    ensures s[0] == '0' ==> s == "0"
  {
    if n < 10 then [DigitChar(n)] else NatText(n / 10) + [DigitChar(n % 10)]
  }

  /** `${n}` for any integer: a minus sign before the digits of a negative. */
  function IntText(n: int): (s: string)
    ensures |s| > 0
    ensures (s[0] == '-') <==> n < 0
  {
    if n < 0 then "-" + NatText(-n) else NatText(n)
  }

  lemma {:induction false} ValueOfNatText(n: nat)
    ensures Value(NatText(n)) == n
  {
    if n >= 10 {
      var s := NatText(n);
      ValueOfNatText(n / 10);
      assert s[..|s| - 1] == NatText(n / 10);
    }
  }

  /** Distinct integers are written differently. */
  lemma IntTextInjective(m: int, n: int)
    requires IntText(m) == IntText(n)
    ensures m == n
  {
    if m < 0 {
      assert NatText(-m) == IntText(m)[1..] == IntText(n)[1..] == NatText(-n);
      ValueOfNatText(-m);
      ValueOfNatText(-n);
    } else {
      ValueOfNatText(m);
      ValueOfNatText(n);
    }
  }
}
