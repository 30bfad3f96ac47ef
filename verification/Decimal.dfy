/** Decimal numerals of a fixed width. */
module Decimal {
  function DigitChar(d: nat): (c: char)
    requires d < 10
    ensures '0' <= c <= '9' && c as int - '0' as int == d
  {
    ('0' as int + d) as char
  }

  function Pow10(k: nat): (p: nat)
    ensures p > 0
  {
    if k == 0 then 1 else 10 * Pow10(k - 1)
  }

  /** `n` in exactly `width` digits, zeros first. */
  function Padded(n: nat, width: nat): (s: string)
    ensures |s| == width && forall i :: 0 <= i < width ==> '0' <= s[i] <= '9'
  {
    if width == 0 then "" else Padded(n / 10, width - 1) + [DigitChar(n % 10)]
  }

  lemma {:induction false} PaddedInjective(a: nat, b: nat, width: nat)
    requires a < Pow10(width) && b < Pow10(width) && Padded(a, width) == Padded(b, width)
    ensures a == b
  {
    if width > 0 {
      var s, t := Padded(a, width), Padded(b, width);
      assert s[..width - 1] == Padded(a / 10, width - 1) && t[..width - 1] == Padded(b / 10, width - 1);
      assert s[width - 1] == DigitChar(a % 10) && t[width - 1] == DigitChar(b % 10);
      PaddedInjective(a / 10, b / 10, width - 1);
    }
  }

  /** `n` without leading zeros, as `str` prints it. */
  function Numeral(n: nat): (s: string)
    ensures |s| > 0 && forall i :: 0 <= i < |s| ==> '0' <= s[i] <= '9'
  {
    if n < 10 then [DigitChar(n)] else Numeral(n / 10) + [DigitChar(n % 10)]
  }

  /** The number a string of ASCII digits stands for. */
  function ValueOf(s: string): nat
    requires forall i :: 0 <= i < |s| ==> '0' <= s[i] <= '9'
  {
    if s == "" then 0 else 10 * ValueOf(s[..|s| - 1]) + (s[|s| - 1] as int - '0' as int)
  }

  lemma ValueNext(front: string, d: nat)
    requires d < 10 && forall i :: 0 <= i < |front| ==> '0' <= front[i] <= '9'
    ensures ValueOf(front + [DigitChar(d)]) == 10 * ValueOf(front) + d
  {
    assert (front + [DigitChar(d)])[..|front|] == front;
  }

  lemma {:induction false} PaddedValue(n: nat, width: nat)
    requires n < Pow10(width)
    ensures ValueOf(Padded(n, width)) == n
  {
    if width > 0 {
      PaddedValue(n / 10, width - 1);
      ValueNext(Padded(n / 10, width - 1), n % 10);
    }
  }

  lemma {:induction false} NumeralLength(n: nat, width: nat)
    requires width > 0
    ensures |Numeral(n)| <= width <==> n < Pow10(width)
  {
    if n >= 10 {
      if width == 1 {
        assert Pow10(1) == 10;
      } else {
        NumeralLength(n / 10, width - 1);
      }
    }
  }

  lemma {:induction false} NumeralValue(n: nat)
    ensures ValueOf(Numeral(n)) == n
  {
    if n < 10 {
      ValueNext("", n);
      assert "" + [DigitChar(n)] == Numeral(n);
    } else {
      NumeralValue(n / 10);
      ValueNext(Numeral(n / 10), n % 10);
    }
  }
}
