/** Powers of ten and fixed-width decimal digit strings. */
module Numerals {
  import opened GoBytes

  function Pow10(n: nat): (r: nat)
    ensures r >= 1
  {
    if n == 0 then 1 else 10 * Pow10(n - 1)
  }

  lemma {:induction false} Pow10Add(m: nat, n: nat)
    ensures Pow10(m + n) == Pow10(m) * Pow10(n)
  {
    if m > 0 {
      Pow10Add(m - 1, n);
      assert Pow10(m + n) == 10 * Pow10(m - 1 + n);
    }
  }

  /** The ASCII digit for 0 <= d < 10. */
  function Digit(d: nat): (b: byte)
    requires d < 10
    ensures '0' as int <= b as int <= '9' as int
  {
    (48 + d) as byte
  }

  /** The last `width` decimal digits of `n`, zero-padded on the left. */
  function Digits(n: nat, width: nat): (s: Bytes)
    ensures |s| == width
    ensures forall i :: 0 <= i < |s| ==> '0' as int <= s[i] as int <= '9' as int
  {
    if width == 0 then [] else Digits(n / 10, width - 1) + [Digit(n % 10)]
  }

  /** The number a digit string spells, most significant digit first. */
  function Number(s: Bytes): int
  {
    if s == [] then 0 else Number(s[..|s| - 1]) * 10 + (s[|s| - 1] as int - 48)
  }

  /** A number below 10^width is recovered from its digits. */
  lemma {:induction false} NumberOfDigits(n: nat, width: nat)
    requires n < Pow10(width)
    ensures Number(Digits(n, width)) == n
  {
    if width > 0 {
      var s := Digits(n, width);
      assert s[..|s| - 1] == Digits(n / 10, width - 1);
      assert n / 10 < Pow10(width - 1) by {
        assert n < 10 * Pow10(width - 1);
      }
      NumberOfDigits(n / 10, width - 1);
    }
  }

  /** Two numbers below 10^width have the same digits only when they are equal. */
  lemma DigitsInjective(m: nat, n: nat, width: nat)
    requires m < Pow10(width) && n < Pow10(width)
    requires Digits(m, width) == Digits(n, width)
    ensures m == n
  {
    NumberOfDigits(m, width);
    NumberOfDigits(n, width);
  }
}
