/**
 * Decimal text of integers: what Python's `str()` produces for an `int`, and
 * the fixed-width digit groups used by the `DD.MM.YYYY` date format.
 */
module Text {

  function Pow10(k: nat): (p: nat)
    ensures p >= 1
  {
    if k == 0 then 1 else 10 * Pow10(k - 1)
  }

  predicate IsDigit(c: char) {
    '0' <= c <= '9'
  }

  predicate AllDigits(s: string) {
    forall i :: 0 <= i < |s| ==> IsDigit(s[i])
  }

  function DigitChar(d: nat): (c: char)
    requires d < 10
    ensures IsDigit(c)
  {
    ('0' as int + d) as char
  }

  function DigitValue(c: char): (d: nat)
    requires IsDigit(c)
    ensures d < 10 && DigitChar(d) == c
  {
    c as int - '0' as int
  }

  /** Text of a natural number, without leading zeros. */
  function NatText(n: nat): (s: string)
    ensures 1 <= |s| && AllDigits(s)
    decreases n
  {
    if n < 10 then [DigitChar(n)] else NatText(n / 10) + [DigitChar(n % 10)]
  }

  /** `str(n)` for a Python `int`: a minus sign, then the digits of |n|. */
  function DecimalText(n: int): string {
    if n < 0 then "-" + NatText(-n) else NatText(n)
  }

  /** The value of a string of digits read most significant first. */
  function Number(s: string): nat
    requires AllDigits(s)
  {
    if |s| == 0 then 0 else 10 * Number(s[..|s| - 1]) + DigitValue(s[|s| - 1])
  }

  /** The last `width` decimal digits of `n`, left-padded with zeros. */
  function Digits(n: nat, width: nat): (s: string)
    ensures |s| == width && AllDigits(s)
  {
    if width == 0 then [] else Digits(n / 10, width - 1) + [DigitChar(n % 10)]
  }

  /** Reading back a padded group gives the number, provided it fits. */
  lemma {:induction false} NumberOfDigits(n: nat, width: nat)
    requires n < Pow10(width)
    ensures Number(Digits(n, width)) == n
  {
    if width > 0 {
      var s := Digits(n, width);
      assert s[..|s| - 1] == Digits(n / 10, width - 1);
      NumberOfDigits(n / 10, width - 1);
    }
  }

  /** Padding a digit string's value to its own width gives the string back. */
  lemma {:induction false} DigitsOfNumber(s: string)
    requires AllDigits(s)
    ensures Number(s) < Pow10(|s|)
    ensures Digits(Number(s), |s|) == s
  {
    if |s| > 0 {
      var init := s[..|s| - 1];
      DigitsOfNumber(init);
      var n := Number(s);
      assert n / 10 == Number(init) && n % 10 == DigitValue(s[|s| - 1]);
      assert s == init + [s[|s| - 1]];
    }
  }

  /** A number in [10^k, 10^(k+1)) has k+1 digits, the first being n / 10^k. */
  lemma {:induction false} NatTextInDecade(n: nat, k: nat)
    requires Pow10(k) <= n < Pow10(k + 1)
    ensures |NatText(n)| == k + 1
    ensures n / Pow10(k) < 10 && NatText(n)[0] == DigitChar(n / Pow10(k))
  {
    if k > 0 {
      assert Pow10(k) == 10 * Pow10(k - 1);
      assert Pow10(k + 1) == 10 * Pow10(k);
      var m := n / 10;
      assert Pow10(k - 1) <= m < Pow10(k);
      NatTextInDecade(m, k - 1);
      DivTenDiv(n, Pow10(k - 1));
      assert NatText(n) == NatText(m) + [DigitChar(n % 10)];
    }
  }

  lemma MulAtLeast(d: int, x: int)
    requires d > 0 && x >= 1
    ensures d * x >= d
  {
  }

  /** Euclidean division is determined by any quotient/remainder pair. */
  lemma DivUnique(n: int, d: int, q: int, r: int)
    requires d > 0 && 0 <= r < d && n == d * q + r
    ensures n / d == q
  {
    var q0 := n / d;
    var r0 := n % d;
    assert d * (q0 - q) == r - r0;
    if q0 - q >= 1 {
      MulAtLeast(d, q0 - q);
      assert false;
    }
    if q - q0 >= 1 {
      MulAtLeast(d, q - q0);
      assert false;
    }
  }

  lemma DivTenDiv(n: nat, b: nat)
    requires b > 0
    ensures n / 10 / b == n / (10 * b)
  {
    var q := n / 10;
    var r := n % 10;
    var q2 := q / b;
    var r2 := q % b;
    assert q == b * q2 + r2;
    assert n == 10 * q + r;
    assert n == (10 * b) * q2 + (10 * r2 + r);
    DivUnique(n, 10 * b, q2, 10 * r2 + r);
  }

  /** A number below 10^k has at most k digits. */
  lemma {:induction false} NatTextShort(n: nat, k: nat)
    requires 1 <= k && n < Pow10(k)
    ensures |NatText(n)| <= k
  {
    if n >= 10 {
      assert Pow10(k) == 10 * Pow10(k - 1);
      NatTextShort(n / 10, k - 1);
    }
  }

  /** A number at least 10^k has more than k digits. */
  lemma {:induction false} NatTextLong(n: nat, k: nat)
    requires Pow10(k) <= n
    ensures |NatText(n)| >= k + 1
  {
    if k > 0 {
      assert Pow10(k) == 10 * Pow10(k - 1);
      NatTextLong(n / 10, k - 1);
    }
  }

  /**
   * The decimal text of an integer is eleven characters long and starts with
   * `7` exactly when the integer lies in [70000000000, 80000000000).
   */
  lemma ElevenDigitsStartingWithSeven(n: int)
    ensures (|DecimalText(n)| == 11 && DecimalText(n)[0] == '7')
        <==> 70000000000 <= n < 80000000000
  {
    var p10 := Pow10(10);
    assert p10 == 10000000000;
    assert Pow10(11) == 100000000000;
    if 70000000000 <= n < 80000000000 {
      NatTextInDecade(n, 10);
      assert n / p10 == 7;
    } else if n >= 0 {
      if |DecimalText(n)| == 11 {
        if n < p10 {
          NatTextShort(n, 10);
        } else if n >= Pow10(11) {
          NatTextLong(n, 11);
        } else {
          NatTextInDecade(n, 10);
          assert n / p10 != 7;
          assert DigitChar(n / p10) != '7';
        }
      }
    } else {
      assert DecimalText(n)[0] == '-';
    }
  }
}
