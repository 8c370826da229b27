/** Numbers as text, in any base up to 16. */
module Misc {
  import opened Wrappers

  predicate IsDigit(c: char) {
    '0' <= c <= '9'
  }

  function DigitValue(c: char): int {
    (c as int) - ('0' as int)
  }

  function DigitChar(d: nat): char
    requires d < 16
  {
    "0123456789abcdef"[d]
  }

  function Digits(n: nat, base: nat): (s: string)
    requires 2 <= base <= 16
    ensures s != ""
  {
    if n < base then [DigitChar(n)] else Digits(n / base, base) + [DigitChar(n % base)]
  }

  function IntText(value: int, base: nat): string
    requires 2 <= base <= 16
  {
    if value < 0 then "-" + Digits(-value, base) else Digits(value, base)
  }

  /** The digit that a character is, in upper or lower case, or -1. */
  function DigitOf(c: char): int {
    if IsDigit(c) then DigitValue(c)
    else if 'a' <= c <= 'f' then (c as int) - ('a' as int) + 10
    else if 'A' <= c <= 'F' then (c as int) - ('A' as int) + 10
    else -1
  }

  /** Reading digits back. */
  function BaseValue(s: string, base: nat): int
  {
    if s == "" then 0
    else
      BaseValue(s[..|s| - 1], base) * base + DigitOf(s[|s| - 1])
  }

  /** The digits written for a number are those of the number. */
  lemma {:induction false} DigitsValue(n: nat, base: nat)
    requires 2 <= base <= 16
    ensures BaseValue(Digits(n, base), base) == n
  {
    if n < base {
      OneDigit(n, base);
    } else {
      DigitsValue(n / base, base);
      hide BaseValue;
      MoreDigits(Digits(n / base, base), n % base, base);
      Division(n, base);
    }
  }

  lemma Division(n: nat, base: nat)
    requires base > 0
    ensures (n / base) * base + n % base == n
  {
  }

  lemma MoreDigits(s: string, d: nat, base: nat)
    requires d < base <= 16
    ensures BaseValue(s + [DigitChar(d)], base) == BaseValue(s, base) * base + d
  {
    assert (s + [DigitChar(d)])[..|s|] == s;
  }

  lemma OneDigit(d: nat, base: nat)
    requires d < base <= 16
    ensures BaseValue([DigitChar(d)], base) == d
  {
    assert [DigitChar(d)][..0] == "";
    assert BaseValue("", base) == 0;
  }

  /** A number with an optional sign. */
  function SignedValue(w: string, base: nat): Option<int> {
    if w != "" && w[0] == '-' then
      if IsNumber(w[1..], base) then Some(-BaseValue(w[1..], base)) else None
    else if IsNumber(w, base) then Some(BaseValue(w, base)) else None
  }

  predicate IsNumber(w: string, base: nat) {
    w != "" && forall i :: 0 <= i < |w| ==> 0 <= DigitOf(w[i]) < base
  }

  lemma {:induction false} DigitsNumber(n: nat, base: nat)
    requires 2 <= base <= 16
    ensures IsNumber(Digits(n, base), base) && Digits(n, base)[0] != '-'
  {
    hide DigitChar, DigitOf, IsNumber;
    if n < base {
      NumberMore("", n, base);
      assert "" + [DigitChar(n)] == [DigitChar(n)];
    } else {
      DigitsNumber(n / base, base);
      NumberMore(Digits(n / base, base), n % base, base);
    }
  }

  lemma NumberMore(s: string, d: nat, base: nat)
    requires d < base <= 16 && (s == "" || (IsNumber(s, base) && s[0] != '-'))
    ensures IsNumber(s + [DigitChar(d)], base) && (s + [DigitChar(d)])[0] != '-'
  {
    DigitIs(d);
    hide DigitChar, DigitOf;
  }

  lemma DigitIs(d: nat)
    requires d < 16
    ensures DigitOf(DigitChar(d)) == d && DigitChar(d) != '-'
  {
  }

  /** The text written for a number reads back as the number, sign and all. */
  lemma IntTextReads(n: int, base: nat)
    requires 2 <= base <= 16
    ensures SignedValue(IntText(n, base), base) == Some(n)
  {
    var k: nat := if n < 0 then -n else n;
    DigitsNumber(k, base);
    DigitsValue(k, base);
    hide Digits, BaseValue, IsNumber;
    if n < 0 {
      assert IntText(n, base)[1..] == Digits(k, base);
    }
  }

  // ---------------------------------------------------------------------------
  // How many digits

  function Power(base: nat, k: nat): nat {
    if k == 0 then 1 else base * Power(base, k - 1)
  }

  lemma PowerTwice(base: nat, k: nat)
    ensures Power(base, 2 * k) == Power(base, k) * Power(base, k)
  {
    PowerSum(base, k, k);
  }

  lemma {:induction false} PowerSum(base: nat, j: nat, k: nat)
    ensures Power(base, j + k) == Power(base, j) * Power(base, k)
  {
    if j > 0 {
      PowerSum(base, j - 1, k);
      Regrouped(base, Power(base, j - 1), Power(base, k));
    }
  }

  lemma Regrouped(x: nat, y: nat, z: nat)
    ensures x * (y * z) == (x * y) * z
  {
  }

  lemma {:induction false} DigitsLength(n: nat, base: nat, k: nat)
    requires 2 <= base <= 16 && k > 0
    ensures |Digits(n, base)| <= k <==> n < Power(base, k)
  {
    if k == 1 {
      assert Power(base, 0) == 1;
      assert n >= base ==> |Digits(n / base, base)| > 0;
    } else if n < base {
      LargePower(base, k - 1);
      Scaled(base, 1, Power(base, k - 1));
    } else {
      DigitsLength(n / base, base, k - 1);
      Quotient(n, base, Power(base, k - 1));
    }
  }

  lemma {:induction false} LargePower(base: nat, k: nat)
    requires base > 0
    ensures Power(base, k) >= 1
  {
    if k > 0 {
      LargePower(base, k - 1);
      Scaled(base, 1, Power(base, k - 1));
    }
  }

  lemma Scaled(base: nat, x: nat, y: nat)
    requires x <= y
    ensures base * x <= base * y
  {
  }

  lemma Quotient(n: nat, base: nat, p: nat)
    requires base > 0
    ensures n / base < p <==> n < base * p
  {
    Division(n, base);
    if n / base < p {
      Scaled(base, n / base + 1, p);
    } else {
      Scaled(base, p, n / base);
    }
  }
}
