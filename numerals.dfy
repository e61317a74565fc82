/**
 * Positional numerals as Go's `fmt` prints unsigned integers with `%d` and
 * `%o`, and the zero padding of a width such as `%04o`.
 */
module Numerals {

  /** True when `c` is a digit of `base` (at most ten). */
  predicate IsDigit(c: char, base: nat) {
    '0' <= c && (c as int) < '0' as int + base
  }

  predicate AllDigits(s: string, base: nat) {
    forall i :: 0 <= i < |s| ==> IsDigit(s[i], base)
  }

  function DigitChar(d: nat): (c: char)
    requires d < 10
    ensures IsDigit(c, d + 1) && c as int - '0' as int == d
  {
    ('0' as int + d) as char
  }

  function Pow(base: nat, k: nat): (r: nat)
    ensures base >= 1 ==> r >= 1
  {
    if k == 0 then 1 else base * Pow(base, k - 1)
  }

  /**
   * The numeral of `n` in `base`, most significant digit first, with no
   * leading zero (zero itself is "0").
   */
  function Format(n: nat, base: nat): (s: string)
    requires 2 <= base <= 10
    ensures |s| >= 1 && AllDigits(s, base)
    ensures |s| > 1 ==> s[0] != '0'
    decreases n
  {
    if n < base then [DigitChar(n)]
    else
      DivMod(n, base);
      Format(n / base, base) + [DigitChar(n % base)]
  }

  /** Euclidean division by a base: the quotient shrinks and the remainder is a digit. */
  lemma DivMod(n: nat, base: nat)
    requires 2 <= base
    ensures 0 <= n % base < base && (n / base) * base + n % base == n
    ensures n >= base ==> 1 <= n / base < n
  {
  }

  /** A quotient times the base stays below `base * p` only if the quotient is below `p`. */
  lemma QuotientBound(q: nat, base: nat, p: nat)
    requires 2 <= base && q * base < base * p
    ensures q < p
  {
  }

  /** The value of a string of digits in `base`; the inverse of `Format`. */
  function Value(s: string, base: nat): nat
    requires AllDigits(s, base)
  {
    if s == [] then 0
    else Value(s[..|s| - 1], base) * base + (s[|s| - 1] as int - '0' as int)
  }

  /** Reading back a formatted number gives the number. */
  lemma {:induction false} ValueOfFormat(n: nat, base: nat)
    requires 2 <= base <= 10
    ensures Value(Format(n, base), base) == n
    decreases n
  {
    var s := Format(n, base);
    if n >= base {
      DivMod(n, base);
      ValueOfFormat(n / base, base);
      assert s[..|s| - 1] == Format(n / base, base);
      assert s[|s| - 1] == DigitChar(n % base);
    }
  }

  /** A number below `base^k` needs at most `k` digits (and always at least one). */
  lemma {:induction false} FormatLength(n: nat, base: nat, k: nat)
    requires 2 <= base <= 10 && k >= 1
    requires n < Pow(base, k)
    ensures |Format(n, base)| <= k
    decreases n
  {
    if n >= base {
      assert k >= 2;
      var p := Pow(base, k - 1);
      DivMod(n, base);
      QuotientBound(n / base, base, p);
      FormatLength(n / base, base, k - 1);
    }
  }

  /** `s` preceded by enough copies of `pad` to make it at least `width` long. */
  function PadLeft(s: string, width: nat, pad: char): (r: string)
    ensures |r| == if |s| < width then width else |s|
    ensures r[|r| - |s|..] == s
    ensures forall i :: 0 <= i < |r| - |s| ==> r[i] == pad
  {
    if |s| < width then seq(width - |s|, _ => pad) + s else s
  }

  /** Leading zeros do not change the value of a numeral. */
  lemma {:induction false} ValueIgnoresLeadingZeros(z: string, s: string, base: nat)
    requires 2 <= base <= 10
    requires forall i :: 0 <= i < |z| ==> z[i] == '0'
    requires AllDigits(s, base)
    ensures AllDigits(z + s, base) && Value(z + s, base) == Value(s, base)
    decreases |s|
  {
    if s == [] {
      assert z + s == z;
      AllZeros(z, base);
    } else {
      var s' := s[..|s| - 1];
      assert (z + s)[..|z + s| - 1] == z + s';
      ValueIgnoresLeadingZeros(z, s', base);
    }
  }

  lemma {:induction false} AllZeros(z: string, base: nat)
    requires 2 <= base <= 10
    requires forall i :: 0 <= i < |z| ==> z[i] == '0'
    ensures AllDigits(z, base) && Value(z, base) == 0
    decreases |z|
  {
    if z != [] {
      AllZeros(z[..|z| - 1], base);
    }
  }
}
