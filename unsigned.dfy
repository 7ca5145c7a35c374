/** Rust's `u64` as the guard and the macros use it: its range, its decimal
    `Display` (the `{}` of `format!`) and the decimal reading behind syn's
    `base10_parse`. */
module Unsigned {

  const U64Limit: nat := 0x1_0000_0000_0000_0000

  /** A value of Rust's `u64`. */
  type U64 = x: nat | x < U64Limit

  predicate IsDigit(c: char) {
    '0' <= c <= '9'
  }

  predicate AllDigits(s: string) {
    forall i :: 0 <= i < |s| ==> IsDigit(s[i])
  }

  /** A non-empty run of decimal digits, as syn's `base10_digits` hands it over. */
  type Digits = s: string | |s| > 0 && AllDigits(s) witness "0"

  function DigitChar(d: nat): (c: char)
    requires d < 10
    ensures IsDigit(c)
  {
    (d + '0' as int) as char
  }

  function DigitValue(c: char): (d: nat)
    requires IsDigit(c)
    ensures d < 10
  {
    c as int - '0' as int
  }

  /** `format!("{}", n)`: the decimal digits of `n`, most significant first. */
  function Format(n: nat): (s: string)
    ensures |s| > 0 && AllDigits(s)
    ensures s[0] == '0' <==> n == 0
  {
    if n < 10 then [DigitChar(n)] else Format(n / 10) + [DigitChar(n % 10)]
  }

  /** The number a run of decimal digits denotes (before any range check). */
  function Value(s: string): nat
    requires AllDigits(s)
  {
    if s == [] then 0 else Value(s[..|s| - 1]) * 10 + DigitValue(s[|s| - 1])
  }

  /** Reading back what `Format` wrote gives the number again. */
  lemma {:induction false} ValueOfFormat(n: nat)
    ensures Value(Format(n)) == n
  {
    if n >= 10 {
      var s := Format(n / 10);
      ValueOfFormat(n / 10);
      assert (s + [DigitChar(n % 10)])[..|s|] == s;
    }
  }

  /** Two numbers print the same exactly when they are equal. */
  lemma FormatInjective(a: nat, b: nat)
    ensures Format(a) == Format(b) <==> a == b
  {
    if Format(a) == Format(b) {
      ValueOfFormat(a);
      ValueOfFormat(b);
    }
  }

  /** A fixed prefix followed by a number, as `format!("prefix{}", n)` builds
      generated names, tells different numbers apart. */
  lemma PrefixedFormatInjective(prefix: string, a: nat, b: nat)
    ensures prefix + Format(a) == prefix + Format(b) <==> a == b
  {
    if prefix + Format(a) == prefix + Format(b) {
      assert (prefix + Format(a))[|prefix|..] == Format(a);
      assert (prefix + Format(b))[|prefix|..] == Format(b);
      FormatInjective(a, b);
    }
  }
}
