/**
  Decimal digit strings and the natural numbers they denote.

  A resource built from a decoded body may carry its `id` as the digit string
  `'1'`; the instance answers the integer `1` (spec/wrest/resource/base_spec.rb:41-44).
  `Value` is the reading, `Show` the canonical writing, and the lemmas below
  prove that each undoes the other.
 */
module Decimal {

  predicate IsDigit(c: char) {
    '0' <= c <= '9'
  }

  /** Every character of `s` is a decimal digit (the empty string included). */
  predicate AllDigits(s: string) {
    forall i :: 0 <= i < |s| ==> IsDigit(s[i])
  }

  /** A non-empty run of decimal digits: the strings the `id` typecast converts. */
  predicate IsDecimal(s: string) {
    |s| > 0 && AllDigits(s)
  }

  /** A decimal string with no superfluous leading zero. */
  predicate IsCanonical(s: string) {
    IsDecimal(s) && (|s| == 1 || s[0] != '0')
  }

  function DigitValue(c: char): (d: nat)
    requires IsDigit(c)
    ensures d < 10
  {
    c as int - '0' as int
  }

  function DigitChar(d: nat): (c: char)
    requires d < 10
    ensures IsDigit(c) && DigitValue(c) == d
  {
    ('0' as int + d) as char
  }

  /** The number a digit string denotes, read most significant digit first. */
  function Value(s: string): nat
    requires AllDigits(s)
    decreases |s|
  {
    if |s| == 0 then 0 else Value(s[..|s| - 1]) * 10 + DigitValue(s[|s| - 1])
  }

  /** The canonical decimal writing of `n`. */
  function Show(n: nat): (s: string)
    ensures IsCanonical(s)
    decreases n
  {
    if n < 10 then [DigitChar(n)] else Show(n / 10) + [DigitChar(n % 10)]
  }

  /** Reading back what `Show` wrote gives the number. */
  lemma {:induction false} ValueOfShow(n: nat)
    ensures Value(Show(n)) == n
    decreases n
  {
    var s := Show(n);
    if n >= 10 {
      assert s[..|s| - 1] == Show(n / 10);
      ValueOfShow(n / 10);
    }
  }

  /** A non-empty digit string that does not start with `0` denotes a positive number. */
  lemma {:induction false} ValuePositive(s: string)
    requires IsDecimal(s) && s[0] != '0'
    ensures Value(s) > 0
    decreases |s|
  {
    if |s| > 1 {
      ValuePositive(s[..|s| - 1]);
    }
  }

  /** Writing back what `Value` read gives the string, when it had no leading zero. */
  lemma {:induction false} ShowOfValue(s: string)
    requires IsCanonical(s)
    ensures Show(Value(s)) == s
    decreases |s|
  {
    if |s| > 1 {
      var prefix := s[..|s| - 1];
      var d := DigitValue(s[|s| - 1]);
      ValuePositive(prefix);
      ShowOfValue(prefix);
      var n := Value(s);
      assert n == Value(prefix) * 10 + d;
      assert n / 10 == Value(prefix) && n % 10 == d;
      assert s == prefix + [s[|s| - 1]];
    }
  }
}
