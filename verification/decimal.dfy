/** Decimal rendering of natural numbers, as Python's `str` and f-strings print
    them, together with its inverse. The checkpoint directory of a fold is named
    by the fold's index in this form, so distinct folds get distinct directories
    exactly because the rendering can be parsed back. */
module Decimal {

  /** True when every character of `s` is an ASCII decimal digit. */
  predicate IsDigits(s: string) {
    forall i :: 0 <= i < |s| ==> '0' <= s[i] <= '9'
  }

  /** The character of the digit `d`. */
  function DigitChar(d: nat): (c: char)
    requires d < 10
    ensures '0' <= c <= '9'
  {
    ('0' as int + d) as char
  }

  /** The value of the digit character `c`. */
  function DigitValue(c: char): (d: nat)
    requires '0' <= c <= '9'
    ensures d < 10
  {
    c as int - '0' as int
  }

  /** The shortest decimal form of `n`: no sign, no leading zero except for 0 itself. */
  function Show(n: nat): (s: string)
    ensures |s| >= 1 && IsDigits(s)
    ensures |s| > 1 ==> s[0] != '0'
    decreases n
  {
    if n < 10 then [DigitChar(n)] else Show(n / 10) + [DigitChar(n % 10)]
  }

  /** The number a string of digits denotes (most significant digit first). */
  function Parse(s: string): nat
    requires IsDigits(s)
    decreases |s|
  {
    if |s| == 0 then 0 else 10 * Parse(s[..|s| - 1]) + DigitValue(s[|s| - 1])
  }

  /** Parsing a rendered number gives the number back. */
  lemma {:induction false} ParseShow(n: nat)
    ensures Parse(Show(n)) == n
    decreases n
  {
    if n >= 10 {
      var s := Show(n);
      ParseShow(n / 10);
      assert s[..|s| - 1] == Show(n / 10);
    }
  }

  /** Two numbers render alike exactly when they are equal. */
  lemma ShowInjective(a: nat, b: nat)
    ensures Show(a) == Show(b) <==> a == b
  {
    ParseShow(a);
    ParseShow(b);
  }
}
