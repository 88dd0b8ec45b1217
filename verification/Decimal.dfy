/** Decimal notation of natural numbers. */
module Decimal {

  predicate IsDigit(c: char) { '0' <= c <= '9' }

  predicate AllDigits(s: string) { forall c :: c in s ==> IsDigit(c) }

  function Digit(d: nat): (c: char)
    requires d < 10
    ensures IsDigit(c) && DigitValue(c) == d
  {
    "0123456789"[d]
  }

  function DigitValue(c: char): (d: nat)
    requires IsDigit(c)
    ensures d < 10
  {
    c as int - '0' as int
  }

  function ToDecimal(n: nat): (s: string)
    ensures s != [] && AllDigits(s)
  {
    if n < 10 then [Digit(n)] else ToDecimal(n / 10) + [Digit(n % 10)]
  }

  function FromDecimal(s: string): nat
    requires AllDigits(s)
  {
    if s == [] then 0 else 10 * FromDecimal(s[..|s| - 1]) + DigitValue(s[|s| - 1])
  }

  /** Reading what was written gives the number back. */
  lemma {:induction false} ReadBack(n: nat)
    ensures FromDecimal(ToDecimal(n)) == n
  {
    if n >= 10 {
      ReadBack(n / 10);
      var s := ToDecimal(n);
      assert s[..|s| - 1] == ToDecimal(n / 10);
    }
  }

  lemma WrittenInTens(n: nat, d: nat)
    requires d < 10
    ensures ToDecimal(d) == ["0123456789"[d]]
    ensures n > 0 ==> ToDecimal(10 * n + d) == ToDecimal(n) + ["0123456789"[d]]
  {
  }

  /** More digits at the end make a positive number larger. */
  lemma {:induction false} LongerIsLarger(s: string, t: string)
    requires AllDigits(s) && AllDigits(t) && FromDecimal(s) > 0
    ensures AllDigits(s + t)
    ensures if t == [] then FromDecimal(s + t) == FromDecimal(s) else FromDecimal(s + t) > FromDecimal(s)
  {
    if t == [] {
      assert s + t == s;
    } else {
      LongerIsLarger(s, t[..|t| - 1]);
      assert (s + t)[..|s + t| - 1] == s + t[..|t| - 1];
    }
  }
}
