/** Decimal text of non-negative integers: Python's `str(n)` and `int(s)` on ASCII digit
    strings. The forum relay turns channel ids into strings with `str`, and the allow-list
    of user ids is read back with `int`. */
module Decimal {

  predicate IsDigit(c: char) {
    '0' <= c <= '9'
  }

  /** `s.isdigit()` for an ASCII string: non-empty and every character a digit. */
  predicate IsDigits(s: string) {
    |s| > 0 && forall i :: 0 <= i < |s| ==> IsDigit(s[i])
  }

  /** The form `str(n)` produces: digits without a superfluous leading zero. */
  predicate IsCanonical(s: string) {
    IsDigits(s) && (|s| == 1 || s[0] != '0')
  }

  function DigitValue(c: char): (d: nat)
    requires IsDigit(c)
    ensures d < 10
  {
    c as int - '0' as int
  }

  function DigitChar(d: nat): (c: char)
    requires d < 10
    ensures IsDigit(c) && DigitValue(c) == d
  {
    ('0' as int + d) as char
  }

  /** `int(s)` for a string of digits; leading zeros are allowed, as in Python. */
  function Value(s: string): nat
    requires forall i :: 0 <= i < |s| ==> IsDigit(s[i])
  {
    if s == [] then 0 else 10 * Value(s[..|s| - 1]) + DigitValue(s[|s| - 1])
  }

  /** `str(n)` */
  function Show(n: nat): (s: string)
    ensures IsCanonical(s)
    ensures n == 0 <==> s == "0"
  {
    if n < 10 then [DigitChar(n)] else Show(n / 10) + [DigitChar(n % 10)]
  }

  /** Reading back what `str` wrote gives the number: `int(str(n)) == n`. */
  lemma {:induction false} ValueOfShow(n: nat)
    ensures Value(Show(n)) == n
  {
    var s := Show(n);
    if n < 10 {
      assert s[..|s| - 1] == [];
    } else {
      ValueOfShow(n / 10);
      assert s[..|s| - 1] == Show(n / 10);
    }
  }

  lemma {:induction false} PositiveValue(s: string)
    requires IsDigits(s) && s[0] != '0'
    ensures Value(s) > 0
  {
    if |s| > 1 {
      PositiveValue(s[..|s| - 1]);
    } else {
      assert s[..|s| - 1] == [];
    }
  }

  /** Writing back what `int` read gives the text, for text in canonical form: `str(int(s)) == s`. */
  lemma {:induction false} ShowOfValue(s: string)
    requires IsCanonical(s)
    ensures Show(Value(s)) == s
  {
    var last := s[|s| - 1];
    if |s| == 1 {
      assert s[..|s| - 1] == [];
      assert DigitChar(DigitValue(last)) == last;
    } else {
      var p := s[..|s| - 1];
      assert IsCanonical(p) by { assert p[0] == s[0]; }
      PositiveValue(p);
      ShowOfValue(p);
      assert DigitChar(DigitValue(last)) == last;
      assert s == p + [last];
    }
  }

  /** Distinct ids never share a decimal key. */
  lemma ShowInjective(a: nat, b: nat)
    ensures Show(a) == Show(b) ==> a == b
  {
    ValueOfShow(a);
    ValueOfShow(b);
  }
}
