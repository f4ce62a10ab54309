/**
 * Decimal rendering of a natural number, as `std::to_string` produces it for
 * an unsigned value: the digits of the number, most significant first, with
 * no sign and no leading zero.
 */
module Decimal {

  predicate IsDigit(c: char) {
    '0' <= c <= '9'
  }

  predicate AllDigits(s: string) {
    forall i :: 0 <= i < |s| ==> IsDigit(s[i])
  }

  /** The character that stands for digit `d`. */
  function DigitChar(d: nat): (c: char)
    requires d < 10
    ensures IsDigit(c) && c as int - '0' as int == d
  {
    ('0' as int + d) as char
  }

  /** `std::to_string(n)` for an unsigned `n`. */
  function ToDecimal(n: nat): (s: string)
    ensures |s| > 0 && AllDigits(s)
    ensures s[0] == '0' ==> s == "0"
    ensures n < 10 <==> |s| == 1
    decreases n
  {
    if n < 10 then [DigitChar(n)] else ToDecimal(n / 10) + [DigitChar(n % 10)]
  }

  /** The number a string of digits denotes (the reading of `ToDecimal`). */
  function Value(s: string): nat
    requires AllDigits(s)
  {
    if s == [] then 0 else Value(s[..|s| - 1]) * 10 + (s[|s| - 1] as int - '0' as int)
  }

  /** Reading the rendering of `n` gives `n` back. */
  lemma {:induction false} ValueOfToDecimal(n: nat)
    ensures Value(ToDecimal(n)) == n
  {
    if n >= 10 {
      var s := ToDecimal(n);
      ValueOfToDecimal(n / 10);
      assert s[..|s| - 1] == ToDecimal(n / 10);
    }
  }

  /** Distinct numbers render differently. */
  lemma ToDecimalInjective(m: nat, n: nat)
    requires ToDecimal(m) == ToDecimal(n)
    ensures m == n
  {
    ValueOfToDecimal(m);
    ValueOfToDecimal(n);
  }

  /** A digit string with no superfluous leading zero. */
  predicate Canonical(s: string) {
    |s| > 0 && AllDigits(s) && (s[0] == '0' ==> |s| == 1)
  }

  /** Every canonical digit string is the rendering of the number it denotes. */
  lemma {:induction false} ToDecimalOfValue(s: string)
    requires Canonical(s)
    ensures ToDecimal(Value(s)) == s
  {
    var k := |s| - 1;
    var d := s[k] as int - '0' as int;
    if k == 0 {
      assert Value(s) == d;
    } else {
      var p := s[..k];
      assert Canonical(p) by {
        assert p[0] == s[0];
        assert |s| > 1;
      }
      ToDecimalOfValue(p);
      PositiveValue(s);
      assert Value(s) == Value(p) * 10 + d;
      assert Value(s) / 10 == Value(p) && Value(s) % 10 == d;
      assert ToDecimal(Value(s)) == ToDecimal(Value(p)) + [DigitChar(d)];
      assert s == p + [s[k]];
    }
  }

  /** A canonical string of more than one digit denotes a number of at least 1. */
  lemma {:induction false} PositiveValue(s: string)
    requires Canonical(s) && |s| > 1
    ensures Value(s[..|s| - 1]) >= 1
  {
    var p := s[..|s| - 1];
    if |p| == 1 {
      assert p[0] == s[0] && s[0] != '0';
      assert Value(p) == Value(p[..0]) * 10 + (p[0] as int - '0' as int);
    } else {
      assert p[0] == s[0];
      PositiveValue(p);
      assert Value(p) == Value(p[..|p| - 1]) * 10 + (p[|p| - 1] as int - '0' as int);
    }
  }
}
