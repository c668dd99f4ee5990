/** Canonical integer and decimal texts: which texts are accepted, and what they are worth. */
module DecimalText {
  predicate IsDigit(c: char) { '0' <= c <= '9' }

  predicate AllDigits(s: string) { forall i :: 0 <= i < |s| ==> IsDigit(s[i]) }

  /** `0|[1-9][0-9]*` */
  predicate IsNatural(s: string) {
    && s != "" && AllDigits(s)
    && (|s| > 1 ==> s[0] != '0')
  }

  /** `0|-?[1-9][0-9]*` */
  predicate IsInteger(s: string) {
    if s != "" && s[0] == '-' then IsNatural(s[1..]) && s[1..] != "0" else IsNatural(s)
  }

  /** `0|-?[1-9]([0-9]*[1-9])?` */
  predicate IsCoefficient(s: string) {
    IsInteger(s) && (s != "0" ==> s[|s| - 1] != '0')
  }

  function DigitValue(c: char): (d: nat)
    ensures d <= 9
  {
    if IsDigit(c) then c as int - '0' as int else 0
  }

  function NaturalValue(s: string): nat {
    if s == "" then 0 else 10 * NaturalValue(s[..|s| - 1]) + DigitValue(s[|s| - 1])
  }

  predicate Negative(s: string) { s != "" && s[0] == '-' }

  function Magnitude(s: string): string { if Negative(s) then s[1..] else s }

  function IntegerValue(s: string): int {
    if Negative(s) then 0 - NaturalValue(s[1..]) else NaturalValue(s)
  }

  lemma {:induction false} NaturalsArePositive(s: string)
    requires IsNatural(s) && s != "0"
    ensures NaturalValue(s) > 0
  {
    if |s| > 1 {
      var front := s[..|s| - 1];
      assert front[0] == s[0];
      NaturalsArePositive(front);
    }
  }

  /** A natural number has one accepted text. */
  lemma {:induction false} NaturalTextIsUnique(s: string, t: string)
    requires IsNatural(s) && IsNatural(t) && NaturalValue(s) == NaturalValue(t)
    ensures s == t
  {
    if s == "0" || t == "0" {
      if s != "0" { NaturalsArePositive(s); }
      if t != "0" { NaturalsArePositive(t); }
    } else {
      var p, q := s[..|s| - 1], t[..|t| - 1];
      assert s == p + [s[|s| - 1]] && t == q + [t[|t| - 1]];
      assert NaturalValue(p) == NaturalValue(q) && s[|s| - 1] == t[|t| - 1];
      if p != "" { assert p[0] == s[0]; NaturalsArePositive(p); }
      if q != "" { assert q[0] == t[0]; NaturalsArePositive(q); }
      if p != "" && q != "" { NaturalTextIsUnique(p, q); }
    }
  }

  /** An integer has one accepted text. */
  lemma IntegerTextIsUnique(s: string, t: string)
    requires IsInteger(s) && IsInteger(t) && IntegerValue(s) == IntegerValue(t)
    ensures s == t
  {
    if Negative(s) { NaturalsArePositive(s[1..]); }
    if Negative(t) { NaturalsArePositive(t[1..]); }
    NaturalTextIsUnique(Magnitude(s), Magnitude(t));
    assert Negative(s) ==> s == "-" + s[1..];
    assert Negative(t) ==> t == "-" + t[1..];
  }

  // ---- the texts themselves ----

  function Digit(n: nat): char
    requires n < 10
  {
    '0' + n as char
  }

  /** The digits of a natural number, without leading zeros. */
  function NaturalText(n: nat): string {
    if n < 10 then [Digit(n)] else NaturalText(n / 10) + [Digit(n % 10)]
  }

  function IntegerText(n: int): string { if n < 0 then "-" + NaturalText(0 - n) else NaturalText(n) }

  lemma {:induction false} NaturalTextIsNatural(n: nat)
    ensures IsNatural(NaturalText(n)) && NaturalValue(NaturalText(n)) == n
    ensures n > 0 ==> NaturalText(n)[0] != '0'
  {
    if n < 10 {
      assert NaturalText(n)[..0] == "";
    } else {
      var s := NaturalText(n);
      NaturalTextIsNatural(n / 10);
      assert s[..|s| - 1] == NaturalText(n / 10);
    }
  }

  /** The accepted texts of natural numbers are the digits of natural numbers. */
  lemma NaturalTextIff(s: string)
    ensures IsNatural(s) <==> exists n: nat :: s == NaturalText(n)
    ensures IsNatural(s) ==> s == NaturalText(NaturalValue(s))
  {
    if IsNatural(s) {
      NaturalTextIsNatural(NaturalValue(s));
      NaturalTextIsUnique(s, NaturalText(NaturalValue(s)));
    }
    if n: nat :| s == NaturalText(n) { NaturalTextIsNatural(n); }
  }

  lemma IntegerTextIsInteger(n: int)
    ensures IsInteger(IntegerText(n)) && IntegerValue(IntegerText(n)) == n
  {
    if n < 0 {
      NaturalTextIsNatural(0 - n);
      assert IntegerText(n)[1..] == NaturalText(0 - n);
    } else {
      NaturalTextIsNatural(n);
      assert IntegerText(n) == NaturalText(n);
    }
  }

  /** The accepted texts of integers are the digits of integers, behind a sign if negative. */
  lemma IntegerTextIff(s: string)
    ensures IsInteger(s) <==> exists n: int :: s == IntegerText(n)
    ensures IsInteger(s) ==> s == IntegerText(IntegerValue(s))
  {
    if IsInteger(s) {
      IntegerTextIsInteger(IntegerValue(s));
      IntegerTextIsUnique(s, IntegerText(IntegerValue(s)));
    }
    if n: int :| s == IntegerText(n) { IntegerTextIsInteger(n); }
  }

  /** A number below a power of ten has at most that many digits. */
  lemma {:induction false} DigitsAreFew(n: nat, k: nat)
    requires 1 <= k && n < Pow10(k)
    ensures |NaturalText(n)| <= k
  {
    if n >= 10 {
      assert k > 1 && n / 10 < Pow10(k - 1);
      DigitsAreFew(n / 10, k - 1);
    }
  }

  /** Coefficients are the texts of zero and of the integers that are no multiples of ten. */
  lemma CoefficientIff(s: string)
    ensures IsCoefficient(s) <==> exists n: int :: s == IntegerText(n) && (n == 0 || n % 10 != 0)
  {
    IntegerTextIff(s);
    if IsInteger(s) {
      LastDigitShows(s);
      if n: int :| s == IntegerText(n) { IntegerTextIsInteger(n); }
      if IntegerValue(s) == 0 { ZeroIsWritten0(s); }
    }
  }

  lemma LastDigitShows(s: string)
    requires IsInteger(s)
    ensures IntegerValue(s) % 10 == 0 <==> s[|s| - 1] == '0'
    ensures s == "0" ==> IntegerValue(s) == 0
  {
    var m := Magnitude(s);
    assert IsNatural(m) && m[|m| - 1] == s[|s| - 1];
    NaturalLastDigit(m);
    if Negative(s) { SignKeepsTens(NaturalValue(m)); }
  }

  lemma SignKeepsTens(n: nat)
    ensures (0 - n) % 10 == 0 <==> n % 10 == 0
  {
  }

  lemma NaturalLastDigit(m: string)
    requires IsNatural(m)
    ensures NaturalValue(m) % 10 == 0 <==> m[|m| - 1] == '0'
    ensures m == "0" ==> NaturalValue(m) == 0
  {
    var last := m[|m| - 1];
    assert IsDigit(last);
    assert NaturalValue(m) == 10 * NaturalValue(m[..|m| - 1]) + DigitValue(last);
    if m == "0" { assert m[..0] == ""; }
  }

  function Pow10(n: nat): (p: nat)
    ensures p >= 1
  {
    if n == 0 then 1 else 10 * Pow10(n - 1)
  }

  /** The decimal coefficient * 10^exponent, counted in units of 10^-18. */
  function Scaled(coefficient: string, exponent: int): int
    requires -18 <= exponent
  {
    IntegerValue(coefficient) * Pow10(exponent + 18)
  }

  predicate IsDecimal(coefficient: string, exponent: int) {
    && IsCoefficient(coefficient)
    && -18 <= exponent <= 18
    && (coefficient == "0" ==> exponent == 0)
  }

  lemma {:induction false} PowersSplit(m: nat, n: nat)
    ensures Pow10(m + n) == Pow10(m) * Pow10(n)
  {
    if n > 0 {
      PowersSplit(m, n - 1);
      assert Pow10(m + n) == 10 * (Pow10(m) * Pow10(n - 1));
    }
  }

  lemma FactorCancels(p: nat, a: int, b: int)
    requires p >= 1 && p * a == p * b
    ensures a == b
  {
    assert p * (a - b) == 0;
  }

  lemma FactorMoves(a: int, b: int, p: nat, q: int)
    requires p >= 1 && a * p == b * (p * (10 * q))
    ensures a == 10 * (b * q)
  {
    assert b * (p * (10 * q)) == p * (10 * (b * q));
    FactorCancels(p, a, 10 * (b * q));
  }

  /** The last digit of a canonical coefficient shows: it is no multiple of ten unless it is zero. */
  lemma CoefficientEndsInDigit(s: string, k: int)
    requires IsCoefficient(s) && IntegerValue(s) == 10 * k
    ensures s == "0"
  {
    var m := Magnitude(s);
    var front, last := m[..|m| - 1], m[|m| - 1];
    assert last == s[|s| - 1];
    assert NaturalValue(m) == 10 * NaturalValue(front) + DigitValue(last);
    assert IsDigit(last) by { assert AllDigits(m); }
  }

  lemma PowersNest(d: int, e: int)
    requires -18 <= d < e
    ensures Pow10(e + 18) == Pow10(d + 18) * (10 * Pow10(e - d - 1))
  {
    PowersSplit(d + 18, e - d);
  }

  lemma ZeroIsWritten0(s: string)
    requires IsInteger(s) && IntegerValue(s) == 0
    ensures s == "0"
  {
    if s != "0" { NaturalsArePositive(Magnitude(s)); }
  }

  lemma OnlyZeroIsTenfold(s: string, b: int, q: nat)
    requires IsCoefficient(s) && q >= 1 && IntegerValue(s) == 10 * (b * q)
    ensures s == "0" && b == 0
  {
    CoefficientEndsInDigit(s, b * q);
    assert DigitValue('0') == 0 && NaturalValue("0") == 0;
    FactorCancels(q, b, 0);
  }

  /** Decimals of different exponents differ, because a coefficient never ends in a zero. */
  lemma ExponentsShow(s: string, d: int, t: string, e: int)
    requires IsDecimal(s, d) && IsDecimal(t, e) && d < e
    ensures Scaled(s, d) != Scaled(t, e)
  {
    var a, b := IntegerValue(s), IntegerValue(t);
    var p, q := Pow10(d + 18), Pow10(e - d - 1);
    PowersNest(d, e);
    if a * p == b * (p * (10 * q)) {
      FactorMoves(a, b, p, q);
      OnlyZeroIsTenfold(s, b, q);
      ZeroIsWritten0(t);
    }
  }

  lemma RightFactorCancels(p: nat, a: int, b: int)
    requires p >= 1
    ensures a * p == b * p <==> a == b
  {
    if a * p == b * p { assert (a - b) * p == 0; }
  }

  lemma SameExponentCompares(s: string, t: string, e: int)
    requires IsDecimal(s, e) && IsDecimal(t, e)
    ensures Scaled(s, e) == Scaled(t, e) <==> s == t
  {
    var a, b := IntegerValue(s), IntegerValue(t);
    RightFactorCancels(Pow10(e + 18), a, b);
    if a == b { IntegerTextIsUnique(s, t); }
  }

  /** Two accepted decimals are numerically equal iff their coefficient and exponent are equal. */
  lemma EqualDecimalsIff(s: string, d: int, t: string, e: int)
    requires IsDecimal(s, d) && IsDecimal(t, e)
    ensures Scaled(s, d) == Scaled(t, e) <==> s == t && d == e
  {
    if d < e {
      ExponentsShow(s, d, t, e);
    } else if e < d {
      ExponentsShow(t, e, s, d);
    } else {
      SameExponentCompares(s, t, e);
    }
  }
}
