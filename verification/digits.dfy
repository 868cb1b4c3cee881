/**
 Decimal numerals: the value a run of digits denotes (how strtol interprets the
 digits of its subject sequence) and the canonical numeral of a natural number
 (how printf's %i conversion writes one).
 */
module Digits {
  import opened CType

  /** 10 raised to the power n. */
  function Pow10(n: nat): (p: nat)
    ensures p >= 1
  {
    if n == 0 then 1 else 10 * Pow10(n - 1)
  }

  predicate AllDigits(s: string) {
    forall k :: 0 <= k < |s| ==> IsDigit(s[k])
  }

  /** A numeral as printf writes it: at least one digit, and no leading zero
      unless the numeral is "0" itself. */
  predicate Canonical(s: string) {
    |s| > 0 && AllDigits(s) && (s[0] != '0' || |s| == 1)
  }

  /** The value of a decimal numeral, most significant digit first; the empty
      numeral has value 0. A numeral of n digits stays below 10^n. */
  function Value(s: string): (v: nat)
    requires AllDigits(s)
    ensures v < Pow10(|s|)
    decreases |s|
  {
    if s == [] then 0 else 10 * Value(s[..|s| - 1]) + DigitValue(s[|s| - 1])
  }

  /** The canonical decimal numeral of n. */
  function Numeral(n: nat): (s: string)
    ensures Canonical(s)
    ensures |s| == 1 <==> n < 10
  {
    if n < 10 then [DigitChar(n)] else Numeral(n / 10) + [DigitChar(n % 10)]
  }

  /** Reading back a written numeral gives the number that was written. */
  lemma {:induction false} ValueOfNumeral(n: nat)
    ensures Value(Numeral(n)) == n
  {
    var s := Numeral(n);
    if n >= 10 {
      assert s[..|s| - 1] == Numeral(n / 10);
      ValueOfNumeral(n / 10);
    }
  }

  /** A numeral that does not start with 0 is worth at least 10^(length-1). */
  lemma {:induction false} ValueLowerBound(s: string)
    requires |s| > 0 && AllDigits(s) && s[0] != '0'
    ensures Value(s) >= Pow10(|s| - 1)
    decreases |s|
  {
    if |s| > 1 {
      ValueLowerBound(s[..|s| - 1]);
    }
  }

  /** Writing the value of a canonical numeral gives that numeral back, so
      Numeral and Value are inverse bijections between nat and the canonical
      numerals. */
  lemma {:induction false} NumeralOfValue(s: string)
    requires Canonical(s)
    ensures Numeral(Value(s)) == s
    decreases |s|
  {
    var n := Value(s);
    var c := s[|s| - 1];
    DigitCharOfValue(c);
    if |s| == 1 {
      assert n == DigitValue(c);
    } else {
      var p := s[..|s| - 1];
      ValueLowerBound(s);
      assert Pow10(|s| - 1) >= 10;
      assert n / 10 == Value(p) && n % 10 == DigitValue(c);
      NumeralOfValue(p);
      assert s == p + [c];
    }
  }
}
