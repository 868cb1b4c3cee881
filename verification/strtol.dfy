/**
 atoi, the conversion main applies to its port argument. Section 7.22.1.2 of
 C11 defines atoi(s) as (int)strtol(s, NULL, 10), and section 7.22.1.4 defines
 strtol: the input splits into a run of white space, a subject sequence (an
 optional sign followed by the longest non-empty run of decimal digits) and an
 unrecognised rest; the digits give the value, negated after a minus sign; with
 no subject sequence the result is 0.

 Integers are unbounded here: a subject too large for int, which is undefined
 behaviour in C, simply yields its exact value.
 */
module Strtol {
  import opened CType
  import opened Digits

  /** Length of the longest prefix of s made of white space. */
  function SpaceRun(s: string): (n: nat)
    ensures n <= |s|
    ensures forall k :: 0 <= k < n ==> IsSpace(s[k])
    ensures n == |s| || !IsSpace(s[n])
  {
    if s == [] || !IsSpace(s[0]) then 0 else 1 + SpaceRun(s[1..])
  }

  /** Length of the longest prefix of s made of decimal digits. */
  function DigitRun(s: string): (n: nat)
    ensures n <= |s|
    ensures forall k :: 0 <= k < n ==> IsDigit(s[k])
    ensures n == |s| || !IsDigit(s[n])
  {
    if s == [] || !IsDigit(s[0]) then 0 else 1 + DigitRun(s[1..])
  }

  predicate IsSign(c: char) {
    c == '+' || c == '-'
  }

  /** A subject sequence of the form strtol expects in base 10: an optional
      sign, then at least one digit. */
  predicate ExpectedForm(t: string) {
    if |t| > 0 && IsSign(t[0]) then |t| > 1 && AllDigits(t[1..])
    else |t| > 0 && AllDigits(t)
  }

  /** The value of a subject sequence: its digits, negated after a minus. */
  function SubjectValue(t: string): int
    requires ExpectedForm(t)
  {
    if t[0] == '-' then -(Value(t[1..]) as int)
    else if t[0] == '+' then Value(t[1..])
    else Value(t)
  }

  /** Whether a string that does not start with white space begins a subject
      sequence: a digit, or a sign followed by a digit. */
  predicate StartsSubject(r: string) {
    (|r| > 0 && IsDigit(r[0])) || (|r| > 1 && IsSign(r[0]) && IsDigit(r[1]))
  }

  /** The value of the longest run of digits at the start of body. */
  function Magnitude(body: string): (m: nat)
    ensures (body == [] || !IsDigit(body[0])) ==> m == 0
  {
    Value(body[..DigitRun(body)])
  }

  /** The value of the subject sequence at the start of rest (which does not
      start with white space): a minus sign negates the magnitude, a plus sign
      is skipped. */
  function SignedValue(rest: string): int {
    if |rest| > 0 && rest[0] == '-' then -(Magnitude(rest[1..]) as int)
    else if |rest| > 0 && rest[0] == '+' then Magnitude(rest[1..])
    else Magnitude(rest)
  }

  /** atoi over unbounded integers. A string without any digit converts to 0. */
  function Atoi(s: string): (v: int)
    ensures (forall k :: 0 <= k < |s| ==> !IsDigit(s[k])) ==> v == 0
  {
    var rest := s[SpaceRun(s)..];
    assert |rest| > 1 ==> rest[1] == s[SpaceRun(s) + 1];
    assert |rest| > 0 ==> rest[0] == s[SpaceRun(s)];
    SignedValue(rest)
  }

  /** Leading white space of any length is skipped. */
  lemma AtoiSkipsSpace(w: string, rest: string)
    requires forall k :: 0 <= k < |w| ==> IsSpace(w[k])
    requires rest == [] || !IsSpace(rest[0])
    ensures Atoi(w + rest) == SignedValue(rest)
  {
    var s := w + rest;
    assert SpaceRun(s) == |w| by {
      if |rest| > 0 {
        assert s[|w|] == rest[0];
      }
    }
    assert s[|w|..] == rest;
  }

  /** A run of digits followed by something that is not a digit has the
      run's value as magnitude. */
  lemma MagnitudeOfDigits(d: string, r: string)
    requires AllDigits(d)
    requires r == [] || !IsDigit(r[0])
    ensures Magnitude(d + r) == Value(d)
  {
    var body := d + r;
    if |r| > 0 {
      assert body[|d|] == r[0];
    }
    assert DigitRun(body) == |d|;
    assert body[..|d|] == d;
    assert AllDigits(body[..DigitRun(body)]);
  }

  /** Any split of s into white space w, a subject t of the expected form and a
      rest r that does not continue t's digits determines the result: it is
      t's value. */
  lemma AtoiOfSubject(s: string, w: string, t: string, r: string)
    requires s == w + t + r
    requires forall k :: 0 <= k < |w| ==> IsSpace(w[k])
    requires ExpectedForm(t)
    requires r == [] || !IsDigit(r[0])
    ensures Atoi(s) == SubjectValue(t)
  {
    assert s == w + (t + r);
    AtoiSkipsSpace(w, t + r);
    if IsSign(t[0]) {
      assert (t + r)[1..] == t[1..] + r;
      MagnitudeOfDigits(t[1..], r);
    } else {
      MagnitudeOfDigits(t, r);
    }
  }

  /** When, after its leading white space, s does not begin a subject
      sequence, there is nothing to convert and the result is 0. */
  lemma AtoiWithoutSubject(s: string, w: string, r: string)
    requires s == w + r
    requires forall k :: 0 <= k < |w| ==> IsSpace(w[k])
    requires r == [] || !IsSpace(r[0])
    requires !StartsSubject(r)
    ensures Atoi(s) == 0
  {
    AtoiSkipsSpace(w, r);
  }

  /** Only the numeric prefix counts: once a subject sequence is complete,
      whatever follows that does not start with a digit leaves the result
      unchanged ("8080xyz" converts like "8080"). */
  lemma TrailingTextIgnored(w: string, t: string, tail: string)
    requires forall k :: 0 <= k < |w| ==> IsSpace(w[k])
    requires ExpectedForm(t)
    requires tail == [] || !IsDigit(tail[0])
    ensures Atoi(w + t + tail) == Atoi(w + t)
  {
    AtoiOfSubject(w + t + tail, w, t, tail);
    AtoiOfSubject(w + t, w, t, []);
  }

  /** The white-space loop of a C library atoi: the index of the first
      character that is not white space. */
  method SkipSpace(s: string) returns (i: nat)
    ensures i == SpaceRun(s)
  {
    i := 0;
    while i < |s| && IsSpace(s[i])
      invariant i <= |s|
      invariant forall k :: 0 <= k < i ==> IsSpace(s[k])
    {
      i := i + 1;
    }
  }

  /** The digit loop of a C library atoi: starting at index start, accumulate
      digits left to right, multiplying by ten before adding each one. */
  method AccumulateDigits(s: string, start: nat) returns (magnitude: nat)
    requires start <= |s|
    ensures magnitude == Magnitude(s[start..])
  {
    var i := start;
    magnitude := 0;
    while i < |s| && IsDigit(s[i])
      invariant start <= i <= |s|
      invariant AllDigits(s[start..i])
      invariant magnitude == Value(s[start..i])
    {
      assert s[start..i + 1] == s[start..i] + [s[i]];
      magnitude := 10 * magnitude + DigitValue(s[i]);
      i := i + 1;
    }
    assert s[start..] == s[start..i] + s[i..];
    MagnitudeOfDigits(s[start..i], s[i..]);
  }

  /** atoi as a C library computes it: skip white space, note the sign, then
      accumulate digits. It agrees with Atoi on every string. */
  method ScanAtoi(s: string) returns (v: int)
    ensures v == Atoi(s)
  {
    var i := SkipSpace(s);
    var negative := false;
    if i < |s| && IsSign(s[i]) {
      negative := s[i] == '-';
      assert s[i..][1..] == s[i + 1..];
      i := i + 1;
    }
    var magnitude := AccumulateDigits(s, i);
    v := if negative then -(magnitude as int) else magnitude;
  }

  /** printf's %i conversion of an int: a minus sign for negative values, then
      the canonical numeral of the magnitude (section 7.21.6.1 of C11). */
  function FormatInt(n: int): (s: string)
    ensures |s| > 0
    ensures n >= 0 ==> Canonical(s)
    ensures n < 0 ==> s[0] == '-' && Canonical(s[1..]) && s[1..] != "0"
  {
    if n < 0 then "-" + Numeral(-n) else Numeral(n)
  }

  /** The strings FormatInt can produce. */
  predicate CanonicalInt(s: string) {
    Canonical(s) || (|s| > 1 && s[0] == '-' && Canonical(s[1..]) && s[1..] != "0")
  }

  /** Converting a printed numeral, with or without a minus sign in front,
      recovers its number. */
  lemma AtoiOfNumeral(n: nat, negative: bool)
    ensures Atoi(if negative then "-" + Numeral(n) else Numeral(n)) == if negative then -(n as int) else n
  {
    var d := Numeral(n);
    ValueOfNumeral(n);
    if negative {
      var s := "-" + d;
      assert s == [] + s + [] && s[1..] == d;
      AtoiOfSubject(s, [], s, []);
    } else {
      assert d == [] + d + [];
      AtoiOfSubject(d, [], d, []);
    }
  }

  /** Converting printed text back with atoi recovers the printed int. */
  lemma AtoiOfFormatInt(n: int)
    ensures Atoi(FormatInt(n)) == n
  {
    if n < 0 {
      AtoiOfNumeral(-n, true);
    } else {
      AtoiOfNumeral(n, false);
    }
  }

  /** Printing the conversion of a canonical integer text gives that text back. */
  lemma FormatIntOfAtoi(s: string)
    requires CanonicalInt(s)
    ensures FormatInt(Atoi(s)) == s
  {
    assert s == [] + s + [];
    if Canonical(s) {
      assert !IsSign(s[0]);
      AtoiOfSubject(s, [], s, []);
      NumeralOfValue(s);
    } else {
      var d := s[1..];
      assert d[0] != '0' by {
        if |d| == 1 {
          assert d == [d[0]];
        }
      }
      AtoiOfSubject(s, [], s, []);
      ValueLowerBound(d);
      NumeralOfValue(d);
      assert s == "-" + d;
    }
  }
}
