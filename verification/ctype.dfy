/**
 Character classes that the conversion of a command-line argument relies on,
 as the C standard library defines them in the "C" locale (section 7.4 of C11).
 */
module CType {

  /** isspace: space, horizontal tab, new-line, vertical tab, form feed and
      carriage return (section 7.4.1.10 of C11); the last five are the
      consecutive codes 9 to 13. */
  predicate IsSpace(c: char) {
    c == ' ' || '\t' <= c <= '\r'
  }

  /** isdigit: the ten decimal digits (section 7.4.1.5 of C11). */
  predicate IsDigit(c: char) {
    '0' <= c <= '9'
  }

  /** The numeric value of a decimal digit character. */
  function DigitValue(c: char): (v: nat)
    requires IsDigit(c)
    ensures v < 10
  {
    c as int - '0' as int
  }

  /** The character that spells a one-digit number. */
  function DigitChar(v: nat): (c: char)
    requires v < 10
    ensures IsDigit(c) && DigitValue(c) == v
    ensures !IsSpace(c) && c != '+' && c != '-'
  {
    ('0' as int + v) as char
  }

  /** Digit characters and their values are in one-to-one correspondence. */
  lemma DigitCharOfValue(c: char)
    requires IsDigit(c)
    ensures DigitChar(DigitValue(c)) == c
  {
  }
}
