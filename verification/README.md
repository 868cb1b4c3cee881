# httpd port-argument validation in Dafny

The program's `main` (httpd.c) only validates its command line. It needs exactly
one argument after the program name and converts it with `atoi`. It returns 1
when the argument count is wrong, when the converted port is 0, or when the port
lies outside 1024–65535. Otherwise it returns 0.

This project models that logic as pure functions and proves what it accepts and
rejects:

- `ctype.dfy` (`CType`): `isspace` and `isdigit` in the "C" locale (section 7.4
  of C11), plus digit values.
- `digits.dfy` (`Digits`): the value of a decimal numeral and the canonical
  numeral of a natural number, proved to be inverse to each other.
- `strtol.dfy` (`Strtol`): `atoi` as sections 7.22.1.2 and 7.22.1.4 of C11
  define it. The input splits into leading white space, an optional sign with
  the longest run of digits after it, and an ignored rest. Input with no digits
  in that position gives 0. The functional `Atoi` comes with two lemmas that
  describe its result on every string without referring to its body.
  `ScanAtoi` is the usual C-library loop, proved equal to `Atoi`. `FormatInt` is
  printf's `%i` conversion, with a round trip in each direction.
- `httpd.dfy` (`Httpd`): `main` as `Run`, from the argument vector to the
  messages printed and the exit code. `ExitCode` is the exit code alone.
  `Render` gives each message's text. The lemmas describe exactly which
  arguments are accepted.

`args` stands for `argv[0..argc)`, so `argc` is `|args|`. A C string cannot
contain a NUL character. The conversion and the exit code do not need that
restriction: a NUL is neither white space, a sign nor a digit, so `atoi` stops
at it just as it does at the end of the string. The rejection text does rely on
it, since `Render` copies the whole argument where `%s` would stop at a NUL.

Only a wrong argument count prints the usage line (httpd.c:7-10). A non-numeric
argument converts to 0 and gets the INVALID PORT message (httpd.c:12-16). After
the checks, main returns 0 (httpd.c:23). It opens no listener.

`CType.IsSpace`, `CType.IsDigit` and `Strtol.SignedValue` (the sign handling)
are parts of the conversion and belong to the `Strtol.Atoi` row below.

## Model

| member | source | states |
|---|---|---|
| Httpd.Run | httpd.c:4-24 | main exits with 0 or 1 only; on exit 0 it has printed exactly one line, the port echo |
| Httpd.ExitCode | httpd.c:4-24 | the exit code is always 0 or 1 |
| Httpd.Render | httpd.c:8-18 | each message text is non-empty and ends with a newline; the usage line and the port echo contain no other newline, while a rejection may, as it copies the argument as given |
| Httpd.RunWithoutZeroCheck | httpd.c:17-19 | main with the zero branch deleted still exits only with 0 or 1 |
| Httpd.WrongArgCountRejected | httpd.c:7-10 | any argument count other than two gives exit code 1 and only the usage line, whatever the arguments contain |
| Httpd.AcceptedExactly | httpd.c:7-23 | exit code 0 exactly when there is one argument and atoi of it lies in 1024..65535 |
| Httpd.RejectionQuotesArgument | httpd.c:14-19 | every rejection of a single argument prints the converted-port echo and then one INVALID PORT message, whose text quotes the raw argument and not the converted value |
| Httpd.ZeroCheckRedundant | httpd.c:14-19 | deleting the port == 0 branch changes neither the exit code nor the output |
| Httpd.OutOfRangeRejected | httpd.c:17-19 | a converted port below 1024 or above 65535 gives exit code 1 |
| Httpd.NoDigitsRejected | httpd.c:12-16 | an argument with no subject sequence after its white space converts to 0 and gets exactly the echo of 0, the INVALID PORT message and exit code 1 |
| Httpd.NegativeRejected | httpd.c:12-19 | an argument whose subject carries a minus sign is always rejected |
| Httpd.TrailingTextKeepsVerdict | httpd.c:12-20 | text after the argument's digits that does not start with a digit changes neither the echoed port nor the exit code |
| Httpd.EchoReadsBack | httpd.c:12-13 | the "port number:" line, read back with atoi after its label, gives the converted port |
| Httpd.AcceptedExamples | httpd.c:12-23 | "8080" and "8080xyz" are both accepted |
| Httpd.ValueOf8080 | httpd.c:12 | the digits "8080" have decimal value 8080 |
| Httpd.AtoiOf8080 | httpd.c:12 | atoi reads 8080 from both "8080" and "8080xyz" |
| Httpd.RefusedExamples | httpd.c:7-16 | "abc", "" and a missing argument are refused |
| Strtol.Atoi | httpd.c:12 | a string with no digit at all converts to 0 |
| Strtol.SpaceRun | httpd.c:12 | the leading white space atoi skips is the longest all-space prefix |
| Strtol.DigitRun | httpd.c:12 | the digits atoi reads are the longest all-digit prefix |
| Strtol.Magnitude | httpd.c:12 | input that does not start with a digit has magnitude 0 |
| Strtol.AtoiSkipsSpace | httpd.c:12 | leading white space of any length does not change the result |
| Strtol.MagnitudeOfDigits | httpd.c:12 | a run of digits followed by a non-digit has that run's decimal value as magnitude |
| Strtol.AtoiOfSubject | httpd.c:12 | for any split into white space, a subject of the expected form and a rest not starting with a digit, atoi gives the subject's signed value |
| Strtol.AtoiWithoutSubject | httpd.c:12 | when no sign-and-digits subject follows the leading white space, atoi gives 0 |
| Strtol.TrailingTextIgnored | httpd.c:12 | appending text that does not start with a digit to a complete subject leaves atoi's result unchanged |
| Strtol.SkipSpace | httpd.c:12 | the white-space loop stops at the first non-space character |
| Strtol.AccumulateDigits | httpd.c:12 | the digit loop computes the value of the longest digit run at its start index |
| Strtol.ScanAtoi | httpd.c:12 | the C-library loop formulation of atoi agrees with Atoi on every string |
| Strtol.FormatInt | httpd.c:13 | %i prints a canonical numeral, with a minus sign before a non-zero numeral for negative values |
| Strtol.AtoiOfNumeral | httpd.c:12-13 | atoi of a printed numeral, with or without a minus sign, is the printed number |
| Strtol.AtoiOfFormatInt | httpd.c:12-13 | atoi of what %i prints is the printed int |
| Strtol.FormatIntOfAtoi | httpd.c:12-13 | %i of atoi of a canonical integer text is that text |
| Digits.Value | httpd.c:12 | an n-digit numeral is worth less than 10^n |
| Digits.Numeral | httpd.c:13 | the printed numeral is canonical and has one digit exactly for numbers below 10 |
| Digits.ValueOfNumeral | httpd.c:12-13 | reading back a printed numeral gives the number |
| Digits.ValueLowerBound | httpd.c:12 | a numeral without a leading zero is worth at least 10^(length-1) |
| Digits.NumeralOfValue | httpd.c:12-13 | printing the value of a canonical numeral gives that numeral back |

## Left out

- Strtol.Atoi: conversion is over unbounded integers. A subject too large for a
  C `int` is undefined behaviour in C (section 7.22.1.2 of C11). In the model it
  yields its exact value and is rejected as out of range. A C library that
  computes a wider `long` and then truncates it to `int` could accept some huge
  arguments; that implementation-specific behaviour is not modelled.
- The writing of the printf output to stdout. The model records which messages
  are chosen, in order, and their text, but not the stream.
- Locales other than "C": `isspace` and `isdigit` use the "C" locale's
  character classes.
- The HTTP request pipeline (sockets, request-line parsing, static files,
  program invocation, response framing). The source contains none of it, only
  the argument check, so there is nothing to model.
