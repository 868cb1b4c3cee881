/**
 The command-line validation in main of httpd.c: exactly one argument after the
 program name, converted with atoi, must give a port in 1024..65535. main
 returns 1 on a wrong argument count, on a port of 0 and on a port outside the
 range, and 0 otherwise.

 The printf calls are recorded as the messages main chooses; Render gives the
 text each one formats to, and the stream they are written to is left out.
 */
module Httpd {
  import opened CType
  import opened Digits
  import opened Strtol

  /** The accepted port range, inclusive at both ends. */
  const MinPort: int := 1024
  const MaxPort: int := 65535

  /** The lines main prints, by variant. */
  datatype Message =
    | Usage                    // wrong number of arguments
    | PortNumber(port: int)    // echo of the converted port
    | InvalidPort(got: string) // rejected port, quoting the argument as given

  /** What one run of main produces: the messages in order and the exit code. */
  datatype Outcome = Outcome(output: seq<Message>, exitCode: int)

  /** The text printf formats for each message. The usage line and the echo
      are single lines; a rejection copies the argument as given, so it spans
      more than one line when the argument holds a newline. */
  function Render(m: Message): (text: string)
    ensures |text| > 0 && text[|text| - 1] == '\n'
    ensures !m.InvalidPort? ==> forall k :: 0 <= k < |text| - 1 ==> text[k] != '\n'
  {
    match m
    case Usage => "ERROR: expected ./httpd <SERVER PORT>\n"
    case PortNumber(p) => EchoLabel + FormatInt(p) + "\n"
    case InvalidPort(got) => RejectionPrefix + got + "]\n"
  }

  /** The fixed text before the echoed port. */
  const EchoLabel: string := "port number: "

  /** The fixed text before the quoted argument in a rejection message. */
  const RejectionPrefix: string :=
    "ERROR: INVALID PORT - Port must be between 1024 and 65535 [GOT: "

  /** main(argc, argv), with args standing for argv[0..argc): argc is |args|
      and args[0] is the program name. */
  function Run(args: seq<string>): (o: Outcome)
    ensures o.exitCode == 0 || o.exitCode == 1
    ensures o.exitCode == 0 ==> |o.output| == 1 && o.output[0].PortNumber?
  {
    if |args| != 2 then
      Outcome([Usage], 1)
    else
      var port := Atoi(args[1]);
      var echoed := [PortNumber(port)];
      if port == 0 then
        Outcome(echoed + [InvalidPort(args[1])], 1)
      else if port < MinPort || port > MaxPort then
        Outcome(echoed + [InvalidPort(args[1])], 1)
      else
        Outcome(echoed, 0)
  }

  /** The exit code alone. */
  function ExitCode(args: seq<string>): (code: int)
    ensures code == 0 || code == 1
  {
    Run(args).exitCode
  }

  /** main with the branch for a port of 0 deleted, leaving the range test. */
  function RunWithoutZeroCheck(args: seq<string>): (o: Outcome)
    ensures o.exitCode == 0 || o.exitCode == 1
  {
    if |args| != 2 then
      Outcome([Usage], 1)
    else
      var port := Atoi(args[1]);
      var echoed := [PortNumber(port)];
      if port < MinPort || port > MaxPort then
        Outcome(echoed + [InvalidPort(args[1])], 1)
      else
        Outcome(echoed, 0)
  }

  /** The port arguments main accepts: those whose numeric prefix lies in the
      port range. */
  predicate AcceptedPort(arg: string) {
    MinPort <= Atoi(arg) <= MaxPort
  }

  /** Any argument count but two is refused with the usage message alone,
      whatever the arguments contain. */
  lemma WrongArgCountRejected(args: seq<string>)
    requires |args| != 2
    ensures ExitCode(args) == 1
    ensures Run(args).output == [Usage]
  {
  }

  /** main succeeds exactly when it is given one argument whose numeric prefix
      is a port in range. */
  lemma AcceptedExactly(args: seq<string>)
    ensures ExitCode(args) == 0 <==> |args| == 2 && AcceptedPort(args[1])
  {
  }

  /** Every rejection of a single argument echoes the converted port and then
      quotes the argument itself, not the converted value; both rejection
      branches print the same message. */
  lemma RejectionQuotesArgument(args: seq<string>)
    requires |args| == 2 && ExitCode(args) == 1
    ensures Run(args).output == [PortNumber(Atoi(args[1])), InvalidPort(args[1])]
    ensures Render(Run(args).output[1]) == RejectionPrefix + args[1] + "]\n"
  {
  }

  /** The branch for a port of 0 is redundant: deleting it changes neither
      the exit code nor the output, because 0 already fails the range test. */
  lemma ZeroCheckRedundant(args: seq<string>)
    ensures RunWithoutZeroCheck(args) == Run(args)
  {
  }

  /** A port below the range or above it is rejected. */
  lemma OutOfRangeRejected(program: string, arg: string)
    requires Atoi(arg) < MinPort || Atoi(arg) > MaxPort
    ensures ExitCode([program, arg]) == 1
  {
  }

  /** An argument with no digits where atoi looks for them (after white space,
      and after an optional sign) converts to 0 and is rejected. */
  lemma NoDigitsRejected(program: string, arg: string, w: string, r: string)
    requires arg == w + r
    requires forall k :: 0 <= k < |w| ==> IsSpace(w[k])
    requires r == [] || !IsSpace(r[0])
    requires !StartsSubject(r)
    ensures Atoi(arg) == 0
    ensures Run([program, arg]) == Outcome([PortNumber(0), InvalidPort(arg)], 1)
  {
    AtoiWithoutSubject(arg, w, r);
  }

  /** A minus sign in front of the digits always means rejection. */
  lemma NegativeRejected(program: string, w: string, digits: string, r: string)
    requires forall k :: 0 <= k < |w| ==> IsSpace(w[k])
    requires ExpectedForm("-" + digits)
    requires r == [] || !IsDigit(r[0])
    ensures ExitCode([program, w + "-" + digits + r]) == 1
  {
    AtoiOfSubject(w + "-" + digits + r, w, "-" + digits, r);
  }

  /** Only the numeric prefix of the argument matters: text after its digits
      that does not start with a digit leaves the echoed port and the verdict
      unchanged. */
  lemma TrailingTextKeepsVerdict(program: string, w: string, t: string, tail: string)
    requires forall k :: 0 <= k < |w| ==> IsSpace(w[k])
    requires ExpectedForm(t)
    requires tail == [] || !IsDigit(tail[0])
    ensures ExitCode([program, w + t + tail]) == ExitCode([program, w + t])
    ensures Run([program, w + t + tail]).output[0] == Run([program, w + t]).output[0]
  {
    TrailingTextIgnored(w, t, tail);
  }

  /** The echoed line, read back with atoi after its label, gives the port. */
  lemma EchoReadsBack(port: int)
    ensures Atoi(Render(PortNumber(port))[|EchoLabel|..]) == port
  {
    var digits := FormatInt(port);
    assert Render(PortNumber(port))[|EchoLabel|..] == [] + digits + "\n";
    assert [] + digits == digits;
    TrailingTextIgnored([], digits, "\n");
    AtoiOfFormatInt(port);
  }

  /** The decimal value of "8080", digit by digit. */
  lemma ValueOf8080()
    ensures Value("8080") == 8080
  {
    assert "8080"[..3] == "808" && "808"[..2] == "80" && "80"[..1] == "8";
  }

  /** atoi reads 8080 from "8080" and from "8080xyz". */
  lemma AtoiOf8080()
    ensures Atoi("8080") == 8080 && Atoi("8080xyz") == 8080
  {
    ValueOf8080();
    assert "8080" == [] + "8080" + [];
    AtoiOfSubject("8080", [], "8080", []);
    assert "8080xyz" == [] + "8080" + "xyz";
    AtoiOfSubject("8080xyz", [], "8080", "xyz");
  }

  /** "8080" is accepted, and so is "8080xyz": only the numeric prefix counts. */
  lemma AcceptedExamples()
    ensures ExitCode(["./httpd", "8080"]) == 0
    ensures ExitCode(["./httpd", "8080xyz"]) == 0
  {
    AtoiOf8080();
  }

  /** "abc" and the empty argument convert to 0 and are refused, and so is a
      command line without an argument. */
  lemma RefusedExamples()
    ensures ExitCode(["./httpd", "abc"]) == 1
    ensures ExitCode(["./httpd", ""]) == 1
    ensures ExitCode(["./httpd"]) == 1
  {
    assert "abc" == [] + "abc";
    AtoiWithoutSubject("abc", [], "abc");
    AtoiWithoutSubject("", [], "");
  }
}
