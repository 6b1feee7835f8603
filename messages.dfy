/**
 * The failure classifier: from the failure `run` caught to the one diagnostic
 * string handed to the reporting sink (`print_error_message`).
 *
 * Priority of the cases: a `CalledProcessError` is an exit-code failure, named
 * after its fatal signal when its code encodes a known one; a
 * `FileNotFoundError` means the shell interpreter itself is missing; any other
 * exception is reported by its own text. The command named in a message is
 * always the runner's, never the one stored in the exception.
 */
module Messages {
  import opened Wrappers
  import Decimal
  import Signals
  import Text

  /** The failure caught while running the shell. */
  datatype Failure =
    | CalledProcessError(returnCode: int, cmd: string, output: string)
    | FileNotFoundError
    | OtherException(text: string)

  /** What the classifier decides a failure is. */
  datatype Category =
    | ExitStatus(code: int)
    | FatalSignalExit(info: Signals.SignalInfo)
    | InterpreterMissing
    | Unclassified(text: string)

  const ExitedPrefix := "Shell exited "
  const FatalSignalPrefix := "Shell exited from fatal signal "
  const RunningInfix := " when running: "
  const OutputHeading := "\n\nCommand output was:\n"
  const MissingShellPrefix := "Unable to run shell commands using "

  function Classify(f: Failure): (c: Category)
    ensures c.ExitStatus? || c.FatalSignalExit? <==> f.CalledProcessError?
    ensures c.ExitStatus? ==> c.code == f.returnCode && Signals.FatalSignalOfCode(c.code).None?
    ensures c.FatalSignalExit? ==> Signals.FatalSignalOfCode(f.returnCode) == Some(c.info)
    ensures c.InterpreterMissing? <==> f.FileNotFoundError?
    ensures c.Unclassified? <==> f.OtherException?
    ensures c.Unclassified? ==> c.text == f.text
  {
    match f
    case CalledProcessError(code, _, _) =>
      (match Signals.FatalSignalOfCode(code)
       case Some(info) => FatalSignalExit(info)
       case None => ExitStatus(code))
    case FileNotFoundError => InterpreterMissing
    case OtherException(text) => Unclassified(text)
  }

  function HintSection(hint: Option<string>): string
  {
    match hint
    case Some(h) => "\n\n" + h
    case None => ""
  }

  /** The first line of an exit-code or fatal-signal message. */
  function Headline(cmd: string, f: Failure): string
    requires f.CalledProcessError?
  {
    match Classify(f)
    case FatalSignalExit(info) => FatalSignalPrefix + info.name + RunningInfix + cmd
    case ExitStatus(code) => ExitedPrefix + Decimal.IntToString(code) + RunningInfix + cmd
  }

  /**
   * The diagnostic for failure `f` of the runner whose command is `cmd` and
   * whose shell interpreter is `shell`.
   */
  function RenderMessage(cmd: string, shell: string, f: Failure): (r: string)
    ensures f.FileNotFoundError? ==> r == MissingShellPrefix + shell
    ensures f.OtherException? ==> r == f.text
  {
    match Classify(f)
    case ExitStatus(_) => Headline(cmd, f) + OutputHeading + f.output
    case FatalSignalExit(info) => Headline(cmd, f) + HintSection(info.hint)
    case InterpreterMissing => MissingShellPrefix + shell
    case Unclassified(text) => text
  }

  /** The text up to the first space. */
  function Token(s: string): (t: string)
    ensures t <= s && ' ' !in t
  {
    if s == [] || s[0] == ' ' then [] else [s[0]] + Token(s[1..])
  }

  lemma {:induction false} TokenBeforeSpace(t: string, rest: string)
    requires ' ' !in t
    ensures Token(t + " " + rest) == t
  {
    if t != [] {
      assert (t + " " + rest)[1..] == t[1..] + " " + rest;
      TokenBeforeSpace(t[1..], rest);
    }
  }

  /** A reader of diagnostics: the exit code a "Shell exited <code>" message reports. */
  function ReportedExitCode(msg: string): Option<int>
  {
    if ExitedPrefix <= msg then Decimal.ParseInt(Token(msg[|ExitedPrefix|..])) else None
  }

  /** A reader of diagnostics: the signal a "fatal signal <name>" message reports. */
  function ReportedSignalName(msg: string): Option<string>
  {
    if FatalSignalPrefix <= msg then Some(Token(msg[|FatalSignalPrefix|..])) else None
  }

  /** The reader sees a code, and no signal, in any text that starts with an exit-code headline. */
  lemma ReadExitHeadline(code: int, rest: string)
    ensures ReportedExitCode(ExitedPrefix + Decimal.IntToString(code) + " " + rest) == Some(code)
    ensures ReportedSignalName(ExitedPrefix + Decimal.IntToString(code) + " " + rest).None?
  {
    var digits := Decimal.IntToString(code);
    var msg := ExitedPrefix + digits + " " + rest;
    assert msg[|ExitedPrefix|..] == digits + " " + rest;
    TokenBeforeSpace(digits, rest);
    Decimal.IntToStringRoundTrip(code);
    assert msg[|ExitedPrefix|] == digits[0];
    assert digits[0] == '-' || Decimal.IsDigit(digits[0]);
  }

  /** The reader sees a signal name, and no code, in any text that starts with a fatal-signal headline. */
  lemma ReadSignalHeadline(name: string, rest: string)
    requires ' ' !in name
    ensures ReportedSignalName(FatalSignalPrefix + name + " " + rest) == Some(name)
    ensures ReportedExitCode(FatalSignalPrefix + name + " " + rest).None?
  {
    var msg := FatalSignalPrefix + name + " " + rest;
    assert msg[|FatalSignalPrefix|..] == name + " " + rest;
    TokenBeforeSpace(name, rest);
    var after := "fatal signal " + name + " " + rest;
    assert msg[|ExitedPrefix|..] == "from" + " " + after;
    TokenBeforeSpace("from", after);
    assert !Decimal.IsDigit("from"[0]);
  }

  /** An exit-code message reads back as exactly its code, and as no signal. */
  lemma ExitMessageReadsBack(cmd: string, shell: string, f: Failure)
    requires f.CalledProcessError? && Signals.FatalSignalOfCode(f.returnCode).None?
    ensures ReportedExitCode(RenderMessage(cmd, shell, f)) == Some(f.returnCode)
    ensures ReportedSignalName(RenderMessage(cmd, shell, f)).None?
  {
    var rest := RunningInfix[1..] + cmd + OutputHeading + f.output;
    assert RenderMessage(cmd, shell, f) == ExitedPrefix + Decimal.IntToString(f.returnCode) + " " + rest;
    ReadExitHeadline(f.returnCode, rest);
  }

  /**
   * A fatal-signal message reads back as exactly the signal its code
   * encodes, and as no exit code.
   */
  lemma SignalMessageReadsBack(cmd: string, shell: string, f: Failure)
    requires f.CalledProcessError? && Signals.FatalSignalOfCode(f.returnCode).Some?
    ensures ReportedSignalName(RenderMessage(cmd, shell, f)) == Some(Signals.FatalSignalOfCode(f.returnCode).value.name)
    ensures Signals.SignalNumber(Signals.FatalSignalOfCode(f.returnCode).value.name) == Signals.SignalFromReturnCode(f.returnCode)
    ensures ReportedExitCode(RenderMessage(cmd, shell, f)).None?
  {
    var info := Signals.FatalSignalOfCode(f.returnCode).value;
    var rest := RunningInfix[1..] + cmd + HintSection(info.hint);
    assert RenderMessage(cmd, shell, f) == FatalSignalPrefix + info.name + " " + rest;
    ReadSignalHeadline(info.name, rest);
  }

  /**
   * The command named after "when running:" is the runner's own; the command
   * stored in the exception plays no part in the diagnostic.
   */
  lemma MessageNamesRunnerCommand(cmd: string, shell: string, f: Failure, other: string)
    requires f.CalledProcessError?
    ensures Text.Contains(RenderMessage(cmd, shell, f), RunningInfix + cmd)
    ensures RenderMessage(cmd, shell, f) == RenderMessage(cmd, shell, f.(cmd := other))
  {
    var msg := RenderMessage(cmd, shell, f);
    match Classify(f)
    case ExitStatus(code) =>
      var lead := ExitedPrefix + Decimal.IntToString(code);
      assert msg == lead + (RunningInfix + cmd) + (OutputHeading + f.output);
      Text.SplicedIsContained(lead, RunningInfix + cmd, OutputHeading + f.output);
    case FatalSignalExit(info) =>
      var lead := FatalSignalPrefix + info.name;
      assert msg == lead + (RunningInfix + cmd) + HintSection(info.hint);
      Text.SplicedIsContained(lead, RunningInfix + cmd, HintSection(info.hint));
  }

  /** An ordinary exit-code message starts with its headline and shows the captured output after it. */
  lemma ExitMessageShowsOutput(cmd: string, shell: string, f: Failure)
    requires f.CalledProcessError? && Signals.FatalSignalOfCode(f.returnCode).None?
    ensures ExitedPrefix + Decimal.IntToString(f.returnCode) + RunningInfix + cmd <= RenderMessage(cmd, shell, f)
    ensures Text.ContainsInOrder(RenderMessage(cmd, shell, f),
      ExitedPrefix + Decimal.IntToString(f.returnCode) + RunningInfix + cmd, f.output)
  {
    var headline := ExitedPrefix + Decimal.IntToString(f.returnCode) + RunningInfix + cmd;
    assert RenderMessage(cmd, shell, f) == headline + OutputHeading + f.output + [];
    Text.SplicedInOrder(headline, OutputHeading, f.output, []);
  }

  /**
   * A fatal-signal message is exactly its headline, except for the kill
   * signal, whose headline is followed by the out-of-memory hint.
   */
  lemma FatalSignalMessage(cmd: string, shell: string, f: Failure)
    requires f.CalledProcessError? && Signals.FatalSignalOfCode(f.returnCode).Some?
    ensures Signals.FatalSignalOfCode(f.returnCode).value.hint.None? ==>
      RenderMessage(cmd, shell, f) == FatalSignalPrefix + Signals.FatalSignalOfCode(f.returnCode).value.name + RunningInfix + cmd
    ensures Signals.FatalSignalOfCode(f.returnCode).value.hint.Some? ==>
      Signals.SignalFromReturnCode(f.returnCode) == Some(Signals.SIGKILL) &&
      Text.ContainsInOrder(RenderMessage(cmd, shell, f), FatalSignalPrefix + "SIGKILL" + RunningInfix + cmd, Signals.OutOfMemory)
  {
    var info := Signals.FatalSignalOfCode(f.returnCode).value;
    var headline := FatalSignalPrefix + info.name + RunningInfix + cmd;
    if info.hint.Some? {
      var n :| Signals.SignalFromReturnCode(f.returnCode) == Some(n) && Signals.FatalSignal(n) == Some(info);
      assert n == Signals.SIGKILL;
      assert RenderMessage(cmd, shell, f) ==
        headline + ("\n\n" + Signals.HintLead) + Signals.OutOfMemory + Signals.HintTail;
      Text.SplicedInOrder(headline, "\n\n" + Signals.HintLead, Signals.OutOfMemory, Signals.HintTail);
    }
  }
}
