# Shell command runner — a Dafny model

This project models `ShellCommandRunner` from augur's `util_support` package:
the component that runs one command through `/bin/bash`, and when the command
fails turns the failure into one human-readable diagnostic. The behaviour is
the one its test suite asserts (`tests/util_support/test_shell_command_runner.py`).
The implementation module `augur/util_support/shell_command_runner.py` is not
part of this model. Everything here is pure: datatypes, functions and lemmas.

- `Messages` is the failure classifier (`print_error_message`). A failure is one of:
  - `CalledProcessError(returnCode, cmd, output)`;
  - `FileNotFoundError`, meaning the shell interpreter is missing;
  - `OtherException(text)`.

  `Classify` sorts a failure into four cases: ordinary exit code, named fatal
  signal, interpreter missing, or unclassified. `RenderMessage` writes the
  diagnostic. `ReportedExitCode` and `ReportedSignalName` read a diagnostic
  back. The lemmas show the reading recovers exactly the code or the signal
  that was rendered.
- `Signals` decodes exit codes that encode signals. A negative code `-N`
  gives signal `N`, and a code `128 + N` gives signal `N`. It also holds the
  table of named fatal signals: SIGTERM = 15, and SIGKILL = 9 with an
  out-of-memory hint.
- `Decimal` writes an exit code the way Python's `str(int)` does. It is shown
  to round-trip through `ParseInt`.
- `Runner` holds the runner's configuration (`cmd`, `raise_errors`,
  `extra_env`), the environment overlay `ModifiedEnv` and the outcome policy
  `Run`. The inherited process environment is a parameter, not a global. The
  result of executing the command is an input value (`Execution`). The
  messages the reporting sink receives are part of the outcome (`Printed`).
- `Text` gives the two search shapes the tests use as predicates: a literal
  substring, and two literals in order with anything between them.
- `RunnerTests` restates each test case as a lemma.

## Model

| member | source | states |
|---|---|---|
| `Runner.Run` | tests/util_support/test_shell_command_runner.py:11-26 | `run` returns true exactly on a clean exit. It returns false exactly on a failure with `raise_errors` off; it raises exactly on a failure with `raise_errors` on, and the original failure is propagated unchanged. The sink gets exactly one message when a failure is not raised and none otherwise; that message is the rendered diagnostic for the runner's own command |
| `Runner.ModifiedEnv` | tests/util_support/test_shell_command_runner.py:28-34 | the environment has exactly the inherited keys plus the `extra_env` keys. Every `extra_env` key maps to the caller's value, and every other inherited key keeps its inherited value |
| `Runner.NoExtraEnvInherits` | tests/util_support/test_shell_command_runner.py:28-34 | with no extra entries the command sees exactly the inherited environment |
| `Messages.Classify` | tests/util_support/test_shell_command_runner.py:36-68 | a `CalledProcessError` is an exit-code failure or a fatal-signal failure. It is a fatal-signal failure exactly when its code decodes to a known signal, and that signal's table entry is carried. `FileNotFoundError` means the interpreter is missing. Any other exception is unclassified and keeps its own text |
| `Messages.RenderMessage` | tests/util_support/test_shell_command_runner.py:60-75 | for every runner command and shell, a missing interpreter renders exactly `Unable to run shell commands using <shell>`, and any other exception renders exactly its own text. Its exit-code and signal cases are stated by the lemmas in the rows below |
| `Messages.ExitMessageShowsOutput` | tests/util_support/test_shell_command_runner.py:39-42 | an ordinary exit-code message starts with `Shell exited <code> when running: <cmd>`, and the captured output appears after that headline |
| `Messages.ExitMessageReadsBack` | tests/util_support/test_shell_command_runner.py:39-59 | reading an exit-code message back gives exactly its code and no signal name, including for unknown signal codes |
| `Messages.SignalMessageReadsBack` | tests/util_support/test_shell_command_runner.py:43-54 | reading a fatal-signal message back gives exactly the name of the signal the code encodes and no exit code. That name maps back to the decoded signal number |
| `Messages.FatalSignalMessage` | tests/util_support/test_shell_command_runner.py:43-54 | a fatal-signal message is exactly `Shell exited from fatal signal <NAME> when running: <cmd>` when the signal has no hint. Only SIGKILL has a hint, and its message has `out-of-memory` after that headline |
| `Messages.MessageNamesRunnerCommand` | tests/util_support/test_shell_command_runner.py:39-75 | every exit-code or signal message contains ` when running: <cmd>` for the runner's command. The command stored in the exception does not change the message |
| `Signals.SignalFromReturnCode` | tests/util_support/test_shell_command_runner.py:43-59 | a decoded signal number is always positive |
| `Signals.FatalSignalOfCode` | tests/util_support/test_shell_command_runner.py:43-59 | an exit code names a fatal signal exactly when it is -15, 143, -9 or 137. Every other code names none, including a code such as -120 that encodes an unknown signal. The entry carries a hint exactly for -9 and 137, the SIGKILL codes |
| `Signals.SignalEncodings` | tests/util_support/test_shell_command_runner.py:43-59 | both `-N` and `128 + N` decode to signal `N`. A code decodes to no signal exactly when it lies in 0..128 |
| `Signals.FatalSignal` | tests/util_support/test_shell_command_runner.py:43-54 | every known signal name starts with `SIG` and has no space. A table entry has a hint exactly when it is SIGKILL |
| `Signals.SignalNumber` | tests/util_support/test_shell_command_runner.py:43-54 | a name that maps to a number is the table's name for that number |
| `Signals.SignalNamesIdentify` | tests/util_support/test_shell_command_runner.py:43-54 | every name in the table maps back to the number it is listed under, so no two signals share a name |
| `Signals.OutOfMemoryHintMentionsMemory` | tests/util_support/test_shell_command_runner.py:51-54 | the kill-signal hint contains `out-of-memory` |
| `Decimal.IntToString` | tests/util_support/test_shell_command_runner.py:39-59 | an exit code is written as at least one character with no space. A minus sign comes first exactly for negative codes, and digits follow |
| `Decimal.IntToStringRoundTrip` | tests/util_support/test_shell_command_runner.py:39-59 | a written exit code parses back to itself |
| `Decimal.IntToStringInjective` | tests/util_support/test_shell_command_runner.py:39-59 | two different codes are never written alike |
| `RunnerTests.TestRunExceptionNoRaise` | tests/util_support/test_shell_command_runner.py:11-17 | with `raise_errors` off, a failure with code 5 makes `run` return false |
| `RunnerTests.TestRunExceptionRaise` | tests/util_support/test_shell_command_runner.py:19-26 | with `raise_errors` on, the same `CalledProcessError` is propagated |
| `RunnerTests.TestModifiedEnv` | tests/util_support/test_shell_command_runner.py:28-34 | with `extra_env` `{"a": v}`, key `a` has value `v` and `HOME` keeps its inherited value |
| `RunnerTests.TestMessageExitCode` | tests/util_support/test_shell_command_runner.py:39-42 | for code 5 with output `some error`, the message has `Shell exited 5 when running: cmd` and then `some error` |
| `RunnerTests.TestMessageNegativeSigterm` | tests/util_support/test_shell_command_runner.py:43-46 | code -15 renders exactly `Shell exited from fatal signal SIGTERM when running: cmd` |
| `RunnerTests.TestMessageEncodedSigterm` | tests/util_support/test_shell_command_runner.py:47-50 | code 143 renders exactly `Shell exited from fatal signal SIGTERM when running: cmd` |
| `RunnerTests.TestMessageSigkill` | tests/util_support/test_shell_command_runner.py:51-54 | code 137 renders `Shell exited from fatal signal SIGKILL when running: cmd` and then `out-of-memory` |
| `RunnerTests.TestMessageUnknownSignal` | tests/util_support/test_shell_command_runner.py:55-59 | code -120 renders a message containing `Shell exited -120 when running: cmd`, and the message names no signal |
| `RunnerTests.TestMessageUnknownSignalHasNoName` | tests/util_support/test_shell_command_runner.py:55-59 | the text `SIG` appears nowhere in the -120 message |
| `RunnerTests.TestSignalMessageOmitsOutput` | tests/util_support/test_shell_command_runner.py:43-46 | for code -15 the message is the bare SIGTERM headline, whatever output was captured |
| `RunnerTests.TestMessageMissingShell` | tests/util_support/test_shell_command_runner.py:60-63 | a missing interpreter renders exactly `Unable to run shell commands using /bin/bash` |
| `RunnerTests.TestMessageOtherException` | tests/util_support/test_shell_command_runner.py:64-67 | any other exception renders exactly its own text, `generic or other exception` |

## Left out

- Spawning the shell is not modelled. That covers `subprocess.check_output`, merging stderr into stdout, building the `/bin/bash` argument list, and waiting for the child. It is operating-system I/O; `Run` takes the execution result as the `Execution` value.
- The optional working directory is not modelled. No behaviour of it is asserted.
- Decoding the captured output bytes, including bytes that are not UTF-8, is not modelled. The output is an opaque string spliced into the message.
- The reporting destination (`print_error`) is not modelled. The sink is the list `Printed` of messages sent during one call.
- Runner.Run: on the raising path no message is reported. The tests do not say either way, and the implementation module that would settle it is not part of this model.
- Messages.RenderMessage: a fatal-signal message never shows the captured output. It is the headline alone, plus the hint for SIGKILL.
- Messages.RenderMessage: only the tested fragments of the text are fixed by the tests. Their order is fixed too. The rest is this model's own wording: the `Command output was:` heading before the output and the wording of the out-of-memory hint. The missing-interpreter message is taken to be exactly `Unable to run shell commands using /bin/bash`.
- Messages.Failure: a `CalledProcessError` built without output has output `None` in Python. Here that is the empty string, so, for example, the -120 message ends with an empty `Command output was:` section.
- Signals.FatalSignal: only SIGTERM (15) and SIGKILL (9), the two signals the tests name, are in the table. Every other signal, including segfault-class ones such as 11, gets the plain form: code -11 renders `Shell exited -11 when running: …`.
- RunnerTests.TestModifiedEnv: the test passes the integer `5` as an environment value. Here environment values are strings, so the lemma holds for any value `v`.
- Choosing a different shell on non-POSIX systems is not modelled. The interpreter is the constant `/bin/bash`.
- `zika/zika.py` is an analysis script that drives external libraries and files. It is not part of this model.
