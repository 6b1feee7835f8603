/**
 * The runner's test cases, each stated as a lemma about the model: the
 * `run` outcome tests, the environment overlay test, and one lemma per row of
 * the message table, where a regular-expression search becomes `Contains` or
 * `ContainsInOrder` and, where the whole message is pinned down, equality.
 */
module RunnerTests {
  import opened Wrappers
  import Decimal
  import Signals
  import Text
  import Messages
  import Runner

  /** The message `ShellCommandRunner("cmd").print_error_message(failure)` hands to the sink. */
  function MessageFor(failure: Messages.Failure): string
  {
    Messages.RenderMessage(Runner.ShellCommandRunner("cmd").cmd, Runner.DefaultShell, failure)
  }

  lemma TestRunExceptionNoRaise()
    ensures Runner.Returned(Runner.Run(Runner.ShellCommandRunner("great-command", raiseErrors := false),
      Runner.Raised(Messages.CalledProcessError(5, "actual-cmd", "")))) == Some(false)
  {
  }

  lemma TestRunExceptionRaise()
    ensures Runner.Run(Runner.ShellCommandRunner("great-command", raiseErrors := true),
      Runner.Raised(Messages.CalledProcessError(5, "actual-cmd", "")))
      == Runner.Propagated(Messages.CalledProcessError(5, "actual-cmd", ""))
  {
  }

  /** Whatever the process environment and whatever value is given for `a`. */
  lemma TestModifiedEnv(inherited: map<string, string>, v: string)
    requires "HOME" in inherited
    ensures Runner.ModifiedEnv(Runner.ShellCommandRunner("great-command", extraEnv := map["a" := v]), inherited)["a"] == v
    ensures Runner.ModifiedEnv(Runner.ShellCommandRunner("great-command", extraEnv := map["a" := v]), inherited)["HOME"]
      == inherited["HOME"]
  {
  }

  lemma TestMessageExitCode()
    ensures Text.ContainsInOrder(MessageFor(Messages.CalledProcessError(5, "actual-cmd", "some error")),
      "Shell exited 5 when running: cmd", "some error")
  {
    var f := Messages.CalledProcessError(5, "actual-cmd", "some error");
    assert Decimal.IntToString(5) == "5";
    assert Messages.ExitedPrefix + "5" + Messages.RunningInfix + "cmd" == "Shell exited 5 when running: cmd";
    Messages.ExitMessageShowsOutput("cmd", Runner.DefaultShell, f);
  }

  lemma TestMessageNegativeSigterm()
    ensures MessageFor(Messages.CalledProcessError(-15, "actual-cmd", ""))
      == "Shell exited from fatal signal SIGTERM when running: cmd"
  {
  }

  lemma TestMessageEncodedSigterm()
    ensures MessageFor(Messages.CalledProcessError(128 + 15, "actual-cmd", ""))
      == "Shell exited from fatal signal SIGTERM when running: cmd"
  {
  }

  lemma TestMessageSigkill()
    ensures Text.ContainsInOrder(MessageFor(Messages.CalledProcessError(128 + 9, "actual-cmd", "")),
      "Shell exited from fatal signal SIGKILL when running: cmd", "out-of-memory")
  {
    var f := Messages.CalledProcessError(128 + 9, "actual-cmd", "");
    assert Signals.FatalSignalOfCode(f.returnCode) == Signals.FatalSignal(Signals.SIGKILL);
    assert Messages.FatalSignalPrefix + "SIGKILL" + Messages.RunningInfix + "cmd"
      == "Shell exited from fatal signal SIGKILL when running: cmd";
    Messages.FatalSignalMessage("cmd", Runner.DefaultShell, f);
  }

  /** An unknown signal does not fail: it falls back to the plain exit-code form, naming no signal. */
  lemma TestMessageUnknownSignal()
    ensures Text.Contains(MessageFor(Messages.CalledProcessError(-120, "actual-cmd", "")),
      "Shell exited -120 when running: cmd")
    ensures Messages.ReportedSignalName(MessageFor(Messages.CalledProcessError(-120, "actual-cmd", ""))).None?
  {
    var f := Messages.CalledProcessError(-120, "actual-cmd", "");
    assert Decimal.IntToString(-120) == "-120" by {
      assert Decimal.NatToString(120) == Decimal.NatToString(12) + "0";
      assert Decimal.NatToString(12) == Decimal.NatToString(1) + "2";
    }
    assert Messages.ExitedPrefix + "-120" + Messages.RunningInfix + "cmd" == "Shell exited -120 when running: cmd";
    Messages.ExitMessageShowsOutput("cmd", Runner.DefaultShell, f);
    Text.InOrderContainsBoth(MessageFor(f), "Shell exited -120 when running: cmd", "");
    Messages.ExitMessageReadsBack("cmd", Runner.DefaultShell, f);
  }

  /** Nowhere in the -120 message does a signal name (`SIG...`) appear. */
  lemma TestMessageUnknownSignalHasNoName()
    ensures !Text.Contains(MessageFor(Messages.CalledProcessError(-120, "actual-cmd", "")), "SIG")
  {
    var msg := MessageFor(Messages.CalledProcessError(-120, "actual-cmd", ""));
    assert Decimal.IntToString(-120) == "-120" by {
      assert Decimal.NatToString(120) == Decimal.NatToString(12) + "0";
      assert Decimal.NatToString(12) == Decimal.NatToString(1) + "2";
    }
    assert Messages.Classify(Messages.CalledProcessError(-120, "actual-cmd", "")) == Messages.ExitStatus(-120);
    assert msg == Messages.ExitedPrefix + "-120" + Messages.RunningInfix + "cmd" + Messages.OutputHeading + "";
    assert 'I' !in Messages.ExitedPrefix && 'I' !in "-120" && 'I' !in Messages.RunningInfix;
    assert 'I' !in "cmd" && 'I' !in Messages.OutputHeading;
    Text.MissingCharNotContained(msg, "SIG", 1);
  }

  /** A fatal-signal message shows no captured output: whatever was captured, code -15 gives the bare headline. */
  lemma TestSignalMessageOmitsOutput(output: string)
    ensures MessageFor(Messages.CalledProcessError(-15, "x", output))
      == "Shell exited from fatal signal SIGTERM when running: cmd"
  {
  }

  lemma TestMessageMissingShell()
    ensures MessageFor(Messages.FileNotFoundError) == "Unable to run shell commands using /bin/bash"
  {
  }

  lemma TestMessageOtherException()
    ensures MessageFor(Messages.OtherException("generic or other exception")) == "generic or other exception"
  {
  }
}
