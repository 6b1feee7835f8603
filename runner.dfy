/**
 * The shell command runner: its configuration, the environment it gives the
 * shell, and the outcome policy of `run`.
 *
 * Spawning the shell is outside the model: `run` is given the result of
 * executing the command as an `Execution` value, and the messages it hands to
 * the reporting sink are part of its outcome.
 */
module Runner {
  import opened Wrappers
  import Messages

  /** The interpreter every command is run with. */
  const DefaultShell := "/bin/bash"

  /** A runner for one command; `extraEnv` is overlaid on the inherited environment. */
  datatype ShellCommandRunner =
    ShellCommandRunner(cmd: string, raiseErrors: bool := false, extraEnv: map<string, string> := map[])

  /**
   * The environment the command runs in: the inherited environment (given
   * here as a parameter) with every `extraEnv` entry overriding it.
   */
  function ModifiedEnv(runner: ShellCommandRunner, inherited: map<string, string>): (env: map<string, string>)
    ensures env.Keys == inherited.Keys + runner.extraEnv.Keys
    ensures forall k :: k in runner.extraEnv ==> env[k] == runner.extraEnv[k]
    ensures forall k :: k in inherited && k !in runner.extraEnv ==> env[k] == inherited[k]
  {
    inherited + runner.extraEnv
  }

  /** Without extra entries the command sees exactly the inherited environment. */
  lemma NoExtraEnvInherits(runner: ShellCommandRunner, inherited: map<string, string>)
    requires runner.extraEnv == map[]
    ensures ModifiedEnv(runner, inherited) == inherited
  {
  }

  /** What executing the command through the shell produced. */
  datatype Execution =
    | Exited0
    | Raised(failure: Messages.Failure)

  /** How one call of `run` ends. */
  datatype RunOutcome =
    | Succeeded
    | Propagated(failure: Messages.Failure)
    | Reported(message: string)

  /** The value `run` returns, or `None` when it raises instead. */
  function Returned(o: RunOutcome): Option<bool>
  {
    match o
    case Succeeded => Some(true)
    case Propagated(_) => None
    case Reported(_) => Some(false)
  }

  /** The messages handed to the reporting sink during the call. */
  function Printed(o: RunOutcome): seq<string>
  {
    match o
    case Reported(message) => [message]
    case _ => []
  }

  /**
   * `run`: success returns true and reports nothing; a failure is either
   * propagated unchanged (with `raiseErrors`) or rendered into exactly one
   * message for the sink, after which `run` returns false.
   */
  function Run(runner: ShellCommandRunner, exec: Execution): (o: RunOutcome)
    ensures Returned(o) == Some(true) <==> exec.Exited0?
    ensures Returned(o) == Some(false) <==> exec.Raised? && !runner.raiseErrors
    ensures Returned(o).None? <==> exec.Raised? && runner.raiseErrors
    ensures o.Propagated? ==> o.failure == exec.failure
    ensures |Printed(o)| == if exec.Raised? && !runner.raiseErrors then 1 else 0
    ensures |Printed(o)| == 1 ==> Printed(o)[0] == Messages.RenderMessage(runner.cmd, DefaultShell, exec.failure)
  {
    match exec
    case Exited0 => Succeeded
    case Raised(failure) =>
      if runner.raiseErrors then Propagated(failure)
      else Reported(Messages.RenderMessage(runner.cmd, DefaultShell, failure))
  }
}
