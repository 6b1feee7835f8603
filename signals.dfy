/**
 * Decoding of signal-encoded exit codes and the table of fatal signals the
 * runner names in its diagnostics.
 *
 * A child killed by signal N is reported either as the negative code -N (the
 * subprocess convention) or, when the shell itself survives and reports its
 * child's death, as the status 128 + N. Only the signals in `FatalSignal` get
 * a name; any other decoded number is treated as an ordinary exit code.
 */
module Signals {
  import opened Wrappers
  import Text

  const SIGKILL: nat := 9
  const SIGTERM: nat := 15

  /** Attached to the kill signal, which usually means the out-of-memory reaper stepped in. */
  const OutOfMemoryHint: string := HintLead + OutOfMemory + HintTail
  const HintLead := "The process was killed by the operating system, most likely by its "
  const OutOfMemory := "out-of-memory"
  const HintTail := " killer. Try giving it more memory."

  datatype SignalInfo = SignalInfo(name: string, hint: Option<string>)

  /** The signal number an exit code encodes, if it encodes one. */
  function SignalFromReturnCode(code: int): (r: Option<nat>)
    ensures r.Some? ==> r.value > 0
  {
    if code < 0 then Some(-code)
    else if code > 128 then Some(code - 128)
    else None
  }

  /** The fixed table of fatal signals known by name. */
  function FatalSignal(n: nat): (r: Option<SignalInfo>)
    ensures r.Some? ==> "SIG" <= r.value.name && ' ' !in r.value.name
    ensures r.Some? ==> (r.value.hint.Some? <==> n == SIGKILL)
  {
    if n == SIGTERM then Some(SignalInfo("SIGTERM", None))
    else if n == SIGKILL then Some(SignalInfo("SIGKILL", Some(OutOfMemoryHint)))
    else None
  }

  /**
   * The named fatal signal an exit code encodes, if any: exactly the two
   * encodings of SIGTERM and of SIGKILL; every other code, including one that
   * encodes an unknown signal, names none.
   */
  function FatalSignalOfCode(code: int): (r: Option<SignalInfo>)
    ensures r.Some? <==> code == -15 || code == 128 + 15 || code == -9 || code == 128 + 9
    ensures r.Some? ==> (r.value.hint.Some? <==> code == -9 || code == 128 + 9)
  {
    match SignalFromReturnCode(code)
    case Some(n) => FatalSignal(n)
    case None => None
  }

  /** The inverse of the table: the signal number a name stands for. */
  function SignalNumber(name: string): (r: Option<nat>)
    ensures r.Some? ==> FatalSignal(r.value).Some? && FatalSignal(r.value).value.name == name
  {
    if name == "SIGTERM" then Some(SIGTERM)
    else if name == "SIGKILL" then Some(SIGKILL)
    else None
  }

  /** Both encodings of a signal number decode to it; codes 0 to 128 encode none. */
  lemma SignalEncodings(n: nat, code: int)
    requires n > 0
    ensures SignalFromReturnCode(-(n as int)) == Some(n)
    ensures SignalFromReturnCode(128 + n) == Some(n)
    ensures SignalFromReturnCode(code).None? <==> 0 <= code <= 128
  {
  }

  /** Every name in the table reads back as the number it was listed under. */
  lemma SignalNamesIdentify(n: nat)
    requires FatalSignal(n).Some?
    ensures SignalNumber(FatalSignal(n).value.name) == Some(n)
  {
  }

  /** The out-of-memory hint speaks of the out-of-memory killer. */
  lemma OutOfMemoryHintMentionsMemory()
    ensures Text.Contains(OutOfMemoryHint, OutOfMemory)
  {
    Text.SplicedIsContained(HintLead, OutOfMemory, HintTail);
  }
}
