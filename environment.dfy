/** `assert_zero_exit_code` of `codeclash/utils/environment.py`: the guard placed around a
    command execution, which passes a successful result through and turns a failure into
    a RuntimeError. */
module Environment {
  import opened Wrappers
  import opened Text

  /** The dictionary a command execution returns; None where a key is missing. */
  datatype CommandResult = CommandResult(returncode: Option<int>, output: Option<string>)

  /** How an f-string shows a value that may be None. */
  function ShowInt(v: Option<int>): string {
    if v.None? then "None" else IntToString(v.value)
  }

  function ShowText(v: Option<string>): string {
    if v.None? then "None" else v.value
  }

  const FailurePrefix: string := "Command failed with exit code "

  function FailureMessage(result: CommandResult): string {
    FailurePrefix + ShowInt(result.returncode) + ":\n" + ShowText(result.output)
  }

  /** A missing return code counts as 0. */
  predicate Succeeded(result: CommandResult) {
    result.returncode.None? || result.returncode == Some(0)
  }

  /** The guard: the same result on success; on failure a RuntimeError, and the message
      written to the logger when there is one. The second component lists what the logger
      received. */
  function AssertZeroExitCode(result: CommandResult, hasLogger: bool): (r: (Result<CommandResult>, seq<string>))
    ensures r.0.Ok? <==> Succeeded(result)
    ensures r.0.Ok? ==> r.0.value == result && r.1 == []
    ensures r.0.Fail? ==> r.0.error.RuntimeError? && |r.1| <= 1 && (hasLogger <==> r.1 == [r.0.error.msg])
  {
    if !Succeeded(result) then
      var msg := FailureMessage(result);
      (Fail(RuntimeError(msg)), if hasLogger then [msg] else [])
    else (Ok(result), [])
  }

  /** The failure message names the return code right after its fixed prefix and ends with
      the command's output. */
  lemma FailureMessageNamesCodeAndOutput(result: CommandResult, hasLogger: bool)
    requires !Succeeded(result)
    ensures var msg := AssertZeroExitCode(result, hasLogger).0.error.msg;
      && HasAt(msg, IntToString(result.returncode.value), |FailurePrefix|)
      && (result.output.Some? ==> HasAt(msg, result.output.value, |msg| - |result.output.value|))
  {
    var code := IntToString(result.returncode.value);
    var msg := FailureMessage(result);
    var tail := ":\n" + ShowText(result.output);
    assert msg == FailurePrefix + code + tail;
    assert msg[|FailurePrefix|..|FailurePrefix| + |code|] == code;
    if result.output.Some? {
      assert msg[|msg| - |result.output.value|..] == result.output.value;
    }
  }
}
