/**
 * `exec`: run an external command and turn an unsuccessful run into an
 * internal error whose detail holds whatever the command printed.
 */
module Exec {
  import opened Wrappers
  import opened Errors

  /** What a finished process left behind: its exit success and its two output streams. */
  datatype ProcessOutput = ProcessOutput(success: bool, stdout: string, stderr: string)

  const StdoutHeader: string := "--- stdout\n"
  const StderrHeader: string := "--- stderr\n"

  /** A stream's section in the diagnostic: its header and its text, or nothing when it is empty. */
  function Section(header: string, text: string): string
  {
    if text == "" then "" else header + text
  }

  /** The diagnostic for a failed run: the stdout section, then the stderr section. */
  function FailureDetail(stdout: string, stderr: string): string
  {
    Section(StdoutHeader, stdout) + Section(StderrHeader, stderr)
  }

  /** The description of the error: the command, as its debug rendering shows it, in backquotes. */
  function RunFailedMessage(command: string): string
  {
    "failed to run command `" + command + "`"
  }

  /**
   * `exec`. `command` is the debug rendering of the command and `spawned` is
   * what running it gave: `None` when the process could not be started.
   */
  method Run(command: string, spawned: Option<ProcessOutput>) returns (r: Result<ProcessOutput, DomainError>)
    ensures spawned.None? ==> r == Err(Internal(RunFailedMessage(command), None))
    ensures spawned.Some? && spawned.value.success ==> r == Ok(spawned.value)
    ensures spawned.Some? && !spawned.value.success ==>
              r == Err(Internal(RunFailedMessage(command),
                                Some(FailureDetail(spawned.value.stdout, spawned.value.stderr))))
  {
    if spawned.None? {
      return Err(NewInternal(RunFailedMessage(command)));
    }
    var output := spawned.value;
    if !output.success {
      var desc := "";
      if |output.stdout| != 0 {
        desc := desc + StdoutHeader;
        desc := desc + output.stdout;
      }
      assert desc == Section(StdoutHeader, output.stdout);
      if |output.stderr| != 0 {
        desc := desc + StderrHeader;
        desc := desc + output.stderr;
      }
      assert desc == FailureDetail(output.stdout, output.stderr);
      r := Err(NewInternalWithDetail(RunFailedMessage(command), desc));
    } else {
      r := Ok(output);
    }
  }

  /** The detail is empty exactly when the command printed nothing on either stream. */
  lemma FailureDetailEmpty(stdout: string, stderr: string)
    ensures FailureDetail(stdout, stderr) == "" <==> stdout == "" && stderr == ""
  {
  }

  /** The detail opens with the stdout header exactly when stdout is non-empty. */
  lemma FailureDetailOpensWithStdout(stdout: string, stderr: string)
    ensures var d := FailureDetail(stdout, stderr);
            (|d| >= |StdoutHeader| && d[..|StdoutHeader|] == StdoutHeader) <==> stdout != ""
  {
    var d := FailureDetail(stdout, stderr);
    if stdout != "" {
      assert d[..|StdoutHeader|] == (StdoutHeader + stdout)[..|StdoutHeader|];
    } else if stderr != "" {
      assert d[..|StdoutHeader|][7] == StderrHeader[7];
    }
  }

  /** Non-empty stdout and stderr: the stdout text, then the stderr section, each whole. */
  lemma FailureDetailBothStreams(stdout: string, stderr: string)
    requires stdout != "" && stderr != ""
    ensures var d := FailureDetail(stdout, stderr);
            var n := |StdoutHeader| + |stdout|;
            && |d| == n + |StderrHeader| + |stderr|
            && d[|StdoutHeader|..n] == stdout
            && d[n..n + |StderrHeader|] == StderrHeader
            && d[n + |StderrHeader|..] == stderr
  {
  }

  /** A failing command that printed only on stderr: a stderr section and no stdout section. */
  lemma StderrOnlyFailure(stderr: string)
    requires stderr != ""
    ensures FailureDetail("", stderr) == StderrHeader + stderr
  {
  }
}
