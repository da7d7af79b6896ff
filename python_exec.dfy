/** The argument and exit-code contract of the `python_exec` tool, and the
    rule that turns a bare expression into a printing statement. The
    subprocess itself is a parameter. */
module PythonExec {
  import opened Wrappers
  import opened Strings
  import opened Dicts
  import opened Values

  /** Whether stripped code already prints or is more than one expression. */
  predicate RunsAsIs(code: string) {
    Contains(code, "print(") || '\n' in code || ';' in code
  }

  /** `_wrap_code(code)` */
  function WrapCode(code: string): (r: string)
    ensures RunsAsIs(Strip(code)) ==> r == Strip(code)
    ensures !RunsAsIs(Strip(code)) ==> r == "print(" + Strip(code) + ")"
  {
    var c := Strip(code);
    if RunsAsIs(c) then c else "print(" + c + ")"
  }

  /** Every wrapped program already passes the no-wrap test, so wrapping
      twice is wrapping once. */
  lemma WrapCodeIdempotent(code: string)
    ensures RunsAsIs(WrapCode(code)) && Strip(WrapCode(code)) == WrapCode(code)
    ensures WrapCode(WrapCode(code)) == WrapCode(code)
  {
    var c := Strip(code);
    StripIdempotent(code);
    if !RunsAsIs(c) {
      WrappedIsStripped(c);
    }
  }

  lemma WrappedIsStripped(c: string)
    ensures var w := "print(" + c + ")"; Strip(w) == w && RunsAsIs(w)
  {
    var w := "print(" + c + ")";
    ContainsPrefix("print(", c + ")");
    assert w == "print(" + (c + ")");
    assert w[0] == 'p' && w[|w| - 1] == ')';
    StripNoEdgeSpace(w);
  }

  /** What the interpreter subprocess does: it completes with an exit code
      and captured text, or exceeds the 30-second timeout (the text of the
      timeout exception is given). */
  datatype RunOutcome = Completed(returncode: int, stdout: string, stderr: string) | TimedOut(message: string)

  const BAD_CODE: Exception := ValueError("python_exec requires args['code'] as a non-empty string")

  /** Code the tool accepts: a string that is not blank. */
  predicate HasCode(args: Dict<string, Value>) {
    var code := Get(args, "code");
    code.Some? && code.value.Str? && Strip(code.value.s) != []
  }

  /** `python_exec(args)`, with `run` standing for the subprocess call on the
      wrapped code. */
  function PythonExecTool(args: Dict<string, Value>, run: string -> RunOutcome): (r: Raising<string>)
    ensures !HasCode(args) ==> r == Raised(BAD_CODE)
  {
    if !HasCode(args) then Raised(BAD_CODE)
    else
      match run(WrapCode(Get(args, "code").value.s))
      case TimedOut(m) => Raised(Collaborator(m))
      case Completed(rc, out, err) =>
        if rc != 0 then
          Raised(RuntimeError(if Strip(err) != [] then Strip(err) else "python exited with code " + IntToString(rc)))
        else Returned(Strip(out))
  }

  /** Exit status 0 returns the stripped stdout; any other status raises
      with the stripped stderr, or names the code when stderr is blank. */
  lemma PythonExecExitContract(args: Dict<string, Value>, run: string -> RunOutcome)
    requires HasCode(args)
    ensures var o := run(WrapCode(Get(args, "code").value.s));
      o.Completed? ==>
        && (o.returncode == 0 ==> PythonExecTool(args, run) == Returned(Strip(o.stdout)))
        && (o.returncode != 0 && Strip(o.stderr) != [] ==> PythonExecTool(args, run) == Raised(RuntimeError(Strip(o.stderr))))
        && (o.returncode != 0 && Strip(o.stderr) == [] ==>
              PythonExecTool(args, run) == Raised(RuntimeError("python exited with code " + IntToString(o.returncode))))
  {
  }

  /** Rejected code never reaches the interpreter: the result is the same
      whatever the subprocess would do. */
  lemma PythonExecRejectsBeforeRunning(args: Dict<string, Value>, run1: string -> RunOutcome, run2: string -> RunOutcome)
    requires !HasCode(args)
    ensures PythonExecTool(args, run1) == PythonExecTool(args, run2) == Raised(BAD_CODE)
  {
  }
}
