/** The tool-call and tool-result records exchanged between the action
    source, the executors and the loops. */
module ToolSchema {
  import opened Wrappers
  import opened Dicts
  import opened Values

  /** The closed set of tool names a `ToolCall` may carry. */
  datatype ToolName = PythonExec | PipInstall | FileWrite | ShellExec {
    function Text(): string {
      match this
      case PythonExec => "python_exec"
      case PipInstall => "pip_install"
      case FileWrite => "file_write"
      case ShellExec => "shell_exec"
    }
  }

  const TOOL_NAMES: set<string> := {"python_exec", "pip_install", "file_write", "shell_exec"}

  /** Validation of the `name` field against the literal type. */
  function ParseToolName(s: string): (r: Option<ToolName>)
    ensures r.Some? <==> s in TOOL_NAMES
    ensures r.Some? ==> r.value.Text() == s
  {
    if s == "python_exec" then Some(PythonExec)
    else if s == "pip_install" then Some(PipInstall)
    else if s == "file_write" then Some(FileWrite)
    else if s == "shell_exec" then Some(ShellExec)
    else None
  }

  /** Every tool call's name is one of the four tool names, and the
      name-to-text mapping can be inverted. */
  lemma ToolNameRoundTrip(n: ToolName)
    ensures n.Text() in TOOL_NAMES
    ensures ParseToolName(n.Text()) == Some(n)
  {
  }

  datatype ToolCall = ToolCall(name: ToolName, args: Dict<string, Value>) {
    function Name(): string {
      name.Text()
    }
  }

  /** `ToolCall(name=n)`: the arguments default to the empty dict. */
  function CallWithoutArgs(n: ToolName): (c: ToolCall)
    ensures c.name == n && c.args == []
  {
    ToolCall(n, [])
  }

  /** A tool result's name is any string: an executor may report a name it
      does not know. `error` is None unless set. */
  datatype ToolResult = ToolResult(name: string, ok: bool, output: string, error: Option<string>)

  function Success(name: string, output: string): (r: ToolResult)
    ensures r.ok && r.error.None?
    ensures r.name == name && r.output == output
  {
    ToolResult(name, true, output, None)
  }

  function Failure(name: string, error: string): (r: ToolResult)
    ensures !r.ok && r.output == "" && r.error == Some(error)
    ensures r.name == name
  {
    ToolResult(name, false, "", Some(error))
  }

  /** `call.model_dump()` */
  function Dump(c: ToolCall): Value {
    Object([("name", Str(c.Name())), ("args", Object(c.args))])
  }

  /** `ToolCall.model_validate(v)`: a dict whose "name" is one of the four
      names and whose "args", when present, is a dict; other keys are
      ignored. */
  function ValidateCall(v: Value): (r: Option<ToolCall>)
    ensures r.Some? ==> v.Object? && Field(v, "name") == Some(Str(r.value.Name()))
  {
    if !v.Object? then None
    else
      match Field(v, "name")
      case Some(Str(s)) =>
        (match ParseToolName(s)
         case None => None
         case Some(n) =>
           match Field(v, "args")
           case None => Some(ToolCall(n, []))
           case Some(Object(a)) => Some(ToolCall(n, a))
           case Some(_) => None)
      case _ => None
  }

  /** Dumping a call and validating the dump gives the call back. */
  lemma ValidateDump(c: ToolCall)
    ensures ValidateCall(Dump(c)) == Some(c)
  {
    ToolNameRoundTrip(c.name);
    var d := Dump(c).fields;
    assert IndexOf(d, "name") == 0;
    assert IndexOf(d, "args") == 1 by {
      assert IndexOf(d[1..], "args") == 0;
    }
  }
}
