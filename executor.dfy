/** The first-generation executor: dispatch over the fixed tool table,
    whose only entry is `python_exec`. */
module Executor {
  import opened Wrappers
  import opened Dicts
  import opened Values
  import opened ToolSchema
  import opened PythonExec

  /** The names in `TOOLS`. */
  const TOOL_TABLE: seq<string> := ["python_exec"]

  /** `execute_tool(call)`; `run` is the interpreter subprocess behind
      `python_exec`. Every exception the tool raises is caught. */
  function ExecuteTool(call: ToolCall, run: string -> RunOutcome): (r: ToolResult)
    ensures r.name == call.Name()
    ensures call.Name() !in TOOL_TABLE ==> r == Failure(call.Name(), "Unknown tool")
  {
    if call.Name() !in TOOL_TABLE then Failure(call.Name(), "Unknown tool")
    else
      match PythonExecTool(call.args, run)
      case Returned(out) => ToolResult(call.Name(), true, out, None)
      case Raised(e) => Failure(call.Name(), e.Text())
  }

  /** Only `python_exec` can succeed through this executor: the other three
      tool names always come back as "Unknown tool". */
  lemma OnlyPythonExecRuns(call: ToolCall, run: string -> RunOutcome)
    ensures call.name != ToolName.PythonExec ==> ExecuteTool(call, run) == Failure(call.Name(), "Unknown tool")
    ensures ExecuteTool(call, run).ok ==> call.name == ToolName.PythonExec && ExecuteTool(call, run).error.None?
  {
  }

  /** A `python_exec` call succeeds exactly when the tool returns, with the
      tool's output; otherwise the error is the exception's text. */
  lemma PythonExecDispatch(call: ToolCall, run: string -> RunOutcome)
    requires call.name == ToolName.PythonExec
    ensures var t := PythonExecTool(call.args, run);
      && (ExecuteTool(call, run).ok <==> t.Returned?)
      && (t.Returned? ==> ExecuteTool(call, run).output == t.value)
      && (t.Raised? ==> ExecuteTool(call, run) == Failure(call.Name(), t.exc.Text()))
  {
  }
}
