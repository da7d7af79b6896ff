/** The goal descriptor a run is verified against. */
module TaskSpecs {
  import opened Wrappers
  import opened Dicts

  /** `allowed_tools`' default whitelist, in its declared order. */
  const ALL_TOOLS: seq<string> := ["shell_exec", "python_exec", "file_write", "pip_install"]

  datatype TaskSpec = TaskSpec(
    task: string,
    requiredFiles: seq<string>,
    csvRequiredColumns: Dict<string, seq<string>>,
    csvMinRows: Dict<string, int>,
    stdoutIsNumber: bool,
    stdoutExact: Option<string>,
    allowedTools: seq<string>)

  /** `TaskSpec(task=t)`: every other field at its default. Each instance's
      collections are values here, so no two specs can share them. */
  function NewTaskSpec(task: string): (s: TaskSpec)
    ensures s.task == task
    ensures s.requiredFiles == [] && s.csvRequiredColumns == [] && s.csvMinRows == []
    ensures !s.stdoutIsNumber && s.stdoutExact.None?
    ensures s.allowedTools == ALL_TOOLS && |s.allowedTools| == 4
  {
    TaskSpec(task, [], [], [], false, None, ALL_TOOLS)
  }
}
