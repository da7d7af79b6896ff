/** The day-6 driver: one bench task, its spec assigned field by field, a
    whitelist of all four tools and a full verification after every step. */
module Day6 {
  import opened Wrappers
  import opened Workspaces
  import opened TaskSpecs
  import opened ToolSchema
  import opened Verifier
  import opened BenchTasks
  import opened Agent

  const MAX_STEPS: nat := 25
  const START_HINT: string := "Start by checking/creating required files."

  /** `task_to_spec(bt)`: the default spec, then each field in turn. */
  method TaskToSpec(bt: BenchTask) returns (spec: TaskSpec)
    ensures spec == ToSpec(bt)
  {
    spec := NewTaskSpec(bt.task);
    spec := spec.(allowedTools := ALL_TOOLS);
    if bt.requiredFiles.Some? && bt.requiredFiles.value != [] {
      spec := spec.(requiredFiles := bt.requiredFiles.value);
    }
    if bt.csvRequiredColumns.Some? && bt.csvRequiredColumns.value != [] {
      spec := spec.(csvRequiredColumns := bt.csvRequiredColumns.value);
    }
    if bt.csvMinRows.Some? && bt.csvMinRows.value != [] {
      spec := spec.(csvMinRows := bt.csvMinRows.value);
    }
    spec := spec.(stdoutIsNumber := true);
    if bt.expectedStdout.Some? {
      spec := spec.(stdoutExact := bt.expectedStdout);
    }
  }

  /** The observation carries no lines beyond the task, tools and hint. */
  function NoContext(step: nat): seq<string> {
    []
  }

  /** `run_task(bt)` from the workspace the reset leaves: at most 25 steps,
      one recorded entry per step, stopping at the first passing
      verification; the next hint is the failed verification's hint. */
  method RunTask(bt: BenchTask, exec: Executor, router: Router, isFloat: FloatSyntax, ws: Workspace)
    returns (r: Raising<RunResult>)
    ensures r == Report(GatedRun(ToSpec(bt), exec, router, isFloat, NoContext, Start(ws, START_HINT), MAX_STEPS))
    ensures r.Returned? ==> |r.value.history| <= MAX_STEPS && Numbered(r.value.history)
    ensures r.Returned? && !r.value.ok ==> |r.value.history| == MAX_STEPS
    ensures r.Returned? && r.value.ok ==> (r.value.history != []
      && Passes(VerifySpec(ToSpec(bt), Some(r.value.history[|r.value.history| - 1].result), r.value.ws, isFloat)))
  {
    var spec := TaskToSpec(bt);
    r := RunGated(spec, exec, router, isFloat, NoContext, ws, START_HINT, MAX_STEPS);
  }

  /** Since the spec admits all four tools, the run executes exactly the
      actions the router proposed; the hint after a failed step is that
      step's verification hint. */
  lemma RunTaskKeepsProposals(bt: BenchTask, exec: Executor, router: Router, isFloat: FloatSyntax, p: Progress, step: nat)
    requires router(Observation(step, ALL_TOOLS, None, p.hint, None, [])).Returned?
    requires GatedStep(ToSpec(bt), exec, router, isFloat, NoContext, p, step).Returned?
    ensures var q := GatedStep(ToSpec(bt), exec, router, isFloat, NoContext, p, step).value;
      && q.history[..|p.history|] == p.history
      && q.history[|p.history|].action == router(Observation(step, ALL_TOOLS, None, p.hint, None, [])).value
      && (!q.ok ==> q.hint == FromVerifier(VerifySpec(ToSpec(bt), q.last, q.ws, isFloat).value.hint))
  {
    ToSpecFacts(bt);
    EnforceFacts(router(Observation(step, ALL_TOOLS, None, p.hint, None, [])).value, ALL_TOOLS);
  }
}
