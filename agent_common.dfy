/** What the agent drivers share: the executor and the action router they
    call, the observation they hand the router, the phase whitelists, the
    safe replacement for a blocked action and the spec builders. */
module Agent {
  import opened Wrappers
  import opened Dicts
  import opened Values
  import opened Workspaces
  import opened TaskSpecs
  import opened ToolSchema
  import opened Verifier
  import opened BenchTasks
  import RobustAction

  /** `execute_tool(action, task=...)`: the tool's result and the workspace
      the tool leaves behind. What a tool does is not modelled. */
  type Executor = (ToolCall, Workspace) -> (ToolResult, Workspace)

  /** The hint text a driver keeps between steps. */
  datatype HintText =
    | Note(text: string)                           // a fixed text such as "Start."
    | FromVerifier(hint: Hint)                     // `v.hint`
    | HintAndMessage(hint: Hint, message: Message) // `v.hint + v.messages[0]`
    | ArtifactsOkNote(before: HintText)            // `(hint or "") + " | Artifacts OK. ..."`

  /** What a driver renders into the observation text it hands the model:
      the step, the tools admitted, the phase, the hint, the gap report, and
      any further lines (plan, step hint, phase or critic instruction). */
  datatype Observation = Observation(
    step: nat,
    allowed: seq<string>,
    phase: Option<string>,
    hint: HintText,
    gaps: Option<GapReport>,
    context: seq<string>)

  /** `next_action(task, observation, rules)`: the model's reply parsed as a
      tool call, or the exception raised on the way. */
  type Router = Observation -> Raising<ToolCall>

  /** The JSON repair step `robust_next_action` calls in a given loop step:
      a model call plus `json.loads` on the rejected action. */
  type Repair = nat -> RobustAction.RawGuess -> Raising<Value>

  /** One recorded step: `{"step", "action", "result"}`. */
  datatype Entry = Entry(step: nat, action: ToolCall, result: ToolResult)

  /** Steps are numbered from 1 in the order they ran. */
  predicate Numbered(h: seq<Entry>) {
    forall i | 0 <= i < |h| :: h[i].step == i + 1
  }

  /** `ToolCall(name="shell_exec", args={"cmd": "pwd && ls -l"})` */
  const FALLBACK: ToolCall := RobustAction.FALLBACK

  /** The admitted tools of the COMPUTE and ARTIFACTS phases. */
  const COMPUTE_TOOLS: seq<string> := ["python_exec"]
  const ARTIFACT_TOOLS: seq<string> := ["file_write", "shell_exec", "pip_install"]

  /** `allowed_for_phase(artifacts_ok)` */
  function AllowedForPhase(artifactsOk: bool): seq<string> {
    if artifactsOk then COMPUTE_TOOLS else ARTIFACT_TOOLS
  }

  /** The phase the artifact checks select. */
  function PhaseName(artifactsOk: bool): string {
    if artifactsOk then "COMPUTE" else "ARTIFACTS"
  }

  /** The two phases split the four tools between them: only `python_exec`
      runs once the artifacts are in place, and it never runs before. */
  lemma AllowedForPhasePartition(n: ToolName)
    ensures n.Text() in AllowedForPhase(true) <==> n == PythonExec
    ensures n.Text() in AllowedForPhase(false) <==> n != PythonExec
    ensures FALLBACK.Name() in AllowedForPhase(false) && FALLBACK.Name() !in AllowedForPhase(true)
  {
  }

  /** `if action.name not in allowed: action = ToolCall("shell_exec", {"cmd": "pwd && ls -l"})` */
  function Enforce(action: ToolCall, allowed: seq<string>): ToolCall {
    if action.Name() in allowed then action else FALLBACK
  }

  /** An admitted action is kept and anything else becomes the directory
      listing; with all four tools admitted nothing is ever replaced. */
  lemma EnforceFacts(action: ToolCall, allowed: seq<string>)
    ensures Enforce(action, allowed).Name() in allowed || Enforce(action, allowed) == FALLBACK
    ensures Enforce(action, allowed) == action <==> action.Name() in allowed || action == FALLBACK
    ensures Enforce(action, ALL_TOOLS) == action
  {
  }

  /** The spec of a task text alone: all four tools, a numeric stdout and
      nothing else (`to_spec(task)` of the drivers that take a task text). */
  function TaskOnlySpec(task: string): TaskSpec {
    NewTaskSpec(task).(allowedTools := ALL_TOOLS, stdoutIsNumber := true)
  }

  /** Each artifact field of a bench task is copied only when it is given and
      non-empty (`if bt.required_files: spec.required_files = ...`). */
  function CopyArtifacts(spec: TaskSpec, bt: BenchTask): TaskSpec {
    var files := if bt.requiredFiles.Some? && bt.requiredFiles.value != [] then bt.requiredFiles.value else spec.requiredFiles;
    var cols := if bt.csvRequiredColumns.Some? && bt.csvRequiredColumns.value != [] then bt.csvRequiredColumns.value else spec.csvRequiredColumns;
    var rows := if bt.csvMinRows.Some? && bt.csvMinRows.value != [] then bt.csvMinRows.value else spec.csvMinRows;
    spec.(requiredFiles := files, csvRequiredColumns := cols, csvMinRows := rows)
  }

  /** `to_spec(bt)` / `task_to_spec(bt)` of the bench drivers. */
  function ToSpec(bt: BenchTask): TaskSpec {
    var spec := TaskOnlySpec(bt.task);
    var spec := if bt.expectedStdout.Some? then spec.(stdoutExact := bt.expectedStdout) else spec;
    CopyArtifacts(spec, bt)
  }

  /** Copying only the non-empty fields loses nothing, since the defaults
      are empty: the spec holds the task's constraints with missing ones
      empty, a numeric stdout, the exact stdout exactly when given, and all
      four tools. */
  lemma ToSpecFacts(bt: BenchTask)
    ensures var s := ToSpec(bt);
      && s.task == bt.task
      && s.requiredFiles == bt.requiredFiles.GetOr([])
      && s.csvRequiredColumns == bt.csvRequiredColumns.GetOr([])
      && s.csvMinRows == bt.csvMinRows.GetOr([])
      && s.stdoutIsNumber
      && s.stdoutExact == bt.expectedStdout
      && s.allowedTools == ALL_TOOLS
  {
  }

  /** A driver's state between steps: the workspace, the last result, the
      hint for the next observation, the steps recorded and whether the
      last verification passed. */
  datatype Progress = Progress(ws: Workspace, last: Option<ToolResult>, hint: HintText, history: seq<Entry>, ok: bool)

  /** A run that has not taken a step yet. */
  function Start(ws: Workspace, hint: string): Progress {
    Progress(ws, None, Note(hint), [], false)
  }

  /** What a driver reports: whether it succeeded, the history it saves and
      the workspace it leaves. */
  datatype RunResult = RunResult(ok: bool, history: seq<Entry>, ws: Workspace)

  function Report(p: Raising<Progress>): Raising<RunResult> {
    match p
    case Raised(e) => Raised(e)
    case Returned(q) => Returned(RunResult(q.ok, q.history, q.ws))
  }

  /** `True`/`False` of a run that returned. */
  function Succeeded(r: Raising<RunResult>): Raising<bool> {
    match r
    case Raised(e) => Raised(e)
    case Returned(o) => Returned(o.ok)
  }

  /** `verify(...).ok` for a verification that returned. */
  predicate Passes(v: Raising<VerifyResult>) {
    v.Returned? && v.value.ok
  }

  // ---------------------------------------------------------------------
  // The whitelist-and-verify loop of the day-5, day-6 and day-9 drivers

  /** One step: ask the router, replace a tool outside the spec's
      whitelist with the directory listing, execute, run the full
      verification, and keep its hint when it fails. `context` gives the
      extra observation lines of a step. */
  function GatedStep(spec: TaskSpec, exec: Executor, router: Router, isFloat: FloatSyntax,
    context: nat -> seq<string>, p: Progress, step: nat): Raising<Progress>
  {
    var obs := Observation(step, spec.allowedTools, None, p.hint, None, context(step));
    match router(obs)
    case Raised(e) => Raised(e)
    case Returned(proposed) =>
      var action := Enforce(proposed, spec.allowedTools);
      var (result, ws) := exec(action, p.ws);
      var history := p.history + [Entry(step, action, result)];
      match VerifySpec(spec, Some(result), ws, isFloat)
      case Raised(e) => Raised(e)
      case Returned(v) =>
        Returned(Progress(ws, Some(result), if v.ok then p.hint else FromVerifier(v.hint), history, v.ok))
  }

  /** The state after the first `n` iterations of a step loop whose body
      is `step` (given the state and the 1-based step number), which stops
      once `done` holds or the body raises. */
  function Steps<S>(step: (S, nat) -> Raising<S>, done: S -> bool, start: S, n: nat): Raising<S> {
    if n == 0 then Returned(start)
    else
      match Steps(step, done, start, n - 1)
      case Raised(e) => Raised(e)
      case Returned(p) => if done(p) then Returned(p) else step(p, n)
  }

  /** Induction over the iterations of a loop: what holds of the start and
      is kept by every step taken from a state that has not stopped, and by
      each iteration that finds the loop stopped, holds after any number of
      iterations that returned. */
  lemma {:induction false} StepsInduct<S>(step: (S, nat) -> Raising<S>, done: S -> bool, start: S, n: nat,
    inv: (S, nat) -> bool)
    requires inv(start, 0)
    requires forall s: S, k: nat | 0 < k <= n && inv(s, k - 1) && !done(s) && step(s, k).Returned? :: inv(step(s, k).value, k)
    requires forall s: S, k: nat | 0 < k <= n && inv(s, k - 1) && done(s) :: inv(s, k)
    requires Steps(step, done, start, n).Returned?
    ensures inv(Steps(step, done, start, n).value, n)
  {
    if n > 0 {
      StepsInduct(step, done, start, n - 1, inv);
    }
  }

  /** An iteration from a state that has not stopped runs the body. */
  lemma StepsNext<S>(step: (S, nat) -> Raising<S>, done: S -> bool, start: S, k: nat, s: S, next: Raising<S>)
    requires k > 0 && Steps(step, done, start, k - 1) == Returned(s) && !done(s) && next == step(s, k)
    ensures Steps(step, done, start, k) == next
  {
  }

  /** A loop that has stopped stays stopped. */
  lemma {:induction false} StepsStay<S>(step: (S, nat) -> Raising<S>, done: S -> bool, start: S, k: nat, n: nat)
    requires k <= n
    requires var r := Steps(step, done, start, k); r.Raised? || done(r.value)
    ensures Steps(step, done, start, n) == Steps(step, done, start, k)
    decreases n
  {
    if n > k {
      StepsStay(step, done, start, k, n - 1);
    }
  }

  /** A run that passed takes no further step. */
  predicate HasPassed(p: Progress) {
    p.ok
  }

  function GatedStepper(spec: TaskSpec, exec: Executor, router: Router, isFloat: FloatSyntax,
    context: nat -> seq<string>): (Progress, nat) -> Raising<Progress>
  {
    (p: Progress, step: nat) => GatedStep(spec, exec, router, isFloat, context, p, step)
  }

  /** The state after the first `n` iterations of the whitelist-and-verify
      loop. */
  function GatedRun(spec: TaskSpec, exec: Executor, router: Router, isFloat: FloatSyntax,
    context: nat -> seq<string>, start: Progress, n: nat): Raising<Progress>
  {
    Steps(GatedStepper(spec, exec, router, isFloat, context), HasPassed, start, n)
  }

  /** What a step loop that records its steps guarantees after `n`
      iterations: one numbered entry per executed step and at most `n` of
      them, every executed tool admitted by the spec or the directory
      listing, `last` the newest result; a passing run stopped at a passing
      full verification of the workspace it left, and a run that has not
      passed took all `n` steps and saw its last verification fail. */
  ghost predicate RunRecord(spec: TaskSpec, isFloat: FloatSyntax, p: Progress, n: nat) {
    && |p.history| <= n
    && Numbered(p.history)
    && (forall i | 0 <= i < |p.history| ::
          p.history[i].action.Name() in spec.allowedTools || p.history[i].action == FALLBACK)
    && (p.history == [] <==> p.last.None?)
    && (p.history != [] ==> p.last == Some(p.history[|p.history| - 1].result))
    && (p.ok ==> p.history != [] && Passes(VerifySpec(spec, p.last, p.ws, isFloat)))
    && (!p.ok ==> |p.history| == n)
    && (!p.ok && n > 0 ==> (VerifySpec(spec, p.last, p.ws, isFloat).Returned?
          && !VerifySpec(spec, p.last, p.ws, isFloat).value.ok))
  }

  /** Recording one more step keeps the record: the step appends one
      numbered entry whose tool is admitted, `last` is its result, and the
      run has passed exactly when the verification after it passed. */
  lemma RecordStep(spec: TaskSpec, isFloat: FloatSyntax, p: Progress, q: Progress, n: nat)
    requires n > 0 && RunRecord(spec, isFloat, p, n - 1) && !p.ok
    requires |q.history| == |p.history| + 1 && q.history[..|p.history|] == p.history
    requires q.history[|p.history|].step == n
    requires q.history[|p.history|].action.Name() in spec.allowedTools || q.history[|p.history|].action == FALLBACK
    requires q.last == Some(q.history[|p.history|].result)
    requires VerifySpec(spec, q.last, q.ws, isFloat).Returned? && q.ok == VerifySpec(spec, q.last, q.ws, isFloat).value.ok
    ensures RunRecord(spec, isFloat, q, n)
  {
    assert forall i | 0 <= i < |p.history| :: q.history[i] == p.history[i];
  }

  /** The record of `RunRecord`, and the hint of a run that has not passed
      is the hint of the verification that just failed. */
  ghost predicate HintedRecord(spec: TaskSpec, isFloat: FloatSyntax, p: Progress, n: nat) {
    && RunRecord(spec, isFloat, p, n)
    && (!p.ok && n > 0 ==> p.hint == FromVerifier(VerifySpec(spec, p.last, p.ws, isFloat).value.hint))
  }

  lemma {:induction false} GatedRunInvariant(spec: TaskSpec, exec: Executor, router: Router, isFloat: FloatSyntax,
    context: nat -> seq<string>, ws: Workspace, hint: string, n: nat)
    requires GatedRun(spec, exec, router, isFloat, context, Start(ws, hint), n).Returned?
    ensures HintedRecord(spec, isFloat, GatedRun(spec, exec, router, isFloat, context, Start(ws, hint), n).value, n)
  {
    if n > 0 {
      var start := Start(ws, hint);
      var prev := GatedRun(spec, exec, router, isFloat, context, start, n - 1);
      assert prev.Returned?;
      GatedRunInvariant(spec, exec, router, isFloat, context, ws, hint, n - 1);
      if !prev.value.ok {
        assert GatedRun(spec, exec, router, isFloat, context, start, n)
          == GatedStepper(spec, exec, router, isFloat, context)(prev.value, n);
        GatedStepKeeps(spec, exec, router, isFloat, context, prev.value, n);
      }
    }
  }

  /** One step of a run that has not passed keeps the invariant. */
  lemma GatedStepKeeps(spec: TaskSpec, exec: Executor, router: Router, isFloat: FloatSyntax,
    context: nat -> seq<string>, p: Progress, n: nat)
    requires n > 0 && HintedRecord(spec, isFloat, p, n - 1) && !p.ok
    requires GatedStep(spec, exec, router, isFloat, context, p, n).Returned?
    ensures HintedRecord(spec, isFloat, GatedStep(spec, exec, router, isFloat, context, p, n).value, n)
  {
    var obs := Observation(n, spec.allowedTools, None, p.hint, None, context(n));
    var action := Enforce(router(obs).value, spec.allowedTools);
    EnforceFacts(router(obs).value, spec.allowedTools);
    var q := GatedStep(spec, exec, router, isFloat, context, p, n).value;
    assert q.history == p.history + [Entry(n, action, q.last.value)];
  }

  /** The step loop of a whitelist-and-verify driver, from workspace `ws`
      with first hint `hint`: at most `maxSteps` steps, returning at the
      first passing verification. */
  method RunGated(spec: TaskSpec, exec: Executor, router: Router, isFloat: FloatSyntax,
    context: nat -> seq<string>, ws: Workspace, hint: string, maxSteps: nat)
    returns (r: Raising<RunResult>)
    ensures r == Report(GatedRun(spec, exec, router, isFloat, context, Start(ws, hint), maxSteps))
    ensures r.Returned? ==> |r.value.history| <= maxSteps && Numbered(r.value.history)
    ensures r.Returned? ==> forall i | 0 <= i < |r.value.history| ::
      r.value.history[i].action.Name() in spec.allowedTools || r.value.history[i].action == FALLBACK
    ensures r.Returned? && !r.value.ok ==> |r.value.history| == maxSteps
    ensures r.Returned? && r.value.ok ==> (r.value.history != []
      && Passes(VerifySpec(spec, Some(r.value.history[|r.value.history| - 1].result), r.value.ws, isFloat)))
  {
    var start := Start(ws, hint);
    var p := start;
    for step := 1 to maxSteps + 1
      invariant GatedRun(spec, exec, router, isFloat, context, start, step - 1) == Returned(p) && !p.ok
    {
      var next := RunStep(spec, exec, router, isFloat, context, p, step);
      assert GatedRun(spec, exec, router, isFloat, context, start, step) == next by {
        assert GatedStepper(spec, exec, router, isFloat, context)(p, step) == next;
      }
      if next.Raised? || next.value.ok {
        StepsStay(GatedStepper(spec, exec, router, isFloat, context), HasPassed, start, step, maxSteps);
        if next.Returned? {
          GatedRunInvariant(spec, exec, router, isFloat, context, ws, hint, maxSteps);
        }
        return Report(next);
      }
      p := next.value;
    }
    GatedRunInvariant(spec, exec, router, isFloat, context, ws, hint, maxSteps);
    r := Returned(RunResult(false, p.history, p.ws));
  }

  /** One pass of the loop body: the router's action, the whitelist, the
      tool, the record, and the full verification. */
  method RunStep(spec: TaskSpec, exec: Executor, router: Router, isFloat: FloatSyntax,
    context: nat -> seq<string>, p: Progress, step: nat)
    returns (r: Raising<Progress>)
    ensures r == GatedStep(spec, exec, router, isFloat, context, p, step)
  {
    var obs := Observation(step, spec.allowedTools, None, p.hint, None, context(step));
    var routed := router(obs);
    if routed.Raised? {
      return Raised(routed.exc);
    }
    var action := routed.value;
    if action.Name() !in spec.allowedTools {
      action := FALLBACK;
    }
    var (result, ws') := exec(action, p.ws);
    var history := p.history + [Entry(step, action, result)];
    var v := Verify(spec, Some(result), ws', isFloat);
    if v.Raised? {
      return Raised(v.exc);
    }
    if v.value.ok {
      return Returned(Progress(ws', Some(result), p.hint, history, true));
    }
    r := Returned(Progress(ws', Some(result), FromVerifier(v.value.hint), history, false));
  }
}
