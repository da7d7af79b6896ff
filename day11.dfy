/** The day-11 driver: the robust action cascade over all four tools, a
    full verification after every step, and a hint that carries the first
    failure message. */
module Day11 {
  import opened Wrappers
  import opened Values
  import opened Workspaces
  import opened TaskSpecs
  import opened ToolSchema
  import opened Verifier
  import RobustAction
  import opened Agent

  const MAX_STEPS: nat := 30
  const START_HINT: string := "Start."

  /** `to_spec(task_text)`, then `if required_files: spec.required_files = required_files`. */
  function Day11Spec(task: string, requiredFiles: Option<seq<string>>): TaskSpec {
    var spec := TaskOnlySpec(task);
    if requiredFiles.Some? && requiredFiles.value != [] then spec.(requiredFiles := requiredFiles.value) else spec
  }

  /** All four tools, a numeric stdout, never an exact stdout, no CSV
      constraints, and the given files (none when none are given). */
  lemma Day11SpecFacts(task: string, requiredFiles: Option<seq<string>>)
    ensures var s := Day11Spec(task, requiredFiles);
      && s.task == task
      && s.requiredFiles == requiredFiles.GetOr([])
      && s.csvRequiredColumns == [] && s.csvMinRows == []
      && s.stdoutIsNumber && s.stdoutExact.None?
      && s.allowedTools == ALL_TOOLS
  {
  }

  /** `v.hint + v.messages[0] if v.messages else v.hint` */
  function NextHint(v: VerifyResult): HintText {
    if v.messages != [] then HintAndMessage(v.hint, v.messages[0]) else FromVerifier(v.hint)
  }

  /** One step: the cascade over the router's reply, the tool, the full
      verification, and the composed hint when it fails. */
  function RobustStep(spec: TaskSpec, exec: Executor, router: Router, repair: Repair, isFloat: FloatSyntax,
    p: Progress, step: nat): Raising<Progress>
  {
    var obs := Observation(step, spec.allowedTools, None, p.hint, None, []);
    match RobustAction.RobustNextAction(router(obs), spec.allowedTools, repair(step))
    case Raised(e) => Raised(e)
    case Returned(d) =>
      var (result, ws) := exec(d.action, p.ws);
      var history := p.history + [Entry(step, d.action, result)];
      match VerifySpec(spec, Some(result), ws, isFloat)
      case Raised(e) => Raised(e)
      case Returned(v) =>
        Returned(Progress(ws, Some(result), if v.ok then p.hint else NextHint(v), history, v.ok))
  }

  function RobustStepper(spec: TaskSpec, exec: Executor, router: Router, repair: Repair, isFloat: FloatSyntax)
    : (Progress, nat) -> Raising<Progress>
  {
    (p: Progress, step: nat) => RobustStep(spec, exec, router, repair, isFloat, p, step)
  }

  /** The state after the first `n` iterations of `run_one`'s loop. */
  function RobustRun(spec: TaskSpec, exec: Executor, router: Router, repair: Repair, isFloat: FloatSyntax,
    start: Progress, n: nat): Raising<Progress>
  {
    Steps(RobustStepper(spec, exec, router, repair, isFloat), HasPassed, start, n)
  }

  /** The loop's record, and the hint of a run that has not passed: the
      failed verification's hint followed by its first message, if any. */
  ghost predicate RobustInvariant(spec: TaskSpec, isFloat: FloatSyntax, p: Progress, n: nat) {
    && RunRecord(spec, isFloat, p, n)
    && (!p.ok && n > 0 ==> p.hint == NextHint(VerifySpec(spec, p.last, p.ws, isFloat).value))
  }

  /** One step of a run that has not passed keeps the invariant. */
  lemma RobustStepKeeps(spec: TaskSpec, exec: Executor, router: Router, repair: Repair, isFloat: FloatSyntax,
    p: Progress, n: nat)
    requires n > 0 && RobustInvariant(spec, isFloat, p, n - 1) && !p.ok
    requires RobustStep(spec, exec, router, repair, isFloat, p, n).Returned?
    ensures RobustInvariant(spec, isFloat, RobustStep(spec, exec, router, repair, isFloat, p, n).value, n)
  {
    var obs := Observation(n, spec.allowedTools, None, p.hint, None, []);
    var d := RobustAction.RobustNextAction(router(obs), spec.allowedTools, repair(n)).value;
    assert d.action.Name() in spec.allowedTools || d.action == FALLBACK;
    var q := RobustStep(spec, exec, router, repair, isFloat, p, n).value;
    assert q.history == p.history + [Entry(n, d.action, q.last.value)];
  }

  lemma RobustRunInvariant(spec: TaskSpec, exec: Executor, router: Router, repair: Repair,
    isFloat: FloatSyntax, ws: Workspace, hint: string, n: nat)
    requires RobustRun(spec, exec, router, repair, isFloat, Start(ws, hint), n).Returned?
    ensures RobustInvariant(spec, isFloat, RobustRun(spec, exec, router, repair, isFloat, Start(ws, hint), n).value, n)
  {
    RobustInduct(RobustStepper(spec, exec, router, repair, isFloat), spec, exec, router, repair, isFloat, ws, hint, n);
  }

  /** `stepper` takes the steps of `run_one`'s loop; the induction below
      reasons through `stepper` alone and never unfolds a step. */
  ghost predicate RobustDrives(stepper: (Progress, nat) -> Raising<Progress>, spec: TaskSpec, exec: Executor,
    router: Router, repair: Repair, isFloat: FloatSyntax)
  {
    forall p, k {:trigger RobustStep(spec, exec, router, repair, isFloat, p, k)} ::
      stepper(p, k) == RobustStep(spec, exec, router, repair, isFloat, p, k)
  }

  lemma {:induction false} RobustInduct(stepper: (Progress, nat) -> Raising<Progress>, spec: TaskSpec, exec: Executor,
    router: Router, repair: Repair, isFloat: FloatSyntax, ws: Workspace, hint: string, n: nat)
    requires RobustDrives(stepper, spec, exec, router, repair, isFloat)
    requires Steps(stepper, HasPassed, Start(ws, hint), n).Returned?
    ensures RobustInvariant(spec, isFloat, Steps(stepper, HasPassed, Start(ws, hint), n).value, n)
  {
    if n > 0 {
      var prev := Steps(stepper, HasPassed, Start(ws, hint), n - 1);
      assert prev.Returned?;
      RobustInduct(stepper, spec, exec, router, repair, isFloat, ws, hint, n - 1);
      if !prev.value.ok {
        assert Steps(stepper, HasPassed, Start(ws, hint), n) == stepper(prev.value, n);
        assert stepper(prev.value, n) == RobustStep(spec, exec, router, repair, isFloat, prev.value, n);
        RobustStepKeeps(spec, exec, router, repair, isFloat, prev.value, n);
      }
    }
  }

  /** A pass of the loop body. */
  method Step(spec: TaskSpec, exec: Executor, router: Router, repair: Repair, isFloat: FloatSyntax,
    p: Progress, step: nat)
    returns (r: Raising<Progress>)
    ensures r == RobustStepper(spec, exec, router, repair, isFloat)(p, step)
  {
    var obs := Observation(step, spec.allowedTools, None, p.hint, None, []);
    var decided := RobustAction.RobustNextAction(router(obs), spec.allowedTools, repair(step));
    if decided.Raised? {
      return Raised(decided.exc);
    }
    var action := decided.value.action;
    var (result, ws') := exec(action, p.ws);
    var v := Verify(spec, Some(result), ws', isFloat);
    if v.Raised? {
      return Raised(v.exc);
    }
    var history := p.history + [Entry(step, action, result)];
    if v.value.ok {
      return Returned(Progress(ws', Some(result), p.hint, history, true));
    }
    var hint := if v.value.messages != [] then HintAndMessage(v.value.hint, v.value.messages[0]) else FromVerifier(v.value.hint);
    r := Returned(Progress(ws', Some(result), hint, history, false));
  }

  /** `run_one(task_text, required_files)` from the workspace the reset
      leaves: at most 30 steps, True at the first passing verification. */
  method RunOne(task: string, requiredFiles: Option<seq<string>>, exec: Executor, router: Router, repair: Repair,
    isFloat: FloatSyntax, ws: Workspace)
    returns (r: Raising<bool>)
    ensures r == Succeeded(Report(RobustRun(Day11Spec(task, requiredFiles), exec, router, repair, isFloat,
      Start(ws, START_HINT), MAX_STEPS)))
  {
    var spec := TaskOnlySpec(task);
    if requiredFiles.Some? && requiredFiles.value != [] {
      spec := spec.(requiredFiles := requiredFiles.value);
    }
    var res := Loop(spec, exec, router, repair, isFloat, Start(ws, START_HINT), MAX_STEPS);
    r := Succeeded(Report(res));
  }

  /** The step loop: at most `maxSteps` steps, returning at the first
      passing verification. */
  method Loop(spec: TaskSpec, exec: Executor, router: Router, repair: Repair, isFloat: FloatSyntax,
    start: Progress, maxSteps: nat)
    returns (r: Raising<Progress>)
    requires !start.ok
    ensures r == RobustRun(spec, exec, router, repair, isFloat, start, maxSteps)
  {
    var p := start;
    for step := 1 to maxSteps + 1
      invariant RobustRun(spec, exec, router, repair, isFloat, start, step - 1) == Returned(p) && !p.ok
    {
      var next := Step(spec, exec, router, repair, isFloat, p, step);
      assert RobustRun(spec, exec, router, repair, isFloat, start, step) == next;
      if next.Raised? || next.value.ok {
        StepsStay(RobustStepper(spec, exec, router, repair, isFloat), HasPassed, start, step, maxSteps);
        return next;
      }
      p := next.value;
    }
    r := Returned(p);
  }
}
