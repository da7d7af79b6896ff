/** The day-17 driver: the phase of each step is looked up in a two-phase
    state machine by the outcome of the artifact checks, the robust action
    cascade is restricted to that phase's tools, and the loop ends at the
    first passing full verification. */
module Day17 {
  import opened Wrappers
  import opened Dicts
  import opened Workspaces
  import opened TaskSpecs
  import opened ToolSchema
  import opened Verifier
  import opened BenchTasks
  import opened Agent
  import SM = StateMachine
  import RobustAction

  const MAX_STEPS: nat := 30
  const START_HINT: string := "Start."

  /** `to_spec(bt.task)`, then each artifact field of the bench task that is
      given and non-empty. The expected stdout is never copied. */
  function Day17Spec(bt: BenchTask): TaskSpec {
    CopyArtifacts(TaskOnlySpec(bt.task), bt)
  }

  /** The spec asks for a numeric stdout and never an exact one, whatever
      stdout the bench task expects; it holds the task's artifact
      constraints, with missing ones empty, and all four tools. */
  lemma Day17SpecFacts(bt: BenchTask)
    ensures var s := Day17Spec(bt);
      && s.task == bt.task
      && s.requiredFiles == bt.requiredFiles.GetOr([])
      && s.csvRequiredColumns == bt.csvRequiredColumns.GetOr([])
      && s.csvMinRows == bt.csvMinRows.GetOr([])
      && s.stdoutIsNumber && s.stdoutExact.None?
      && s.allowedTools == ALL_TOOLS
  {
  }

  /** The spec built as the script builds it: `to_spec`, then one
      conditional assignment per artifact field. */
  method BuildSpec(bt: BenchTask) returns (spec: TaskSpec)
    ensures spec == Day17Spec(bt)
  {
    spec := NewTaskSpec(bt.task);
    spec := spec.(allowedTools := ALL_TOOLS);
    spec := spec.(stdoutIsNumber := true);
    if bt.requiredFiles.Some? && bt.requiredFiles.value != [] {
      spec := spec.(requiredFiles := bt.requiredFiles.value);
    }
    if bt.csvRequiredColumns.Some? && bt.csvRequiredColumns.value != [] {
      spec := spec.(csvRequiredColumns := bt.csvRequiredColumns.value);
    }
    if bt.csvMinRows.Some? && bt.csvMinRows.value != [] {
      spec := spec.(csvMinRows := bt.csvMinRows.value);
    }
  }

  const ARTIFACTS_PHASE: SM.Phase :=
    SM.Phase("ARTIFACTS", ARTIFACT_TOOLS, "Fix missing files/schema/rows on disk using file_write.")
  const COMPUTE_PHASE: SM.Phase :=
    SM.Phase("COMPUTE", COMPUTE_TOOLS, "Read files from disk, compute final answer, print ONLY the number.")

  /** The phase the artifact checks select. */
  function PhaseOf(artifactsOk: bool): SM.Phase {
    if artifactsOk then COMPUTE_PHASE else ARTIFACTS_PHASE
  }

  /** The script's machine: the artifact phase, then the compute phase. */
  const MACHINE: SM.StateMachine := SM.NewStateMachine([ARTIFACTS_PHASE, COMPUTE_PHASE])

  /** Both phase names are found, each with its own phase, so the lookup
      never raises a KeyError. */
  lemma MachinePhases(artifactsOk: bool)
    ensures MACHINE.Get(PhaseName(artifactsOk)) == Returned(PhaseOf(artifactsOk))
    ensures PhaseOf(artifactsOk).name == PhaseName(artifactsOk)
    ensures PhaseOf(artifactsOk).allowedTools == AllowedForPhase(artifactsOk)
  {
    var phases := [ARTIFACTS_PHASE, COMPUTE_PHASE];
    var one: seq<SM.Phase> := [ARTIFACTS_PHASE];
    assert phases[..1] == one && one[..0] == [];
    assert SM.PhaseTable(one) == [("ARTIFACTS", ARTIFACTS_PHASE)];
    assert "ARTIFACTS"[0] != "COMPUTE"[0];
    assert IndexOf([("ARTIFACTS", ARTIFACTS_PHASE)], "COMPUTE") == -1;
    var table := [("ARTIFACTS", ARTIFACTS_PHASE), ("COMPUTE", COMPUTE_PHASE)];
    assert SM.PhaseTable(phases) == table;
    assert IndexOf(table, "ARTIFACTS") == 0;
    assert IndexOf(table[1..], "COMPUTE") == 0;
  }

  /** `sm` holds the script's two phases under their names. */
  predicate HoldsPhases(sm: SM.StateMachine) {
    sm.Get("COMPUTE") == Returned(COMPUTE_PHASE) && sm.Get("ARTIFACTS") == Returned(ARTIFACTS_PHASE)
  }

  /** One step: the artifact checks, the phase of that outcome, the cascade
      over that phase's tools, the tool, the full verification, and its
      hint when it fails. */
  function PhasedStep(spec: TaskSpec, sm: SM.StateMachine, exec: Executor, router: Router, repair: Repair,
    isFloat: FloatSyntax, p: Progress, step: nat): Raising<Progress>
  {
    match ArtifactCheck(spec, p.ws)
    case Raised(e) => Raised(e)
    case Returned(artifactsOk) =>
      match sm.Get(PhaseName(artifactsOk))
      case Raised(e) => Raised(e)
      case Returned(phase) =>
        var obs := Observation(step, phase.allowedTools, Some(phase.name), p.hint, Some(ArtifactGaps(spec, p.ws)), [phase.instruction]);
        match RobustAction.RobustNextAction(router(obs), phase.allowedTools, repair(step))
        case Raised(e) => Raised(e)
        case Returned(d) =>
          var (result, ws) := exec(d.action, p.ws);
          var history := p.history + [Entry(step, d.action, result)];
          match VerifySpec(spec, Some(result), ws, isFloat)
          case Raised(e) => Raised(e)
          case Returned(v) =>
            Returned(Progress(ws, Some(result), if v.ok then p.hint else FromVerifier(v.hint), history, v.ok))
  }

  function PhasedStepper(spec: TaskSpec, sm: SM.StateMachine, exec: Executor, router: Router, repair: Repair,
    isFloat: FloatSyntax): (Progress, nat) -> Raising<Progress>
  {
    (p: Progress, step: nat) => PhasedStep(spec, sm, exec, router, repair, isFloat, p, step)
  }

  /** The state after the first `n` iterations of the script's loop. */
  function PhasedRun(spec: TaskSpec, sm: SM.StateMachine, exec: Executor, router: Router, repair: Repair,
    isFloat: FloatSyntax, start: Progress, n: nat): Raising<Progress>
  {
    Steps(PhasedStepper(spec, sm, exec, router, repair, isFloat), HasPassed, start, n)
  }

  /** With the script's phases, the tool a step executes is one the phase
      of the artifact checks admits, or the directory listing: once the
      artifacts are in place only `python_exec` (or the listing) runs, and
      `python_exec` never runs before. The step appends one entry, its
      result becomes `last`, and on failure the hint is the verification's. */
  lemma PhasedStepAdmits(spec: TaskSpec, sm: SM.StateMachine, exec: Executor, router: Router, repair: Repair,
    isFloat: FloatSyntax, p: Progress, step: nat)
    requires HoldsPhases(sm)
    requires PhasedStep(spec, sm, exec, router, repair, isFloat, p, step).Returned?
    ensures var q := PhasedStep(spec, sm, exec, router, repair, isFloat, p, step).value;
      var a := q.history[|p.history|].action;
      && |q.history| == |p.history| + 1
      && q.history[..|p.history|] == p.history
      && q.history[|p.history|].step == step
      && q.last == Some(q.history[|p.history|].result)
      && (a.Name() in AllowedForPhase(ArtifactCheck(spec, p.ws).value) || a == FALLBACK)
      && (ArtifactsHold(spec, p.ws) ==> a.name == PythonExec || a == FALLBACK)
      && (!ArtifactsHold(spec, p.ws) ==> a.name != PythonExec)
      && VerifySpec(spec, q.last, q.ws, isFloat).Returned?
      && q.ok == VerifySpec(spec, q.last, q.ws, isFloat).value.ok
      && (!q.ok ==> q.hint == FromVerifier(VerifySpec(spec, q.last, q.ws, isFloat).value.hint))
  {
    var artifactsOk := ArtifactCheck(spec, p.ws).value;
    ArtifactCheckIff(spec, p.ws);
    var phase := PhaseOf(artifactsOk);
    assert sm.Get(PhaseName(artifactsOk)) == Returned(phase);
    var obs := Observation(step, phase.allowedTools, Some(phase.name), p.hint, Some(ArtifactGaps(spec, p.ws)), [phase.instruction]);
    var d := RobustAction.RobustNextAction(router(obs), phase.allowedTools, repair(step)).value;
    AllowedForPhasePartition(d.action.name);
    var q := PhasedStep(spec, sm, exec, router, repair, isFloat, p, step).value;
    assert q.history == p.history + [Entry(step, d.action, q.last.value)];
  }

  /** One step of a run that has not passed keeps the record and the hint. */
  lemma PhasedStepKeeps(spec: TaskSpec, sm: SM.StateMachine, exec: Executor, router: Router, repair: Repair,
    isFloat: FloatSyntax, p: Progress, n: nat)
    requires HoldsPhases(sm) && spec.allowedTools == ALL_TOOLS
    requires n > 0 && HintedRecord(spec, isFloat, p, n - 1) && !p.ok
    requires PhasedStep(spec, sm, exec, router, repair, isFloat, p, n).Returned?
    ensures HintedRecord(spec, isFloat, PhasedStep(spec, sm, exec, router, repair, isFloat, p, n).value, n)
  {
    PhasedStepAdmits(spec, sm, exec, router, repair, isFloat, p, n);
    var q := PhasedStep(spec, sm, exec, router, repair, isFloat, p, n).value;
    ToolNameRoundTrip(q.history[|p.history|].action.name);
    RecordStep(spec, isFloat, p, q, n);
  }

  /** Every step the loop can take keeps the record and the hint. */
  lemma PhasedStepperKeeps(spec: TaskSpec, sm: SM.StateMachine, exec: Executor, router: Router,
    repair: Repair, isFloat: FloatSyntax)
    requires HoldsPhases(sm) && spec.allowedTools == ALL_TOOLS
    ensures var stepper := PhasedStepper(spec, sm, exec, router, repair, isFloat);
      forall p: Progress, k: nat | 0 < k && HintedRecord(spec, isFloat, p, k - 1) && !HasPassed(p) && stepper(p, k).Returned?
        :: HintedRecord(spec, isFloat, stepper(p, k).value, k)
  {
    forall p: Progress, k: nat | 0 < k && HintedRecord(spec, isFloat, p, k - 1) && !HasPassed(p)
      && PhasedStep(spec, sm, exec, router, repair, isFloat, p, k).Returned?
      ensures HintedRecord(spec, isFloat, PhasedStep(spec, sm, exec, router, repair, isFloat, p, k).value, k)
    {
      PhasedStepKeeps(spec, sm, exec, router, repair, isFloat, p, k);
    }
  }

  /** After any number of iterations that returned, the run keeps the
      record and the hint. */
  lemma PhasedRunInvariant(spec: TaskSpec, sm: SM.StateMachine, exec: Executor, router: Router,
    repair: Repair, isFloat: FloatSyntax, ws: Workspace, hint: string, n: nat)
    requires HoldsPhases(sm) && spec.allowedTools == ALL_TOOLS
    requires PhasedRun(spec, sm, exec, router, repair, isFloat, Start(ws, hint), n).Returned?
    ensures HintedRecord(spec, isFloat, PhasedRun(spec, sm, exec, router, repair, isFloat, Start(ws, hint), n).value, n)
  {
    PhasedStepperKeeps(spec, sm, exec, router, repair, isFloat);
    StepsInduct(PhasedStepper(spec, sm, exec, router, repair, isFloat), HasPassed, Start(ws, hint), n,
      (p: Progress, k: nat) => HintedRecord(spec, isFloat, p, k));
  }

  /** A pass of the loop body. */
  method Step(spec: TaskSpec, sm: SM.StateMachine, exec: Executor, router: Router, repair: Repair,
    isFloat: FloatSyntax, p: Progress, step: nat)
    returns (r: Raising<Progress>)
    ensures r == PhasedStepper(spec, sm, exec, router, repair, isFloat)(p, step)
  {
    var vArt := ArtifactCheck(spec, p.ws);
    if vArt.Raised? {
      return Raised(vArt.exc);
    }
    var phase := sm.Get(PhaseName(vArt.value));
    if phase.Raised? {
      return Raised(phase.exc);
    }
    var allowed := phase.value.allowedTools;
    var obs := Observation(step, allowed, Some(phase.value.name), p.hint, Some(ArtifactGaps(spec, p.ws)), [phase.value.instruction]);
    var decided := RobustAction.RobustNextAction(router(obs), allowed, repair(step));
    if decided.Raised? {
      return Raised(decided.exc);
    }
    var action := decided.value.action;
    var (last, ws') := exec(action, p.ws);
    var history := p.history + [Entry(step, action, last)];
    var v := Verify(spec, Some(last), ws', isFloat);
    if v.Raised? {
      return Raised(v.exc);
    }
    if v.value.ok {
      return Returned(Progress(ws', Some(last), p.hint, history, true));
    }
    r := Returned(Progress(ws', Some(last), FromVerifier(v.value.hint), history, false));
  }

  /** The step loop: at most `maxSteps` steps, breaking at the first
      passing verification. */
  method Loop(spec: TaskSpec, sm: SM.StateMachine, exec: Executor, router: Router, repair: Repair,
    isFloat: FloatSyntax, start: Progress, maxSteps: nat)
    returns (r: Raising<Progress>)
    requires !start.ok
    ensures r == PhasedRun(spec, sm, exec, router, repair, isFloat, start, maxSteps)
  {
    var p := start;
    for step := 1 to maxSteps + 1
      invariant PhasedRun(spec, sm, exec, router, repair, isFloat, start, step - 1) == Returned(p) && !p.ok
    {
      var next := Step(spec, sm, exec, router, repair, isFloat, p, step);
      assert PhasedRun(spec, sm, exec, router, repair, isFloat, start, step) == next;
      if next.Raised? || next.value.ok {
        StepsStay(PhasedStepper(spec, sm, exec, router, repair, isFloat), HasPassed, start, step, maxSteps);
        return next;
      }
      p := next.value;
    }
    r := Returned(p);
  }

  /** The script from the workspace the reset leaves: at most 30 steps,
      stopping at the first passing verification, which is the only case
      that reports `ok`. */
  method RunScript(bt: BenchTask, exec: Executor, router: Router, repair: Repair, isFloat: FloatSyntax, ws: Workspace)
    returns (r: Raising<RunResult>)
    ensures r == Report(PhasedRun(Day17Spec(bt), MACHINE, exec, router, repair, isFloat, Start(ws, START_HINT), MAX_STEPS))
  {
    var spec := BuildSpec(bt);
    var res := Loop(spec, MACHINE, exec, router, repair, isFloat, Start(ws, START_HINT), MAX_STEPS);
    r := Report(res);
  }

  /** The script's run keeps the record: at most 30 numbered steps, each
      tool admitted by its phase or the listing, a pass only at a passing
      full verification under a spec without an exact stdout. */
  lemma RunScriptRecord(bt: BenchTask, exec: Executor, router: Router, repair: Repair, isFloat: FloatSyntax, ws: Workspace)
    requires PhasedRun(Day17Spec(bt), MACHINE, exec, router, repair, isFloat, Start(ws, START_HINT), MAX_STEPS).Returned?
    ensures var p := PhasedRun(Day17Spec(bt), MACHINE, exec, router, repair, isFloat, Start(ws, START_HINT), MAX_STEPS).value;
      && |p.history| <= MAX_STEPS && Numbered(p.history)
      && (!p.ok ==> |p.history| == MAX_STEPS)
      && (p.ok ==> p.history != [] && Passes(VerifySpec(Day17Spec(bt), Some(p.history[|p.history| - 1].result), p.ws, isFloat)))
  {
    MachinePhases(true);
    MachinePhases(false);
    PhasedRunInvariant(Day17Spec(bt), MACHINE, exec, router, repair, isFloat, ws, START_HINT, MAX_STEPS);
  }
}
