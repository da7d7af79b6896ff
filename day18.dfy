/** The day-18 driver: the phase loop of the artifact checks with the
    robust action cascade, a history of every executed step, and one
    episode written to the memory store after the loop. */
module Day18 {
  import opened Wrappers
  import opened Workspaces
  import opened TaskSpecs
  import opened ToolSchema
  import opened Verifier
  import opened BenchTasks
  import opened Agent
  import RobustAction

  const MAX_STEPS: nat := 25
  const START_HINT: string := "Start."

  /** `to_spec(bt.task)`, then each artifact field of the bench task that is
      given and non-empty. The expected stdout is never copied. */
  function Day18Spec(bt: BenchTask): TaskSpec {
    CopyArtifacts(TaskOnlySpec(bt.task), bt)
  }

  /** The spec never asks for an exact stdout, whatever stdout the bench
      task expects, and admits all four tools. */
  lemma Day18SpecFacts(bt: BenchTask)
    ensures var s := Day18Spec(bt);
      && s.task == bt.task
      && s.requiredFiles == bt.requiredFiles.GetOr([])
      && s.csvRequiredColumns == bt.csvRequiredColumns.GetOr([])
      && s.csvMinRows == bt.csvMinRows.GetOr([])
      && s.stdoutIsNumber && s.stdoutExact.None?
      && s.allowedTools == ALL_TOOLS
  {
  }

  /** One stored episode: `add_episode(run_id, task, ok, payload)` with the
      payload's history. */
  datatype Episode = Episode(runId: string, task: string, ok: bool, history: seq<Entry>)

  /** The memory store, as the list of the episodes it holds. */
  class EpisodeStore {
    var episodes: seq<Episode>

    constructor ()
      ensures episodes == []
    {
      episodes := [];
    }

    /** `add_episode`: one more episode, after those already stored. */
    method AddEpisode(runId: string, task: string, ok: bool, history: seq<Entry>)
      modifies this
      ensures episodes == old(episodes) + [Episode(runId, task, ok, history)]
    {
      episodes := episodes + [Episode(runId, task, ok, history)];
    }
  }

  /** One step: the tools of the artifact checks' phase, the cascade over
      them, the tool, the full verification, whose hint is kept whether or
      not it passed. */
  function PhaseStep(spec: TaskSpec, exec: Executor, router: Router, repair: Repair, isFloat: FloatSyntax,
    p: Progress, step: nat): Raising<Progress>
  {
    match ArtifactCheck(spec, p.ws)
    case Raised(e) => Raised(e)
    case Returned(artifactsOk) =>
      var allowed := AllowedForPhase(artifactsOk);
      var obs := Observation(step, allowed, None, p.hint, Some(ArtifactGaps(spec, p.ws)), []);
      match RobustAction.RobustNextAction(router(obs), allowed, repair(step))
      case Raised(e) => Raised(e)
      case Returned(d) =>
        var (result, ws) := exec(d.action, p.ws);
        var history := p.history + [Entry(step, d.action, result)];
        match VerifySpec(spec, Some(result), ws, isFloat)
        case Raised(e) => Raised(e)
        case Returned(v) => Returned(Progress(ws, Some(result), FromVerifier(v.hint), history, v.ok))
  }

  function PhaseStepper(spec: TaskSpec, exec: Executor, router: Router, repair: Repair, isFloat: FloatSyntax)
    : (Progress, nat) -> Raising<Progress>
  {
    (p: Progress, step: nat) => PhaseStep(spec, exec, router, repair, isFloat, p, step)
  }

  /** The state after the first `n` iterations of the script's loop. */
  function PhaseRun(spec: TaskSpec, exec: Executor, router: Router, repair: Repair, isFloat: FloatSyntax,
    start: Progress, n: nat): Raising<Progress>
  {
    Steps(PhaseStepper(spec, exec, router, repair, isFloat), HasPassed, start, n)
  }

  /** The record of `RunRecord`, and once a step has run the hint is that of
      the newest verification, passed or not. */
  ghost predicate Day18Invariant(spec: TaskSpec, isFloat: FloatSyntax, p: Progress, n: nat) {
    && RunRecord(spec, isFloat, p, n)
    && (p.history != [] ==> (VerifySpec(spec, p.last, p.ws, isFloat).Returned?
          && p.hint == FromVerifier(VerifySpec(spec, p.last, p.ws, isFloat).value.hint)))
  }

  /** The tool a step executes is one its phase admits, or the directory
      listing: once the artifacts are in place only `python_exec` (or the
      listing) runs, and `python_exec` never runs before. The step appends
      one entry, its result becomes `last`, and the hint is the
      verification's. */
  lemma PhaseStepAdmits(spec: TaskSpec, exec: Executor, router: Router, repair: Repair, isFloat: FloatSyntax,
    p: Progress, step: nat)
    requires PhaseStep(spec, exec, router, repair, isFloat, p, step).Returned?
    ensures var q := PhaseStep(spec, exec, router, repair, isFloat, p, step).value;
      var a := q.history[|p.history|].action;
      && |q.history| == |p.history| + 1
      && q.history[..|p.history|] == p.history
      && q.history[|p.history|].step == step
      && q.last == Some(q.history[|p.history|].result)
      && (a.Name() in AllowedForPhase(ArtifactCheck(spec, p.ws).value) || a == FALLBACK)
      && (ArtifactsHold(spec, p.ws) ==> a.name == PythonExec || a == FALLBACK)
      && (!ArtifactsHold(spec, p.ws) ==> a.name != PythonExec)
      && VerifySpec(spec, q.last, q.ws, isFloat).Returned?
      && q.ok == VerifySpec(spec, q.last, q.ws, isFloat).value.ok
      && q.hint == FromVerifier(VerifySpec(spec, q.last, q.ws, isFloat).value.hint)
  {
    var artifactsOk := ArtifactCheck(spec, p.ws).value;
    ArtifactCheckIff(spec, p.ws);
    var allowed := AllowedForPhase(artifactsOk);
    var obs := Observation(step, allowed, None, p.hint, Some(ArtifactGaps(spec, p.ws)), []);
    var d := RobustAction.RobustNextAction(router(obs), allowed, repair(step)).value;
    AllowedForPhasePartition(d.action.name);
    var q := PhaseStep(spec, exec, router, repair, isFloat, p, step).value;
    assert q.history == p.history + [Entry(step, d.action, q.last.value)];
  }

  /** One step of a run that has not passed keeps the invariant. */
  lemma PhaseStepKeeps(spec: TaskSpec, exec: Executor, router: Router, repair: Repair, isFloat: FloatSyntax,
    p: Progress, n: nat)
    requires spec.allowedTools == ALL_TOOLS
    requires n > 0 && Day18Invariant(spec, isFloat, p, n - 1) && !p.ok
    requires PhaseStep(spec, exec, router, repair, isFloat, p, n).Returned?
    ensures Day18Invariant(spec, isFloat, PhaseStep(spec, exec, router, repair, isFloat, p, n).value, n)
  {
    PhaseStepAdmits(spec, exec, router, repair, isFloat, p, n);
    var q := PhaseStep(spec, exec, router, repair, isFloat, p, n).value;
    ToolNameRoundTrip(q.history[|p.history|].action.name);
    RecordStep(spec, isFloat, p, q, n);
  }

  /** Every step the loop can take keeps the invariant. */
  lemma PhaseStepperKeeps(spec: TaskSpec, exec: Executor, router: Router, repair: Repair, isFloat: FloatSyntax)
    requires spec.allowedTools == ALL_TOOLS
    ensures var stepper := PhaseStepper(spec, exec, router, repair, isFloat);
      forall p: Progress, k: nat | 0 < k && Day18Invariant(spec, isFloat, p, k - 1) && !HasPassed(p) && stepper(p, k).Returned?
        :: Day18Invariant(spec, isFloat, stepper(p, k).value, k)
  {
    forall p: Progress, k: nat | 0 < k && Day18Invariant(spec, isFloat, p, k - 1) && !HasPassed(p)
      && PhaseStep(spec, exec, router, repair, isFloat, p, k).Returned?
      ensures Day18Invariant(spec, isFloat, PhaseStep(spec, exec, router, repair, isFloat, p, k).value, k)
    {
      PhaseStepKeeps(spec, exec, router, repair, isFloat, p, k);
    }
  }

  /** After any number of iterations that returned, the run keeps the
      invariant. */
  lemma PhaseRunInvariant(spec: TaskSpec, exec: Executor, router: Router, repair: Repair, isFloat: FloatSyntax,
    ws: Workspace, hint: string, n: nat)
    requires spec.allowedTools == ALL_TOOLS
    requires PhaseRun(spec, exec, router, repair, isFloat, Start(ws, hint), n).Returned?
    ensures Day18Invariant(spec, isFloat, PhaseRun(spec, exec, router, repair, isFloat, Start(ws, hint), n).value, n)
  {
    PhaseStepperKeeps(spec, exec, router, repair, isFloat);
    StepsInduct(PhaseStepper(spec, exec, router, repair, isFloat), HasPassed, Start(ws, hint), n,
      (p: Progress, k: nat) => Day18Invariant(spec, isFloat, p, k));
  }

  /** A pass of the loop body. */
  method Step(spec: TaskSpec, exec: Executor, router: Router, repair: Repair, isFloat: FloatSyntax,
    p: Progress, step: nat)
    returns (r: Raising<Progress>)
    ensures r == PhaseStepper(spec, exec, router, repair, isFloat)(p, step)
  {
    var vArt := ArtifactCheck(spec, p.ws);
    if vArt.Raised? {
      return Raised(vArt.exc);
    }
    var allowed := if vArt.value then COMPUTE_TOOLS else ARTIFACT_TOOLS;
    var obs := Observation(step, allowed, None, p.hint, Some(ArtifactGaps(spec, p.ws)), []);
    var decided := RobustAction.RobustNextAction(router(obs), allowed, repair(step));
    if decided.Raised? {
      return Raised(decided.exc);
    }
    var action := decided.value.action;
    var (result, ws') := exec(action, p.ws);
    var history := p.history + [Entry(step, action, result)];
    var v := Verify(spec, Some(result), ws', isFloat);
    if v.Raised? {
      return Raised(v.exc);
    }
    r := Returned(Progress(ws', Some(result), FromVerifier(v.value.hint), history, v.value.ok));
  }

  /** The step loop: at most `maxSteps` steps, breaking at the first
      passing verification. */
  method Loop(spec: TaskSpec, exec: Executor, router: Router, repair: Repair, isFloat: FloatSyntax,
    start: Progress, maxSteps: nat)
    returns (r: Raising<Progress>)
    requires !start.ok
    ensures r == PhaseRun(spec, exec, router, repair, isFloat, start, maxSteps)
  {
    var p := start;
    for step := 1 to maxSteps + 1
      invariant PhaseRun(spec, exec, router, repair, isFloat, start, step - 1) == Returned(p) && !p.ok
    {
      var next := Step(spec, exec, router, repair, isFloat, p, step);
      assert PhaseRun(spec, exec, router, repair, isFloat, start, step) == next;
      if next.Raised? || next.value.ok {
        StepsStay(PhaseStepper(spec, exec, router, repair, isFloat), HasPassed, start, step, maxSteps);
        return next;
      }
      p := next.value;
    }
    r := Returned(p);
  }

  /** The script from the workspace it finds: the loop, then exactly one
      episode with the run's outcome and history added to the store; a run
      that raises stores nothing. */
  method RunScript(bt: BenchTask, exec: Executor, router: Router, repair: Repair, isFloat: FloatSyntax,
    ws: Workspace, runId: string, store: EpisodeStore)
    returns (r: Raising<RunResult>)
    modifies store
    ensures r == Report(PhaseRun(Day18Spec(bt), exec, router, repair, isFloat, Start(ws, START_HINT), MAX_STEPS))
    ensures r.Returned? ==> store.episodes == old(store.episodes) + [Episode(runId, bt.task, r.value.ok, r.value.history)]
    ensures r.Raised? ==> store.episodes == old(store.episodes)
  {
    var spec := TaskOnlySpec(bt.task);
    spec := CopyArtifacts(spec, bt);
    var res := Loop(spec, exec, router, repair, isFloat, Start(ws, START_HINT), MAX_STEPS);
    r := Report(res);
    if r.Returned? {
      store.AddEpisode(runId, bt.task, r.value.ok, r.value.history);
    }
  }

  /** The stored episode: `ok` exactly when the last recorded step's full
      verification passed, one numbered entry per executed step and at most
      25, all 25 when it did not pass. */
  lemma RunScriptRecord(bt: BenchTask, exec: Executor, router: Router, repair: Repair, isFloat: FloatSyntax, ws: Workspace)
    requires PhaseRun(Day18Spec(bt), exec, router, repair, isFloat, Start(ws, START_HINT), MAX_STEPS).Returned?
    ensures var p := PhaseRun(Day18Spec(bt), exec, router, repair, isFloat, Start(ws, START_HINT), MAX_STEPS).value;
      && |p.history| <= MAX_STEPS && Numbered(p.history)
      && (!p.ok ==> |p.history| == MAX_STEPS)
      && (p.history != [] ==> (p.ok <==> Passes(VerifySpec(Day18Spec(bt), Some(p.history[|p.history| - 1].result), p.ws, isFloat))))
      && (p.ok ==> p.history != [])
  {
    PhaseRunInvariant(Day18Spec(bt), exec, router, repair, isFloat, ws, START_HINT, MAX_STEPS);
  }
}
