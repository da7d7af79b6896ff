/** The day-13 critic driver: a plan asked of the model once, a phase from
    the artifact checks each step, the robust action cascade restricted to
    that phase's tools, a full verification, and a critic instruction
    written after each failed step. */
module Day13 {
  import opened Wrappers
  import opened Values
  import opened Workspaces
  import opened TaskSpecs
  import opened ToolSchema
  import opened Verifier
  import opened BenchTasks
  import opened PlanText
  import opened Agent
  import RobustAction

  const MAX_STEPS: nat := 30
  const START_HINT: string := "Start."

  /** `critique(task, action, result, gaps, hint)`: the critic model's
      instruction for the next step, or what it raised. */
  type Critic = (ToolCall, ToolResult, GapReport, Hint) -> Raising<string>

  /** `planner(task)`: unlike the day-9 planner nothing is caught, and an
      empty plan stays empty. */
  function Planner(chat: Raising<string>, parse: string -> Raising<Value>, repr: Value -> string): Raising<seq<string>> {
    match chat
    case Raised(e) => Raised(e)
    case Returned(reply) =>
      match PlanItems(reply, parse)
      case Raised(e) => Raised(e)
      case Returned(items) => Returned(PlanOf(items, repr))
  }

  /** The loop's state: the run so far and the critic's last instruction. */
  datatype CriticProgress = CriticProgress(run: Progress, extra: string)

  predicate CriticDone(c: CriticProgress) {
    c.run.ok
  }

  /** One step: the phase from the artifact checks, the cascade over that
      phase's tools, the tool, the full verification, and on failure the
      critic's new instruction and the verification's hint. */
  function CriticStep(spec: TaskSpec, plan: seq<string>, exec: Executor, router: Router, repair: Repair,
    critic: Critic, isFloat: FloatSyntax, c: CriticProgress, step: nat): Raising<CriticProgress>
  {
    var p := c.run;
    match ArtifactCheck(spec, p.ws)
    case Raised(e) => Raised(e)
    case Returned(artifactsOk) =>
      var allowed := AllowedForPhase(artifactsOk);
      var obs := Observation(step, allowed, Some(PhaseName(artifactsOk)), p.hint, Some(ArtifactGaps(spec, p.ws)), plan + [c.extra]);
      match RobustAction.RobustNextAction(router(obs), allowed, repair(step))
      case Raised(e) => Raised(e)
      case Returned(d) =>
        var (result, ws) := exec(d.action, p.ws);
        var history := p.history + [Entry(step, d.action, result)];
        match VerifySpec(spec, Some(result), ws, isFloat)
        case Raised(e) => Raised(e)
        case Returned(v) =>
          if v.ok then Returned(CriticProgress(Progress(ws, Some(result), p.hint, history, true), c.extra))
          else
            match critic(d.action, result, FullGaps(spec, Some(result), ws, isFloat), v.hint)
            case Raised(e) => Raised(e)
            case Returned(instruction) =>
              Returned(CriticProgress(Progress(ws, Some(result), FromVerifier(v.hint), history, false), instruction))
  }

  function CriticStepper(spec: TaskSpec, plan: seq<string>, exec: Executor, router: Router, repair: Repair,
    critic: Critic, isFloat: FloatSyntax): (CriticProgress, nat) -> Raising<CriticProgress>
  {
    (c: CriticProgress, step: nat) => CriticStep(spec, plan, exec, router, repair, critic, isFloat, c, step)
  }

  /** The state after the first `n` iterations of `run`'s loop. */
  function CriticRun(spec: TaskSpec, plan: seq<string>, exec: Executor, router: Router, repair: Repair,
    critic: Critic, isFloat: FloatSyntax, start: CriticProgress, n: nat): Raising<CriticProgress>
  {
    Steps(CriticStepper(spec, plan, exec, router, repair, critic, isFloat), CriticDone, start, n)
  }

  /** The tool a step executes is one its phase admits, or the directory
      listing: once the artifacts are in place only `python_exec` (or the
      listing) runs, and `python_exec` never runs before. The step appends
      one entry, its result becomes `last`, and on failure the hint is the
      verification's. */
  lemma CriticStepAdmits(spec: TaskSpec, plan: seq<string>, exec: Executor, router: Router, repair: Repair,
    critic: Critic, isFloat: FloatSyntax, c: CriticProgress, step: nat)
    requires CriticStep(spec, plan, exec, router, repair, critic, isFloat, c, step).Returned?
    ensures var q := CriticStep(spec, plan, exec, router, repair, critic, isFloat, c, step).value.run;
      var a := q.history[|c.run.history|].action;
      && |q.history| == |c.run.history| + 1
      && q.history[..|c.run.history|] == c.run.history
      && q.history[|c.run.history|].step == step
      && q.last == Some(q.history[|c.run.history|].result)
      && (a.Name() in AllowedForPhase(ArtifactCheck(spec, c.run.ws).value) || a == FALLBACK)
      && (ArtifactsHold(spec, c.run.ws) ==> a.name == PythonExec || a == FALLBACK)
      && (!ArtifactsHold(spec, c.run.ws) ==> a.name != PythonExec)
      && VerifySpec(spec, q.last, q.ws, isFloat).Returned?
      && q.ok == VerifySpec(spec, q.last, q.ws, isFloat).value.ok
      && (!q.ok ==> q.hint == FromVerifier(VerifySpec(spec, q.last, q.ws, isFloat).value.hint))
  {
    var p := c.run;
    var artifactsOk := ArtifactCheck(spec, p.ws).value;
    ArtifactCheckIff(spec, p.ws);
    var allowed := AllowedForPhase(artifactsOk);
    var obs := Observation(step, allowed, Some(PhaseName(artifactsOk)), p.hint, Some(ArtifactGaps(spec, p.ws)), plan + [c.extra]);
    var d := RobustAction.RobustNextAction(router(obs), allowed, repair(step)).value;
    AllowedForPhasePartition(d.action.name);
    var q := CriticStep(spec, plan, exec, router, repair, critic, isFloat, c, step).value;
    assert q.run.history == p.history + [Entry(step, d.action, q.run.last.value)];
  }

  /** One step of a run that has not passed keeps the record and the hint. */
  lemma CriticStepKeeps(spec: TaskSpec, plan: seq<string>, exec: Executor, router: Router, repair: Repair,
    critic: Critic, isFloat: FloatSyntax, c: CriticProgress, n: nat)
    requires spec.allowedTools == ALL_TOOLS
    requires n > 0 && HintedRecord(spec, isFloat, c.run, n - 1) && !c.run.ok
    requires CriticStep(spec, plan, exec, router, repair, critic, isFloat, c, n).Returned?
    ensures HintedRecord(spec, isFloat, CriticStep(spec, plan, exec, router, repair, critic, isFloat, c, n).value.run, n)
  {
    CriticStepAdmits(spec, plan, exec, router, repair, critic, isFloat, c, n);
    var q := CriticStep(spec, plan, exec, router, repair, critic, isFloat, c, n).value.run;
    ToolNameRoundTrip(q.history[|c.run.history|].action.name);
    RecordStep(spec, isFloat, c.run, q, n);
  }

  /** After any number of iterations of `run`'s loop that returned, the run
      keeps the record and the hint. */
  lemma {:induction false} CriticRunInvariant(spec: TaskSpec, plan: seq<string>, exec: Executor, router: Router,
    repair: Repair, critic: Critic, isFloat: FloatSyntax, start: CriticProgress, n: nat)
    requires spec.allowedTools == ALL_TOOLS && start.run == Start(start.run.ws, START_HINT)
    requires CriticRun(spec, plan, exec, router, repair, critic, isFloat, start, n).Returned?
    ensures HintedRecord(spec, isFloat, CriticRun(spec, plan, exec, router, repair, critic, isFloat, start, n).value.run, n)
  {
    var stepper := CriticStepper(spec, plan, exec, router, repair, critic, isFloat);
    forall c: CriticProgress, k: nat | 0 < k <= n && HintedRecord(spec, isFloat, c.run, k - 1) && !CriticDone(c) && stepper(c, k).Returned?
      ensures HintedRecord(spec, isFloat, stepper(c, k).value.run, k)
    {
      CriticStepKeeps(spec, plan, exec, router, repair, critic, isFloat, c, k);
    }
    assert forall c: CriticProgress, k: nat | 0 < k <= n && HintedRecord(spec, isFloat, c.run, k - 1) && CriticDone(c)
      :: HintedRecord(spec, isFloat, c.run, k);
    StepsInduct(stepper, CriticDone, start, n, (c: CriticProgress, k: nat) => HintedRecord(spec, isFloat, c.run, k));
  }

  /** A pass of the loop body. */
  method Step(spec: TaskSpec, plan: seq<string>, exec: Executor, router: Router, repair: Repair,
    critic: Critic, isFloat: FloatSyntax, c: CriticProgress, step: nat)
    returns (r: Raising<CriticProgress>)
    ensures r == CriticStepper(spec, plan, exec, router, repair, critic, isFloat)(c, step)
  {
    var vArt := ArtifactCheck(spec, c.run.ws);
    if vArt.Raised? {
      return Raised(vArt.exc);
    }
    var artifactsOk := vArt.value;
    var allowed := AllowedForPhase(artifactsOk);
    var obs := Observation(step, allowed, Some(PhaseName(artifactsOk)), c.run.hint, Some(ArtifactGaps(spec, c.run.ws)), plan + [c.extra]);
    var decided := RobustAction.RobustNextAction(router(obs), allowed, repair(step));
    if decided.Raised? {
      return Raised(decided.exc);
    }
    var lastAction := decided.value.action;
    var (result, ws') := exec(lastAction, c.run.ws);
    var history := c.run.history + [Entry(step, lastAction, result)];
    var v := Verify(spec, Some(result), ws', isFloat);
    if v.Raised? {
      return Raised(v.exc);
    }
    if v.value.ok {
      return Returned(CriticProgress(Progress(ws', Some(result), c.run.hint, history, true), c.extra));
    }
    var extra := critic(lastAction, result, FullGaps(spec, Some(result), ws', isFloat), v.value.hint);
    if extra.Raised? {
      return Raised(extra.exc);
    }
    r := Returned(CriticProgress(Progress(ws', Some(result), FromVerifier(v.value.hint), history, false), extra.value));
  }

  /** The step loop: at most `maxSteps` steps, returning at the first
      passing verification. */
  method Loop(spec: TaskSpec, plan: seq<string>, exec: Executor, router: Router, repair: Repair,
    critic: Critic, isFloat: FloatSyntax, start: CriticProgress, maxSteps: nat)
    returns (r: Raising<CriticProgress>)
    requires !start.run.ok
    ensures r == CriticRun(spec, plan, exec, router, repair, critic, isFloat, start, maxSteps)
  {
    var c := start;
    for step := 1 to maxSteps + 1
      invariant CriticRun(spec, plan, exec, router, repair, critic, isFloat, start, step - 1) == Returned(c) && !c.run.ok
    {
      var next := Step(spec, plan, exec, router, repair, critic, isFloat, c, step);
      assert CriticRun(spec, plan, exec, router, repair, critic, isFloat, start, step) == next;
      if next.Raised? || next.value.run.ok {
        StepsStay(CriticStepper(spec, plan, exec, router, repair, critic, isFloat), CriticDone, start, step, maxSteps);
        return next;
      }
      c := next.value;
    }
    r := Returned(c);
  }

  /** `True`/`False` of a run that returned. */
  function Outcome(r: Raising<CriticProgress>): Raising<bool> {
    match r
    case Raised(e) => Raised(e)
    case Returned(c) => Returned(c.run.ok)
  }

  /** `run(bt)` from the workspace the reset leaves: the plan, then at most
      30 steps, True at the first passing verification. */
  method Run(bt: BenchTask, chat: Raising<string>, parse: string -> Raising<Value>, repr: Value -> string,
    exec: Executor, router: Router, repair: Repair, critic: Critic, isFloat: FloatSyntax, ws: Workspace)
    returns (r: Raising<bool>)
    ensures Planner(chat, parse, repr).Raised? ==> r == Raised(Planner(chat, parse, repr).exc)
    ensures Planner(chat, parse, repr).Returned? ==>
      r == Outcome(CriticRun(ToSpec(bt), Planner(chat, parse, repr).value, exec, router, repair, critic, isFloat,
        CriticProgress(Start(ws, START_HINT), ""), MAX_STEPS))
  {
    var spec := ToSpec(bt);
    var plan := Planner(chat, parse, repr);
    if plan.Raised? {
      return Raised(plan.exc);
    }
    var res := Loop(spec, plan.value, exec, router, repair, critic, isFloat, CriticProgress(Start(ws, START_HINT), ""), MAX_STEPS);
    r := Outcome(res);
  }
}
