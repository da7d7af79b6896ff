/** The day-8 phase controller: the artifact checks choose the phase, a
    proposed tool outside the phase's list is replaced by the phase's own
    safe call, a long run of the same tool in the compute phase is broken by
    a forced `print(0)`, and the run is scored by its errors and steps. */
module Day8 {
  import opened Wrappers
  import opened Dicts
  import opened Values
  import opened Workspaces
  import opened TaskSpecs
  import opened ToolSchema
  import opened Verifier
  import opened BenchTasks
  import opened Agent
  import Metrics

  const MAX_STEPS: nat := 25
  const START_HINT: string := "Start by creating required files if missing."

  /** The streak at which the compute phase forces `print(0)`. */
  const STUCK_STREAK: nat := 5

  /** The program that replaces a non-`python_exec` action in the compute
      phase: it prints the number of users in `users.csv` with an event in
      `events.csv`. */
  const COMPUTE_PROGRAM: string :=
    "import csv\nusers=set()\nwith open('users.csv','r',newline='') as f:\n    r=csv.DictReader(f)\n"
    + "    for row in r:\n        if row.get('user_id'):\n            users.add(row['user_id'])\nev=set()\n"
    + "with open('events.csv','r',newline='') as f:\n    r=csv.DictReader(f)\n    for row in r:\n"
    + "        uid=row.get('user_id')\n        if uid and uid in users:\n            ev.add(uid)\nprint(len(ev))\n"

  const COMPUTE_OVERRIDE: ToolCall := ToolCall(PythonExec, [("code", Str(COMPUTE_PROGRAM))])
  const ARTIFACTS_OVERRIDE: ToolCall := ToolCall(ShellExec, [("cmd", Str("ls -l"))])
  const PRINT_ZERO: ToolCall := ToolCall(PythonExec, [("code", Str("print(0)"))])

  /** `if action.name not in allowed_now:` the phase's own safe call. */
  function Override(proposed: ToolCall, artifactsOk: bool): ToolCall {
    if proposed.Name() in AllowedForPhase(artifactsOk) then proposed
    else if artifactsOk then COMPUTE_OVERRIDE
    else ARTIFACTS_OVERRIDE
  }

  /** The override always yields a call the phase admits, and keeps
      exactly the calls the phase admits. */
  lemma OverrideAdmitted(proposed: ToolCall, artifactsOk: bool)
    ensures Override(proposed, artifactsOk).Name() in AllowedForPhase(artifactsOk)
    ensures Override(proposed, artifactsOk) == proposed <==> proposed.Name() in AllowedForPhase(artifactsOk)
    ensures artifactsOk ==> Override(proposed, artifactsOk).name == PythonExec
    ensures !artifactsOk ==> Override(proposed, artifactsOk).name != PythonExec
  {
    AllowedForPhasePartition(proposed.name);
  }

  /** The state of `run_once`'s loop: the run so far, `steps`, `errors`,
      `tool_counts`, `same_tool_streak` and `prev_tool`. */
  datatype OnceState = OnceState(
    run: Progress,
    steps: nat,
    errors: nat,
    toolCounts: Dict<string, int>,
    streak: nat,
    prevTool: Option<ToolName>)

  predicate OnceDone(s: OnceState) {
    s.run.ok
  }

  function OnceStart(ws: Workspace): OnceState {
    OnceState(Start(ws, START_HINT), 0, 0, [], 0, None)
  }

  /** `n` against the previous tool: one more in the streak when it repeats,
      back to 0 (and a new previous tool) when it changes. */
  function NextStreak(streak: nat, prevTool: Option<ToolName>, n: ToolName): (nat, Option<ToolName>) {
    if prevTool == Some(n) then (streak + 1, prevTool) else (0, Some(n))
  }

  /** What the step does with the router's proposal before executing: the
      call it executes, and the new `tool_counts`, streak and previous tool. */
  datatype Choice = Choice(executed: ToolCall, toolCounts: Dict<string, int>, streak: nat, prevTool: Option<ToolName>)

  /** The override, the count and the streak of the overridden call, and
      `print(0)` in its place in the compute phase once the streak reaches
      5. */
  function Choose(s: OnceState, proposed: ToolCall, artifactsOk: bool): Choice {
    var action := Override(proposed, artifactsOk);
    var (streak, prevTool) := NextStreak(s.streak, s.prevTool, action.name);
    Choice(if streak >= STUCK_STREAK && artifactsOk then PRINT_ZERO else action,
      Metrics.Bump(s.toolCounts, action.Name()), streak, prevTool)
  }

  /** The executed call is one of the phase's tools and has the name that
      was counted and compared with the previous tool: `python_exec`
      exactly when the artifacts are in place. It is the override of the
      proposal unless the compute phase's streak reached 5, where it is
      `print(0)`. */
  lemma ChooseFacts(s: OnceState, proposed: ToolCall, artifactsOk: bool)
    ensures var c := Choose(s, proposed, artifactsOk);
      && c.executed.Name() in AllowedForPhase(artifactsOk)
      && c.executed.name == Override(proposed, artifactsOk).name
      && (c.executed.name == PythonExec <==> artifactsOk)
      && c.toolCounts == Metrics.Bump(s.toolCounts, c.executed.Name())
      && c.prevTool == Some(c.executed.name)
      && c.streak == (if s.prevTool == Some(c.executed.name) then s.streak + 1 else 0)
      && (artifactsOk && c.streak >= STUCK_STREAK ==> c.executed == PRINT_ZERO)
      && (!(artifactsOk && c.streak >= STUCK_STREAK) ==> c.executed == Override(proposed, artifactsOk))
  {
    OverrideAdmitted(proposed, artifactsOk);
  }

  /** One step: the phase, the observation (which lists the spec's tools,
      not the phase's), the router's proposal, the override, the count, the
      streak and the forced call, the tool, the error count and the full
      verification. */
  function OnceStep(spec: TaskSpec, rules: seq<string>, exec: Executor, router: Router, isFloat: FloatSyntax,
    s: OnceState, step: nat): Raising<OnceState>
  {
    var p := s.run;
    match ArtifactCheck(spec, p.ws)
    case Raised(e) => Raised(e)
    case Returned(artifactsOk) =>
      var hint := if artifactsOk then ArtifactsOkNote(p.hint) else p.hint;
      var obs := Observation(step, spec.allowedTools, Some(PhaseName(artifactsOk)), hint, None, rules);
      match router(obs)
      case Raised(e) => Raised(e)
      case Returned(proposed) =>
        Finish(spec, exec, isFloat, s, hint, Choose(s, proposed, artifactsOk), step)
  }

  /** The rest of a step once the call is chosen: the tool, the error count
      and the full verification. */
  function Finish(spec: TaskSpec, exec: Executor, isFloat: FloatSyntax, s: OnceState, hint: HintText, c: Choice,
    step: nat): Raising<OnceState>
  {
    var (result, ws) := exec(c.executed, s.run.ws);
    match VerifySpec(spec, Some(result), ws, isFloat)
    case Raised(e) => Raised(e)
    case Returned(v) => Returned(Advance(s, hint, c, step, result, ws, v))
  }

  /** The state after step `step` executed `c`'s call with `result`, left
      `ws` and was verified with `v`: one more entry and step, one more
      error when the result failed, the choice's counters, and the
      verification's hint when it failed. */
  function Advance(s: OnceState, hint: HintText, c: Choice, step: nat, result: ToolResult, ws: Workspace,
    v: VerifyResult): OnceState
  {
    var errors := if result.ok then s.errors else s.errors + 1;
    var history := s.run.history + [Entry(step, c.executed, result)];
    var run := Progress(ws, Some(result), if v.ok then hint else FromVerifier(v.hint), history, v.ok);
    OnceState(run, step, errors, c.toolCounts, c.streak, c.prevTool)
  }

  function OnceStepper(spec: TaskSpec, rules: seq<string>, exec: Executor, router: Router, isFloat: FloatSyntax)
    : (OnceState, nat) -> Raising<OnceState>
  {
    (s: OnceState, step: nat) => OnceStep(spec, rules, exec, router, isFloat, s, step)
  }

  /** The state after the first `n` iterations of `run_once`'s loop. */
  function OnceRun(spec: TaskSpec, rules: seq<string>, exec: Executor, router: Router, isFloat: FloatSyntax,
    start: OnceState, n: nat): Raising<OnceState>
  {
    Steps(OnceStepper(spec, rules, exec, router, isFloat), OnceDone, start, n)
  }

  // ---------------------------------------------------------------------
  // What the counters count

  /** `tool_counts` of a history: one count per tool name, in order of
      first use. */
  function Tally(h: seq<Entry>): Dict<string, int> {
    if h == [] then [] else Metrics.Bump(Tally(h[..|h| - 1]), h[|h| - 1].action.Name())
  }

  /** How many recorded results failed. */
  function Failures(h: seq<Entry>): (c: nat)
    ensures c <= |h|
  {
    if h == [] then 0 else Failures(h[..|h| - 1]) + (if h[|h| - 1].result.ok then 0 else 1)
  }

  /** How many of the newest entries repeat the tool of the entry before
      them, back to the last change of tool. */
  function Streak(h: seq<Entry>): (c: nat)
    ensures |h| > 0 ==> c < |h|
  {
    if |h| <= 1 then 0
    else if h[|h| - 1].action.name == h[|h| - 2].action.name then Streak(h[..|h| - 1]) + 1
    else 0
  }

  /** The counts add up to the number of recorded steps. */
  lemma {:induction false} TallySum(h: seq<Entry>)
    ensures Metrics.SumCounts(Tally(h)) == |h|
  {
    if h != [] {
      TallySum(h[..|h| - 1]);
      Metrics.BumpSum(Tally(h[..|h| - 1]), h[|h| - 1].action.Name());
    }
  }

  /** The counters of `s` are those of its recorded history: `steps` the
      number of steps, `errors` the failed results, `tool_counts` the tally
      of executed tools, the streak the trailing repeats, and `prev_tool`
      the newest tool. */
  ghost predicate Counted(s: OnceState) {
    var h := s.run.history;
    && s.steps == |h|
    && s.errors == Failures(h)
    && s.toolCounts == Tally(h)
    && s.streak == Streak(h)
    && (h == [] <==> s.prevTool.None?)
    && (h != [] ==> s.prevTool == Some(h[|h| - 1].action.name))
  }

  /** The loop's invariant: the run's record and hint, and the counters. */
  ghost predicate OnceInvariant(spec: TaskSpec, isFloat: FloatSyntax, s: OnceState, n: nat) {
    HintedRecord(spec, isFloat, s.run, n) && Counted(s)
  }

  /** The executed tool is one of the phase's tools: the proposal when the
      phase admits it, else the phase's safe call, and `print(0)` in the
      compute phase once the streak reaches 5; `python_exec` runs exactly
      when the artifacts are in place. The step appends one entry, its
      result becomes `last`, and on failure the hint is the verification's. */
  lemma OnceStepAdmits(spec: TaskSpec, rules: seq<string>, exec: Executor, router: Router, isFloat: FloatSyntax,
    s: OnceState, step: nat)
    requires OnceStep(spec, rules, exec, router, isFloat, s, step).Returned?
    ensures var q := OnceStep(spec, rules, exec, router, isFloat, s, step).value;
      var a := q.run.history[|s.run.history|].action;
      && |q.run.history| == |s.run.history| + 1
      && q.run.history[..|s.run.history|] == s.run.history
      && q.run.history[|s.run.history|].step == step
      && q.run.last == Some(q.run.history[|s.run.history|].result)
      && a.Name() in AllowedForPhase(ArtifactCheck(spec, s.run.ws).value)
      && (a.name == PythonExec <==> ArtifactsHold(spec, s.run.ws))
      && (ArtifactsHold(spec, s.run.ws) && q.streak >= STUCK_STREAK ==> a == PRINT_ZERO)
      && VerifySpec(spec, q.run.last, q.run.ws, isFloat).Returned?
      && q.run.ok == VerifySpec(spec, q.run.last, q.run.ws, isFloat).value.ok
      && (!q.run.ok ==> q.run.hint == FromVerifier(VerifySpec(spec, q.run.last, q.run.ws, isFloat).value.hint))
  {
    var artifactsOk := ArtifactCheck(spec, s.run.ws).value;
    ArtifactCheckIff(spec, s.run.ws);
    var hint := if artifactsOk then ArtifactsOkNote(s.run.hint) else s.run.hint;
    var obs := Observation(step, spec.allowedTools, Some(PhaseName(artifactsOk)), hint, None, rules);
    var proposed := router(obs).value;
    ChooseFacts(s, proposed, artifactsOk);
    var c := Choose(s, proposed, artifactsOk);
    var q := OnceStep(spec, rules, exec, router, isFloat, s, step).value;
    assert q.run.history == s.run.history + [Entry(step, c.executed, q.run.last.value)];
  }

  /** A step keeps the counters in step with the history. */
  lemma OnceStepCounts(spec: TaskSpec, rules: seq<string>, exec: Executor, router: Router, isFloat: FloatSyntax,
    s: OnceState, step: nat)
    requires Counted(s) && step == |s.run.history| + 1
    requires OnceStep(spec, rules, exec, router, isFloat, s, step).Returned?
    ensures Counted(OnceStep(spec, rules, exec, router, isFloat, s, step).value)
  {
    var artifactsOk := ArtifactCheck(spec, s.run.ws).value;
    var hint := if artifactsOk then ArtifactsOkNote(s.run.hint) else s.run.hint;
    var obs := Observation(step, spec.allowedTools, Some(PhaseName(artifactsOk)), hint, None, rules);
    var c := Choose(s, router(obs).value, artifactsOk);
    ChooseFacts(s, router(obs).value, artifactsOk);
    var q := OnceStep(spec, rules, exec, router, isFloat, s, step).value;
    var h, h' := s.run.history, q.run.history;
    assert h' == h + [Entry(step, c.executed, q.run.last.value)];
    CountedStep(s, q, c.executed, q.run.last.value);
  }

  /** Appending an entry for `a` and counting it keeps the counters in step
      with the history. */
  lemma CountedStep(s: OnceState, q: OnceState, a: ToolCall, result: ToolResult)
    requires Counted(s)
    requires q.run.history == s.run.history + [Entry(|s.run.history| + 1, a, result)]
    requires q.steps == s.steps + 1
    requires q.errors == if result.ok then s.errors else s.errors + 1
    requires q.toolCounts == Metrics.Bump(s.toolCounts, a.Name())
    requires q.prevTool == Some(a.name)
    requires q.streak == if s.prevTool == Some(a.name) then s.streak + 1 else 0
    ensures Counted(q)
  {
    var h, h' := s.run.history, q.run.history;
    assert h'[..|h'| - 1] == h;
    assert h != [] ==> h'[|h'| - 2] == h[|h| - 1];
  }

  /** One step of a run that has not passed keeps the invariant. */
  lemma OnceStepKeeps(spec: TaskSpec, rules: seq<string>, exec: Executor, router: Router, isFloat: FloatSyntax,
    s: OnceState, n: nat)
    requires spec.allowedTools == ALL_TOOLS
    requires n > 0 && OnceInvariant(spec, isFloat, s, n - 1) && !s.run.ok
    requires OnceStep(spec, rules, exec, router, isFloat, s, n).Returned?
    ensures OnceInvariant(spec, isFloat, OnceStep(spec, rules, exec, router, isFloat, s, n).value, n)
  {
    OnceStepAdmits(spec, rules, exec, router, isFloat, s, n);
    OnceStepCounts(spec, rules, exec, router, isFloat, s, n);
    var q := OnceStep(spec, rules, exec, router, isFloat, s, n).value;
    ToolNameRoundTrip(q.run.history[|s.run.history|].action.name);
    RecordStep(spec, isFloat, s.run, q.run, n);
  }

  /** Every step the loop can take keeps the invariant. */
  lemma OnceStepperKeeps(spec: TaskSpec, rules: seq<string>, exec: Executor, router: Router, isFloat: FloatSyntax)
    requires spec.allowedTools == ALL_TOOLS
    ensures var stepper := OnceStepper(spec, rules, exec, router, isFloat);
      forall s: OnceState, k: nat | 0 < k && OnceInvariant(spec, isFloat, s, k - 1) && !OnceDone(s) && stepper(s, k).Returned?
        :: OnceInvariant(spec, isFloat, stepper(s, k).value, k)
  {
    forall s: OnceState, k: nat | 0 < k && OnceInvariant(spec, isFloat, s, k - 1) && !OnceDone(s)
      && OnceStep(spec, rules, exec, router, isFloat, s, k).Returned?
      ensures OnceInvariant(spec, isFloat, OnceStep(spec, rules, exec, router, isFloat, s, k).value, k)
    {
      OnceStepKeeps(spec, rules, exec, router, isFloat, s, k);
    }
  }

  /** After any number of iterations that returned, the run keeps the
      invariant. */
  lemma OnceRunInvariant(spec: TaskSpec, rules: seq<string>, exec: Executor, router: Router, isFloat: FloatSyntax,
    ws: Workspace, n: nat)
    requires spec.allowedTools == ALL_TOOLS
    requires OnceRun(spec, rules, exec, router, isFloat, OnceStart(ws), n).Returned?
    ensures OnceInvariant(spec, isFloat, OnceRun(spec, rules, exec, router, isFloat, OnceStart(ws), n).value, n)
  {
    OnceStepperKeeps(spec, rules, exec, router, isFloat);
    StepsInduct(OnceStepper(spec, rules, exec, router, isFloat), OnceDone, OnceStart(ws), n,
      (s: OnceState, k: nat) => OnceInvariant(spec, isFloat, s, k));
  }

  // ---------------------------------------------------------------------
  // The result and its score

  /** The dict `run_once` returns, without the run id. */
  datatype OnceResult = OnceResult(ok: bool, steps: nat, errors: nat, toolCounts: Dict<string, int>, score: int)

  /** `100 - 3 * errors - 1 * steps` on success, `0 - 3 * errors - 1 * steps`
      otherwise. */
  function Score(ok: bool, errors: nat, steps: nat): int {
    (if ok then 100 else 0) - 3 * errors - steps
  }

  function Outcome(r: Raising<OnceState>): Raising<OnceResult> {
    match r
    case Raised(e) => Raised(e)
    case Returned(s) => Returned(OnceResult(s.run.ok, s.steps, s.errors, s.toolCounts, Score(s.run.ok, s.errors, s.steps)))
  }

  /** What a returned run reports: the counts add up to the steps, at most
      25 of them and all 25 when it failed, `errors` counts the failed
      results among them, and the score is 100 (on success) less three per
      error and one per step, so between 0 and 99 on success and between
      -100 and -25 on failure. */
  lemma OutcomeFacts(spec: TaskSpec, rules: seq<string>, exec: Executor, router: Router, isFloat: FloatSyntax,
    ws: Workspace)
    requires spec.allowedTools == ALL_TOOLS
    requires OnceRun(spec, rules, exec, router, isFloat, OnceStart(ws), MAX_STEPS).Returned?
    ensures var s := OnceRun(spec, rules, exec, router, isFloat, OnceStart(ws), MAX_STEPS).value;
      var o := Outcome(Returned(s)).value;
      && Metrics.SumCounts(o.toolCounts) == o.steps == |s.run.history|
      && 1 <= o.steps <= MAX_STEPS && (!o.ok ==> o.steps == MAX_STEPS)
      && o.errors == Failures(s.run.history) <= o.steps
      && o.score == (if o.ok then 100 else 0) - 3 * o.errors - o.steps
      && (o.ok ==> 0 <= o.score <= 99)
      && (!o.ok ==> -100 <= o.score <= -25)
  {
    OnceRunInvariant(spec, rules, exec, router, isFloat, ws, MAX_STEPS);
    var s := OnceRun(spec, rules, exec, router, isFloat, OnceStart(ws), MAX_STEPS).value;
    TallySum(s.run.history);
  }

  // ---------------------------------------------------------------------
  // The script

  /** `to_spec(bt)`: the bench task's spec. */
  method BuildSpec(bt: BenchTask) returns (spec: TaskSpec)
    ensures spec == ToSpec(bt)
  {
    spec := NewTaskSpec(bt.task);
    spec := spec.(allowedTools := ALL_TOOLS);
    spec := spec.(stdoutIsNumber := true);
    if bt.expectedStdout.Some? {
      spec := spec.(stdoutExact := bt.expectedStdout);
    }
    spec := CopyArtifacts(spec, bt);
  }

  /** The whitelist override, the count, the streak and the forced call. */
  method ChooseCall(s: OnceState, proposed: ToolCall, artifactsOk: bool) returns (c: Choice)
    ensures c == Choose(s, proposed, artifactsOk)
  {
    var allowedNow := if artifactsOk then COMPUTE_TOOLS else ARTIFACT_TOOLS;
    var action := proposed;
    if action.Name() !in allowedNow {
      action := if artifactsOk then COMPUTE_OVERRIDE else ARTIFACTS_OVERRIDE;
    }
    var toolCounts := Metrics.Bump(s.toolCounts, action.Name());
    var streak, prevTool := s.streak, s.prevTool;
    if prevTool == Some(action.name) {
      streak := streak + 1;
    } else {
      streak := 0;
      prevTool := Some(action.name);
    }
    if streak >= STUCK_STREAK && artifactsOk {
      action := PRINT_ZERO;
    }
    c := Choice(action, toolCounts, streak, prevTool);
  }

  /** A pass of the loop body. */
  method Step(spec: TaskSpec, rules: seq<string>, exec: Executor, router: Router, isFloat: FloatSyntax,
    s: OnceState, step: nat)
    returns (r: Raising<OnceState>)
    ensures r == OnceStep(spec, rules, exec, router, isFloat, s, step)
  {
    var vArt := ArtifactCheck(spec, s.run.ws);
    if vArt.Raised? {
      return Raised(vArt.exc);
    }
    var artifactsOk := vArt.value;
    var hint := s.run.hint;
    if artifactsOk {
      hint := ArtifactsOkNote(hint);
    }
    var obs := Observation(step, spec.allowedTools, Some(PhaseName(artifactsOk)), hint, None, rules);
    var proposed := router(obs);
    if proposed.Raised? {
      return Raised(proposed.exc);
    }
    var c := ChooseCall(s, proposed.value, artifactsOk);
    r := FinishStep(spec, exec, isFloat, s, hint, c, step);
  }

  /** Executing the chosen call and verifying. */
  method FinishStep(spec: TaskSpec, exec: Executor, isFloat: FloatSyntax, s: OnceState, hint: HintText, c: Choice,
    step: nat)
    returns (r: Raising<OnceState>)
    ensures r == Finish(spec, exec, isFloat, s, hint, c, step)
  {
    var (last, ws') := exec(c.executed, s.run.ws);
    var v := Verify(spec, Some(last), ws', isFloat);
    if v.Raised? {
      return Raised(v.exc);
    }
    r := Returned(Advance(s, hint, c, step, last, ws', v.value));
  }

  /** The step loop: at most `maxSteps` steps, returning at the first
      passing verification. */
  method Loop(spec: TaskSpec, rules: seq<string>, exec: Executor, router: Router, isFloat: FloatSyntax,
    start: OnceState, maxSteps: nat)
    returns (r: Raising<OnceState>)
    requires !start.run.ok
    ensures r == OnceRun(spec, rules, exec, router, isFloat, start, maxSteps)
  {
    var s := start;
    for step := 1 to maxSteps + 1
      invariant OnceRun(spec, rules, exec, router, isFloat, start, step - 1) == Returned(s) && !s.run.ok
    {
      var next := Step(spec, rules, exec, router, isFloat, s, step);
      assert OnceRun(spec, rules, exec, router, isFloat, start, step) == next;
      if next.Raised? || next.value.run.ok {
        StepsStay(OnceStepper(spec, rules, exec, router, isFloat), OnceDone, start, step, maxSteps);
        return next;
      }
      s := next.value;
    }
    r := Returned(s);
  }

  /** `run_once(bt, rules, tag)` from the workspace the reset leaves. */
  method RunOnce(bt: BenchTask, rules: Option<seq<string>>, exec: Executor, router: Router, isFloat: FloatSyntax,
    ws: Workspace)
    returns (r: Raising<OnceResult>)
    ensures r == Outcome(OnceRun(ToSpec(bt), rules.GetOr([]), exec, router, isFloat, OnceStart(ws), MAX_STEPS))
  {
    var spec := BuildSpec(bt);
    var res := Loop(spec, rules.GetOr([]), exec, router, isFloat, OnceStart(ws), MAX_STEPS);
    r := Outcome(res);
  }
}
