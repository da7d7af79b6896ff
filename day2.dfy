/** The day-2 loop: at most twelve steps of model action and tool, with
    the sole goal that `plot.png` exists as a non-empty file; the goal is
    checked after every step, whatever the tool returned, and the loop
    raises when the twelfth step has not met it. */
module Day2 {
  import opened Wrappers
  import opened Workspaces
  import opened ToolSchema
  import opened RequireFile
  import opened Agent

  const MAX_STEPS: nat := 12
  const GOAL: string := "plot.png"
  const START_OBSERVATION: string := "Task started."
  const GAVE_UP: Exception := RuntimeError("Agent failed to complete task")

  /** `next_action(task, observation)`, the task fixed for the run. */
  type Chooser = string -> Raising<ToolCall>

  /** How an f-string renders the optional error text. */
  function ErrorText(e: Option<string>): string {
    if e.None? then "None" else e.value
  }

  /** The observation shown to the model after a tool result. */
  function ObservationOf(r: ToolResult): string {
    if r.ok then "SUCCESS:\n" + r.output else "ERROR:\n" + ErrorText(r.error)
  }

  /** The observation tells the model whether the tool succeeded, and
      carries its output on success and its error otherwise. */
  lemma ObservationTells(r: ToolResult)
    ensures r.ok <==> |ObservationOf(r)| >= 9 && ObservationOf(r)[..9] == "SUCCESS:\n"
    ensures r.ok ==> ObservationOf(r)[9..] == r.output
    ensures !r.ok ==> ObservationOf(r)[..7] == "ERROR:\n" && ObservationOf(r)[7..] == ErrorText(r.error)
  {
    if !r.ok {
      assert ObservationOf(r)[0] == 'E';
    }
  }

  /** The loop's variables, and the workspace after each step taken (the
      script keeps no such list; it states which step met the goal). */
  datatype Day2State = Day2State(ws: Workspace, observation: string, seen: seq<Workspace>, done: bool)

  function Start2(ws: Workspace): Day2State {
    Day2State(ws, START_OBSERVATION, [], false)
  }

  predicate Done2(st: Day2State) {
    st.done
  }

  /** One step: the model's action, the tool, the observation of its
      result, and the goal check on the workspace the tool left. */
  function Day2Step(exec: Executor, next: Chooser, st: Day2State, step: nat): Raising<Day2State> {
    match next(st.observation)
    case Raised(e) => Raised(e)
    case Returned(action) =>
      var (result, ws) := exec(action, st.ws);
      Returned(Day2State(ws, ObservationOf(result), st.seen + [ws], RequireFile.RequireFile(ws, GOAL).0))
  }

  function Day2Stepper(exec: Executor, next: Chooser): (Day2State, nat) -> Raising<Day2State> {
    (st: Day2State, step: nat) => Day2Step(exec, next, st, step)
  }

  /** The state after the first `n` iterations of the loop. */
  function Day2Run(exec: Executor, next: Chooser, start: Day2State, n: nat): Raising<Day2State> {
    Steps(Day2Stepper(exec, next), Done2, start, n)
  }

  /** `agent_loop` returns once the goal holds, and raises after the loop. */
  function Report2(run: Raising<Day2State>): Raising<Workspace> {
    match run
    case Raised(e) => Raised(e)
    case Returned(st) => if st.done then Returned(st.ws) else Raised(GAVE_UP)
  }

  /** A failed tool call that nevertheless leaves a non-empty `plot.png`
      ends the loop: the goal check does not look at the result. */
  lemma GoalCheckedAfterFailure(exec: Executor, next: Chooser, st: Day2State, step: nat)
    requires next(st.observation).Returned?
    requires NonEmptyFile(exec(next(st.observation).value, st.ws).1, GOAL)
    ensures Day2Step(exec, next, st, step).Returned? && Day2Step(exec, next, st, step).value.done
  {
  }

  /** After `n` iterations: one workspace per step taken, all `n` unless
      the loop stopped; the loop stopped exactly when the newest workspace
      holds the goal, and no earlier one did. */
  ghost predicate Day2Record(st: Day2State, n: nat) {
    var s := st.seen;
    && |s| <= n
    && (!st.done ==> |s| == n)
    && (s != [] ==> st.ws == s[|s| - 1])
    && (st.done <==> s != [] && NonEmptyFile(s[|s| - 1], GOAL))
    && (forall i | 0 <= i < |s| - 1 :: !NonEmptyFile(s[i], GOAL))
  }

  lemma Day2StepKeeps(exec: Executor, next: Chooser, st: Day2State, n: nat)
    requires n > 0 && Day2Record(st, n - 1) && !st.done
    requires Day2Step(exec, next, st, n).Returned?
    ensures Day2Record(Day2Step(exec, next, st, n).value, n)
  {
    var q := Day2Step(exec, next, st, n).value;
    assert q.seen[..|st.seen|] == st.seen;
    if st.seen != [] {
      assert !NonEmptyFile(st.seen[|st.seen| - 1], GOAL);
    }
    forall i | 0 <= i < |q.seen| - 1
      ensures !NonEmptyFile(q.seen[i], GOAL)
    {
      assert q.seen[i] == st.seen[i];
    }
  }

  lemma Day2RunInvariant(exec: Executor, next: Chooser, ws: Workspace, n: nat)
    requires Day2Run(exec, next, Start2(ws), n).Returned?
    ensures Day2Record(Day2Run(exec, next, Start2(ws), n).value, n)
  {
    var stepper := Day2Stepper(exec, next);
    forall st: Day2State, k: nat | 0 < k <= n && Day2Record(st, k - 1) && !Done2(st) && stepper(st, k).Returned?
      ensures Day2Record(stepper(st, k).value, k)
    {
      Day2StepKeeps(exec, next, st, k);
    }
    StepsInduct(stepper, Done2, Start2(ws), n, (st: Day2State, k: nat) => Day2Record(st, k));
  }

  /** `agent_loop` from the workspace it finds, unless the model's client
      raises: it returns the workspace of the first of at most twelve steps
      whose workspace holds a non-empty `plot.png`, and raises the
      `RuntimeError` when none of the twelve did. */
  lemma AgentLoopOutcome(exec: Executor, next: Chooser, ws: Workspace)
    requires Day2Run(exec, next, Start2(ws), MAX_STEPS).Returned?
    ensures var s := Day2Run(exec, next, Start2(ws), MAX_STEPS).value.seen;
      var r := Report2(Day2Run(exec, next, Start2(ws), MAX_STEPS));
      && |s| <= MAX_STEPS
      && (r.Raised? ==> r.exc == GAVE_UP && |s| == MAX_STEPS && forall i | 0 <= i < |s| :: !NonEmptyFile(s[i], GOAL))
      && (r.Returned? ==> s != [] && r.value == s[|s| - 1] && NonEmptyFile(r.value, GOAL))
      && (r.Returned? ==> forall i | 0 <= i < |s| - 1 :: !NonEmptyFile(s[i], GOAL))
  {
    Day2RunInvariant(exec, next, ws, MAX_STEPS);
  }

  /** A pass of the loop body. */
  method Step(exec: Executor, next: Chooser, st: Day2State, step: nat) returns (r: Raising<Day2State>)
    ensures r == Day2Stepper(exec, next)(st, step)
  {
    var action := next(st.observation);
    if action.Raised? {
      return Raised(action.exc);
    }
    var (result, ws) := exec(action.value, st.ws);
    var observation := if result.ok then "SUCCESS:\n" + result.output else "ERROR:\n" + ErrorText(result.error);
    var (ok2, _) := RequireFile.RequireFile(ws, GOAL);
    r := Returned(Day2State(ws, observation, st.seen + [ws], ok2));
  }

  /** `agent_loop(task)`: the step loop, returning at the first step that
      meets the goal and raising after the last. */
  method AgentLoop(exec: Executor, next: Chooser, ws: Workspace) returns (r: Raising<Workspace>)
    ensures r == Report2(Day2Run(exec, next, Start2(ws), MAX_STEPS))
  {
    var st := Start2(ws);
    for step := 1 to MAX_STEPS + 1
      invariant Day2Run(exec, next, Start2(ws), step - 1) == Returned(st) && !st.done
    {
      var res := Step(exec, next, st, step);
      assert Day2Run(exec, next, Start2(ws), step) == res;
      if res.Raised? {
        StepsStay(Day2Stepper(exec, next), Done2, Start2(ws), step, MAX_STEPS);
        return Raised(res.exc);
      }
      if res.value.done {
        StepsStay(Day2Stepper(exec, next), Done2, Start2(ws), step, MAX_STEPS);
        return Returned(res.value.ws);
      }
      st := res.value;
    }
    r := Raised(RuntimeError("Agent failed to complete task"));
  }
}
