/** The day-3 episode: a stop criterion inferred from the task text, a
    policy of base and learned rules, and at most twelve steps of model
    action, repeat counting, guardrail override and tool, each followed by
    the done check unless the tool failed. */
module Day3 {
  import opened Wrappers
  import opened Strings
  import opened Dicts
  import opened Values
  import opened Workspaces
  import opened ToolSchema
  import opened Agent
  import opened Day3Text
  import opened Day3Done
  import Guardrails
  import Day2

  const MAX_STEPS: nat := 12
  const REPEAT_ACTION_LIMIT: nat := 2
  const START_OBSERVATION: string := "Task started."
  const ANTI_STUCK_NOTICE: string :=
    "\n\nSYSTEM NOTICE: You are repeating the same action. Change strategy. "
    + "If a file is missing, create it using file_write. "
    + "If a module is missing, install it. "
    + "Then proceed to compute/print the final answer."

  // ------------------------------------------------------------ episode

  /** `next_action(task, observation, rules)` */
  type NextAction = (string, string, seq<string>) -> Raising<ToolCall>

  /** The script's collaborators for one episode: the task and its rules,
      the tool executor, the model, the guardrail's file-name regex on a
      shell command, and the regex search of a stdout criterion. */
  datatype Env = Env(task: string, rules: seq<string>, exec: Executor, next: NextAction,
    pathOfCommand: ToolCall -> Option<string>, search: RegexSearch)

  /** `head -n 5 <file> 2>/dev/null || true` */
  function PreviewCall(f: string): ToolCall {
    ToolCall(ShellExec, [("cmd", Str("head -n 5 " + f + " 2>/dev/null || true"))])
  }

  /** `maybe_add_file_preview(task, observation)`: the observation, with the
      first lines of the first `.csv` file the lowered task names when the
      preview printed something, and the workspace the executor leaves. */
  function MaybeAddFilePreview(exec: Executor, ws: Workspace, task: string, observation: string): (string, Workspace) {
    Preview(exec, ws, CsvMention(Lower(task)), observation)
  }

  /** The preview of the file name `csv` the task names, if any. */
  function Preview(exec: Executor, ws: Workspace, csv: Option<string>, observation: string): (string, Workspace) {
    match csv
    case None => (observation, ws)
    case Some(f) =>
      var (res, ws') := exec(PreviewCall(f), ws);
      if res.ok && Strip(res.output) != [] then
        (observation + "\n\nFILE PREVIEW (" + f + "):\n" + Strip(res.output), ws')
      else (observation, ws')
  }

  /** The preview only ever appends to the observation; a task naming no
      `.csv` file runs nothing; a previewed name is a lowercase `.csv`
      path taken from the task. */
  lemma PreviewFacts(exec: Executor, ws: Workspace, task: string, observation: string)
    ensures var r := MaybeAddFilePreview(exec, ws, task, observation);
      |observation| <= |r.0| && r.0[..|observation|] == observation
    ensures CsvMention(Lower(task)).None? ==> MaybeAddFilePreview(exec, ws, task, observation) == (observation, ws)
    ensures CsvMention(Lower(task)).Some? ==> var f := CsvMention(Lower(task)).value;
      && MaybeAddFilePreview(exec, ws, task, observation).1 == exec(PreviewCall(f), ws).1
      && f[|f| - 4..] == ".csv" && PathChars(f) && NoUpper(f)
  {
    CsvMentionFacts(Lower(task));
    if CsvMention(Lower(task)).Some? {
      LoweredPiece(task, CsvMention(Lower(task)).value);
    }
  }

  /** `json.dumps(action.model_dump(), sort_keys=True)`: the tool name and
      the argument pairs, whatever their order. */
  type Sig = (ToolName, set<(string, Value)>)

  function SigOf(a: ToolCall): Sig {
    (a.name, set i | 0 <= i < |a.args| :: a.args[i])
  }

  function Sigs(p: seq<ToolCall>): (r: seq<Sig>)
    ensures |r| == |p| && forall i | 0 <= i < |p| :: r[i] == SigOf(p[i])
  {
    seq(|p|, i requires 0 <= i < |p| => SigOf(p[i]))
  }

  /** The soft counter, on sorted-key signatures, and the guardrail's, on
      the signature that keeps argument order, can disagree. */
  lemma SignatureIgnoresOrder()
    ensures var a := ToolCall(ShellExec, [("cmd", Str("ls")), ("cwd", Str("."))]);
      var b := ToolCall(ShellExec, [("cwd", Str(".")), ("cmd", Str("ls"))]);
      a != b && SigOf(a) == SigOf(b)
  {
    var a := ToolCall(ShellExec, [("cmd", Str("ls")), ("cwd", Str("."))]);
    var b := ToolCall(ShellExec, [("cwd", Str(".")), ("cmd", Str("ls"))]);
    assert "cmd"[1] != "cwd"[1];
    assert a.args[0].0 != b.args[0].0;
    assert a.args != b.args;
    SigOfPair(a);
    SigOfPair(b);
    assert a.args[0] == b.args[1] && a.args[1] == b.args[0];
    assert {a.args[0], a.args[1]} == {b.args[0], b.args[1]};
  }

  /** The signature of a call with two arguments. */
  lemma SigOfPair(a: ToolCall)
    requires |a.args| == 2
    ensures SigOf(a).1 == {a.args[0], a.args[1]}
  {
    var A := SigOf(a).1;
    assert a.args[0] in A && a.args[1] in A;
    forall x | x in A
      ensures x == a.args[0] || x == a.args[1]
    {
    }
  }

  /** Equal calls have equal sorted-key signatures, so the guardrail's run
      is never longer than the soft counter's. */
  lemma {:induction false} GuardCountsNoMore(p: seq<ToolCall>)
    ensures Guardrails.RunLength(p) <= Guardrails.RunLength(Sigs(p))
    decreases |p|
  {
    if |p| > 1 && p[|p| - 1] == p[|p| - 2] {
      var init := p[..|p| - 1];
      GuardCountsNoMore(init);
      assert Sigs(p)[..|p| - 1] == Sigs(init);
    }
  }

  /** At least two repeats: the last three signatures are equal. */
  predicate ThreeAlike(s: seq<Sig>) {
    |s| >= 3 && s[|s| - 1] == s[|s| - 2] && s[|s| - 2] == s[|s| - 3]
  }

  lemma RepeatedTwice(s: seq<Sig>)
    ensures Guardrails.RunLength(s) >= REPEAT_ACTION_LIMIT <==> ThreeAlike(s)
  {
    if |s| >= 2 {
      var init := s[..|s| - 1];
      if |s| >= 3 {
        assert init[|init| - 1] == s[|s| - 2] && init[|init| - 2] == s[|s| - 3];
      }
    }
  }

  /** The loop's variables after a number of steps: the workspace, the
      observation, the actions the model proposed, the last result, the
      history of executed steps, whether the latest step injected the
      anti-stuck notice, and whether the episode is done. */
  datatype Episode = Episode(ws: Workspace, observation: string, proposed: seq<ToolCall>,
    last: Option<ToolResult>, history: seq<Entry>, notice: bool, done: bool)

  function Start3(ws: Workspace): Episode {
    Episode(ws, START_OBSERVATION, [], None, [], false, false)
  }

  predicate Done3(e: Episode) {
    e.done
  }

  /** One step: the preview, the model's action, the soft repeat counter
      (its notice is appended to an observation that the step then
      replaces), the guardrail's counter and override, the tool, the new
      observation and the done check. */
  function EpisodeStep(env: Env, ds: DoneSpec, csv: Option<string>, st: Episode, step: nat): Raising<Episode> {
    var (observation, ws1) := Preview(env.exec, st.ws, csv, st.observation);
    match env.next(env.task, observation, env.rules)
    case Raised(e) => Raised(e)
    case Returned(action) => Returned(Act(env, ds, st, ws1, action, step))
  }

  /** The step after the model proposed `action`: the counters, the
      override and the rest of the step. */
  function Act(env: Env, ds: DoneSpec, st: Episode, ws: Workspace, action: ToolCall, step: nat): Episode {
    var proposed := st.proposed + [action];
    var executed := Guardrails.Override(Guardrails.RunLength(proposed), action, st.last, env.pathOfCommand).GetOr(action);
    Outcome(env, ds, st, ws, proposed, executed, Guardrails.RunLength(Sigs(proposed)) >= REPEAT_ACTION_LIMIT, step)
  }

  /** The step after the action to execute is known: the tool, the history
      entry, the new observation and the done check. */
  function Outcome(env: Env, ds: DoneSpec, st: Episode, ws: Workspace, proposed: seq<ToolCall>, executed: ToolCall,
    notice: bool, step: nat): Episode
  {
    var (result, ws2) := env.exec(executed, ws);
    var (done, ws3) := Judge(env.exec, env.search, ds, result, ws2);
    Episode(ws3, Day2.ObservationOf(result), proposed, Some(result), st.history + [Entry(step, executed, result)], notice, done)
  }

  function EpisodeStepper(env: Env, ds: DoneSpec, csv: Option<string>): (Episode, nat) -> Raising<Episode> {
    (st: Episode, step: nat) => EpisodeStep(env, ds, csv, st, step)
  }

  /** The state after the first `n` iterations of `run_episode`'s loop,
      with the criterion and the previewed file name the task gives. */
  function EpisodeRun(env: Env, start: Episode, n: nat): Raising<Episode> {
    Steps(EpisodeStepper(env, InferDoneSpec(env.task), CsvMention(Lower(env.task))), Done3, start, n)
  }

  /** `run_episode` returns the history and whether it is done. */
  function Report3(run: Raising<Episode>): Raising<(seq<Entry>, bool)> {
    match run
    case Raised(e) => Raised(e)
    case Returned(st) => Returned((st.history, st.done))
  }

  /** An executed action is the proposal or the guardrail's sample write. */
  predicate ProposedOrSample(e: Entry, proposal: ToolCall) {
    e.action == proposal
    || (e.action.name == FileWrite && Get(e.action.args, "content") == Some(Str(Guardrails.SAMPLE_CONTENT)))
  }

  /** What the loop keeps after `n` iterations: one numbered history entry
      per step taken, all `n` unless done; each entry's action the
      proposal or a sample write; the last result and its observation;
      the notice exactly after three like proposals in a row; and an
      episode is done only after a successful tool result. */
  ghost predicate EpisodeRecord(st: Episode, n: nat) {
    var h := st.history;
    && |h| == |st.proposed| && |h| <= n
    && (!st.done ==> |h| == n)
    && (forall i | 0 <= i < |h| :: h[i].step == i + 1 && ProposedOrSample(h[i], st.proposed[i]))
    && (h == [] ==> st.last.None? && !st.done && !st.notice)
    && (h != [] ==> st.last == Some(h[|h| - 1].result) && st.observation == Day2.ObservationOf(h[|h| - 1].result))
    && (st.notice <==> ThreeAlike(Sigs(st.proposed)))
    && (st.done ==> h != [] && h[|h| - 1].result.ok)
  }

  lemma EpisodeStepKeeps(env: Env, ds: DoneSpec, csv: Option<string>, st: Episode, n: nat)
    requires n > 0 && EpisodeRecord(st, n - 1) && !st.done
    requires EpisodeStep(env, ds, csv, st, n).Returned?
    ensures EpisodeRecord(EpisodeStep(env, ds, csv, st, n).value, n)
  {
    var q := EpisodeStep(env, ds, csv, st, n).value;
    var m := |st.history|;
    var action := q.proposed[m];
    assert q.proposed == st.proposed + [action];
    var o := Guardrails.Override(Guardrails.RunLength(q.proposed), action, st.last, env.pathOfCommand);
    Guardrails.OverrideFacts(Guardrails.RunLength(q.proposed), action, st.last, env.pathOfCommand);
    assert q.history[m].action == o.GetOr(action);
    assert ProposedOrSample(q.history[m], action);
    forall i | 0 <= i < |q.history|
      ensures q.history[i].step == i + 1 && ProposedOrSample(q.history[i], q.proposed[i])
    {
      if i < m {
        assert q.history[i] == st.history[i] && q.proposed[i] == st.proposed[i];
      }
    }
    RepeatedTwice(Sigs(q.proposed));
    JudgeFacts(env.exec, env.search, ds, q.last.value, env.exec(o.GetOr(action), Preview(env.exec, st.ws, csv, st.observation).1).1);
  }

  lemma EpisodeRunInvariant(env: Env, ws: Workspace, n: nat)
    requires EpisodeRun(env, Start3(ws), n).Returned?
    ensures EpisodeRecord(EpisodeRun(env, Start3(ws), n).value, n)
  {
    var ds, csv := InferDoneSpec(env.task), CsvMention(Lower(env.task));
    var stepper := EpisodeStepper(env, ds, csv);
    forall st: Episode, k: nat | 0 < k <= n && EpisodeRecord(st, k - 1) && !Done3(st) && stepper(st, k).Returned?
      ensures EpisodeRecord(stepper(st, k).value, k)
    {
      EpisodeStepKeeps(env, ds, csv, st, k);
    }
    StepsInduct(stepper, Done3, Start3(ws), n, (st: Episode, k: nat) => EpisodeRecord(st, k));
  }

  /** `run_episode(task, rules)` unless the model's client raises: at most
      twelve numbered entries, all twelve when not done; done only on a
      step whose tool succeeded; every executed action the model's or the
      guardrail's sample write. */
  lemma RunEpisodeOutcome(env: Env, ws: Workspace)
    requires EpisodeRun(env, Start3(ws), MAX_STEPS).Returned?
    ensures var st := EpisodeRun(env, Start3(ws), MAX_STEPS).value;
      var r := Report3(EpisodeRun(env, Start3(ws), MAX_STEPS)).value;
      var h := r.0;
      && |h| <= MAX_STEPS && |h| == |st.proposed|
      && (forall i | 0 <= i < |h| :: h[i].step == i + 1 && ProposedOrSample(h[i], st.proposed[i]))
      && (!r.1 ==> |h| == MAX_STEPS)
      && (r.1 ==> h != [] && h[|h| - 1].result.ok)
  {
    EpisodeRunInvariant(env, ws, MAX_STEPS);
  }

  // ------------------------------------------------------------ methods

  /** The soft counter's variables for the proposals so far. */
  ghost predicate Counted(proposed: seq<ToolCall>, lastSig: Option<Sig>, repeatCount: nat) {
    && (proposed == [] ==> lastSig.None?)
    && (proposed != [] ==> lastSig == Some(SigOf(proposed[|proposed| - 1])))
    && repeatCount == Guardrails.RunLength(Sigs(proposed))
  }

  /** `stepper` takes the steps of the episode with `env`, `ds` and `csv`.
      The loop methods below reason about the loop through `stepper`
      alone; only a pass of the body needs to know what a step does. */
  ghost predicate Drives(stepper: (Episode, nat) -> Raising<Episode>, env: Env, ds: DoneSpec, csv: Option<string>) {
    forall st, k {:trigger EpisodeStep(env, ds, csv, st, k)} :: stepper(st, k) == EpisodeStep(env, ds, csv, st, k)
  }

  /** A pass of the loop body, with the guardrail object and the soft
      repeat counter's variables. */
  method Step(env: Env, ds: DoneSpec, csv: Option<string>, ghost stepper: (Episode, nat) -> Raising<Episode>,
    guard: Guardrails.Guardrails, st: Episode, lastSig: Option<Sig>, repeatCount: nat, step: nat)
    returns (r: Raising<Episode>, lastSig': Option<Sig>, repeatCount': nat)
    requires Drives(stepper, env, ds, csv)
    requires guard.Valid() && guard.tracked == st.proposed && Counted(st.proposed, lastSig, repeatCount)
    modifies guard
    ensures r == stepper(st, step)
    ensures guard.Valid()
    ensures r.Returned? ==> guard.tracked == r.value.proposed && Counted(r.value.proposed, lastSig', repeatCount')
  {
    var (observation, ws) := Preview(env.exec, st.ws, csv, st.observation);
    var chosen := env.next(env.task, observation, env.rules);
    if chosen.Raised? {
      assert EpisodeStep(env, ds, csv, st, step) == Raised(chosen.exc);
      return Raised(chosen.exc), lastSig, repeatCount;
    }
    var action := chosen.value;
    var notice;
    lastSig', repeatCount', notice := CountRepeat(st.proposed, action, lastSig, repeatCount);
    if notice {
      observation := observation + ANTI_STUCK_NOTICE;
    }
    var executed := Guard(guard, action, st.last, env.pathOfCommand);
    var e := Execute(env, ds, st, ws, st.proposed + [action], executed, notice, step);
    r := Returned(e);
    assert EpisodeStep(env, ds, csv, st, step) == r;
  }

  /** The soft repeat counter of `run_episode`: the same signature as the
      previous proposal counts one more repeat, another one restarts the
      count; the notice is due from the second repeat on. */
  method CountRepeat(proposed: seq<ToolCall>, action: ToolCall, lastSig: Option<Sig>, repeatCount: nat)
    returns (lastSig': Option<Sig>, repeatCount': nat, notice: bool)
    requires Counted(proposed, lastSig, repeatCount)
    ensures Counted(proposed + [action], lastSig', repeatCount')
    ensures notice == (Guardrails.RunLength(Sigs(proposed + [action])) >= REPEAT_ACTION_LIMIT)
    ensures notice <==> ThreeAlike(Sigs(proposed + [action]))
  {
    var sig := SigOf(action);
    Guardrails.RunLengthSnoc(Sigs(proposed), sig);
    assert Sigs(proposed + [action]) == Sigs(proposed) + [sig];
    if Some(sig) == lastSig {
      repeatCount' := repeatCount + 1;
      lastSig' := lastSig;
    } else {
      repeatCount' := 0;
      lastSig' := Some(sig);
    }
    notice := repeatCount' >= REPEAT_ACTION_LIMIT;
    RepeatedTwice(Sigs(proposed + [action]));
  }

  /** The guardrail's part of a pass: it tracks the proposal, and its
      override, if any, is what runs. */
  method Guard(guard: Guardrails.Guardrails, action: ToolCall, last: Option<ToolResult>,
    pathOfCommand: ToolCall -> Option<string>)
    returns (executed: ToolCall)
    requires guard.Valid()
    modifies guard
    ensures guard.Valid() && guard.tracked == old(guard.tracked) + [action]
    ensures executed == Guardrails.Override(Guardrails.RunLength(guard.tracked), action, last, pathOfCommand).GetOr(action)
  {
    guard.Track(action);
    var override := guard.Intervene(action, last, pathOfCommand);
    executed := if override.Some? then override.value else action;
  }

  /** The rest of a pass once the action to execute is known. The
      observation it then sets replaces the one the notice went into. */
  method Execute(env: Env, ds: DoneSpec, st: Episode, ws: Workspace, proposed: seq<ToolCall>, executed: ToolCall,
    notice: bool, step: nat)
    returns (e: Episode)
    ensures e == Outcome(env, ds, st, ws, proposed, executed, notice, step)
  {
    var (result, ws') := env.exec(executed, ws);
    var history := st.history + [Entry(step, executed, result)];
    var observation: string;
    var done := false;
    if !result.ok {
      observation := "ERROR:\n" + Day2.ErrorText(result.error);
    } else {
      observation := "SUCCESS:\n" + result.output;
      if ds.fileExists.Some? && ds.fileExists.value != [] {
        var (ok, ws'') := VerifyFileExists(env.exec, ws', ds.fileExists.value);
        done, ws' := ok, ws'';
      } else {
        var (ok, _) := CheckDone(ds, result, env.search);
        done := ok;
      }
    }
    e := Episode(ws', observation, proposed, Some(result), history, notice, done);
  }

  /** `run_episode(task, rules)`: the criterion, a fresh guardrail, then at
      most twelve steps, returning at the first that is done. */
  method RunEpisode(env: Env, ws: Workspace) returns (r: Raising<(seq<Entry>, bool)>)
    ensures r == Report3(EpisodeRun(env, Start3(ws), MAX_STEPS))
  {
    var ds := InferDoneSpec(env.task);
    // The file name the preview looks for depends on the task alone.
    var csv := CsvMention(Lower(env.task));
    ghost var stepper := EpisodeStepper(env, ds, csv);
    r := Loop(env, ds, csv, stepper, ws);
  }

  /** What the loop of `run_episode` keeps after `k` iterations that did
      not stop it: the state is the run's, and the guardrail and the soft
      counter have seen every proposal. */
  ghost predicate Running(stepper: (Episode, nat) -> Raising<Episode>, ws: Workspace, guard: Guardrails.Guardrails,
    st: Episode, lastSig: Option<Sig>, repeatCount: nat, k: nat)
    reads guard
  {
    && Steps(stepper, Done3, Start3(ws), k) == Returned(st) && !st.done
    && guard.Valid() && guard.tracked == st.proposed && Counted(st.proposed, lastSig, repeatCount)
  }

  /** The loop of `run_episode` with its criterion and previewed name. */
  method Loop(env: Env, ds: DoneSpec, csv: Option<string>, ghost stepper: (Episode, nat) -> Raising<Episode>, ws: Workspace)
    returns (r: Raising<(seq<Entry>, bool)>)
    requires Drives(stepper, env, ds, csv)
    ensures r == Report3(Steps(stepper, Done3, Start3(ws), MAX_STEPS))
  {
    var guard := new Guardrails.Guardrails();
    var st := Start3(ws);
    var lastSig: Option<Sig> := None;
    var repeatCount: nat := 0;
    for step := 1 to MAX_STEPS + 1
      invariant Running(stepper, ws, guard, st, lastSig, repeatCount, step - 1)
    {
      var next;
      next, lastSig, repeatCount := Step(env, ds, csv, stepper, guard, st, lastSig, repeatCount, step);
      StepsNext(stepper, Done3, Start3(ws), step, st, next);
      if next.Raised? || next.value.done {
        StepsStay(stepper, Done3, Start3(ws), step, MAX_STEPS);
        return Report3(next);
      }
      st := next.value;
    }
    r := Returned((st.history, false));
  }
}
