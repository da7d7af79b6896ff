/** The day-12 beam driver: each step, up to four candidate calls proposed
    by the model for the current phase are executed one after another
    against the live workspace and verified; the first that passes ends the
    run, otherwise the best-scoring one is executed once more as the step's
    committed action, whose verification only refreshes the hint. */
module Day12 {
  import opened Wrappers
  import opened Dicts
  import opened Values
  import opened Workspaces
  import opened TaskSpecs
  import opened ToolSchema
  import opened Verifier
  import opened BenchTasks
  import opened Beam
  import opened Agent

  const MAX_STEPS: nat := 30
  const K: nat := 4
  const START_HINT: string := "Start."

  /** `best_score = -1e9`: a score must beat it to make its candidate the
      best. */
  const FLOOR: int := -1_000_000_000

  /** The array `propose_candidates` parses out of the model's reply to an
      observation with `k` asked for: `json.loads`, else the bracket
      extraction and defensive parse, else the repair call. */
  type Proposer = (Observation, int) -> Raising<Value>

  /** The rest of `propose_candidates(task, obs, k)`: a non-list yields no
      candidates, otherwise the kept entries, cut to the first `k`. */
  function Proposals(arr: Value, k: int): Raising<seq<Value>> {
    if !arr.List? then Returned([])
    else
      match Kept(arr.items, |arr.items|)
      case Raised(e) => Raised(e)
      case Returned(out) => Returned(PyTake(out, k))
  }

  /** What `ToolCall.model_validate` raises for a dict it rejects. */
  const INVALID_CALL: Exception := ValueError("1 validation error for ToolCall")

  /** `if c["name"] not in allowed: continue` and then
      `ToolCall.model_validate(c)`: no call for a skipped candidate. */
  function Admit(c: Value, allowed: seq<string>): Raising<Option<ToolCall>> {
    if !c.Object? then Raised(TypeError("candidate is not a dict"))
    else
      match Field(c, "name")
      case None => Raised(KeyError("name"))
      case Some(n) =>
        if !(n.Str? && n.s in allowed) then Returned(None)
        else
          match ValidateCall(c)
          case None => Raised(INVALID_CALL)
          case Some(a) => Returned(Some(a))
  }

  /** At most `k` candidates are proposed. */
  lemma ProposalsAtMost(arr: Value, k: nat)
    requires Proposals(arr, k).Returned?
    ensures |Proposals(arr, k).value| <= k
  {
    if arr.List? {
      CandidatesFacts(arr.items, k);
    }
  }

  /** The calls of the candidates `Admit` lets through, in proposal order. */
  function Admitted(cands: seq<Value>, allowed: seq<string>): seq<ToolCall> {
    if cands == [] then []
    else
      Admitted(cands[..|cands| - 1], allowed)
        + (match Admit(cands[|cands| - 1], allowed) case Returned(Some(a)) => [a] case _ => [])
  }

  /** Every admitted call names a tool of the phase. */
  lemma {:induction false} AdmittedAllowed(cands: seq<Value>, allowed: seq<string>)
    ensures forall a | a in Admitted(cands, allowed) :: a.Name() in allowed
    decreases |cands|
  {
    if cands != [] {
      AdmittedAllowed(cands[..|cands| - 1], allowed);
    }
  }

  /** Every proposal is a `{"name", "args"}` dict naming one of the four
      tools, so the name test and the validation never raise. */
  lemma ProposalsAdmit(arr: Value, k: int, allowed: seq<string>)
    requires Proposals(arr, k).Returned?
    ensures forall c | c in Proposals(arr, k).value :: Admit(c, allowed).Returned?
  {
    if arr.List? {
      CandidatesFacts(arr.items, k);
      Normalize.AllowedAreToolNames();
      var cs := Proposals(arr, k).value;
      forall c | c in cs
        ensures Admit(c, allowed).Returned?
      {
        var j :| 0 <= j < |cs| && cs[j] == c;
        var d := c.fields;
        assert IndexOf(d, "name") == 0;
        assert IndexOf(d, "args") == 1 by {
          assert IndexOf(d[1..], "args") == 0;
        }
      }
    }
  }

  // -------------------------------------------------------------- lookahead

  /** The lookahead so far: the workspace every execution changes, the
      candidates executed with their scores, the best score and action,
      and whether the last one passed. */
  datatype Look = Look(ws: Workspace, tried: seq<Entry>, scores: seq<int>, bestScore: int,
    bestAction: Option<ToolCall>, won: bool)

  function LookStart(ws: Workspace): Look {
    Look(ws, [], [], FLOOR, None, false)
  }

  predicate Won(l: Look) {
    l.won
  }

  /** Recording an executed candidate with score `s`: a passing one ends the
      lookahead before the best is updated, a failing one becomes the best
      only when it scores strictly higher. */
  function Scored(l: Look, e: Entry, ws: Workspace, s: int, ok: bool): Look {
    var better := !ok && s > l.bestScore;
    Look(ws, l.tried + [e], l.scores + [s], if better then s else l.bestScore,
      if better then Some(e.action) else l.bestAction, ok)
  }

  /** The `k`-th candidate (from 1): skipped, or executed, verified with
      the stdout checks and scored by its gaps. */
  function Try(spec: TaskSpec, exec: Executor, isFloat: FloatSyntax, allowed: seq<string>,
    cands: seq<Value>, step: nat, l: Look, k: nat): Raising<Look>
  {
    if !(1 <= k <= |cands|) then Returned(l)
    else
      match Admit(cands[k - 1], allowed)
      case Raised(e) => Raised(e)
      case Returned(None) => Returned(l)
      case Returned(Some(action)) =>
        var (result, ws) := exec(action, l.ws);
        match VerifySpec(spec, Some(result), ws, isFloat)
        case Raised(e) => Raised(e)
        case Returned(v) =>
          Returned(Scored(l, Entry(step, action, result), ws, ScoreByGaps(FullGaps(spec, Some(result), ws, isFloat)), v.ok))
  }

  function Trier(spec: TaskSpec, exec: Executor, isFloat: FloatSyntax, allowed: seq<string>,
    cands: seq<Value>, step: nat): (Look, nat) -> Raising<Look>
  {
    (l: Look, k: nat) => Try(spec, exec, isFloat, allowed, cands, step, l, k)
  }

  /** The lookahead after the first `n` candidates. */
  function LookRun(spec: TaskSpec, exec: Executor, isFloat: FloatSyntax, allowed: seq<string>,
    cands: seq<Value>, step: nat, ws: Workspace, n: nat): Raising<Look>
  {
    Steps(Trier(spec, exec, isFloat, allowed, cands, step), Won, LookStart(ws), n)
  }

  /** The calls of entries. */
  function Actions(h: seq<Entry>): (r: seq<ToolCall>)
    ensures |r| == |h|
  {
    seq(|h|, i requires 0 <= i < |h| => h[i].action)
  }

  /** The index whose candidate `if s > best_score` leaves as the best,
      scanning the scores from the left; None if none beats `floor`. */
  function ArgBest(scores: seq<int>, floor: int): (r: Option<nat>)
    ensures r.Some? ==> r.value < |scores|
  {
    if scores == [] then None
    else
      var r := ArgBest(scores[..|scores| - 1], floor);
      var best := if r.Some? then scores[r.value] else floor;
      if scores[|scores| - 1] > best then Some(|scores| - 1) else r
  }

  /** The scan picks nothing exactly when no score beats the floor, and
      otherwise the earliest of the highest scores, which beats the floor. */
  lemma {:induction false} ArgBestFacts(scores: seq<int>, floor: int)
    ensures ArgBest(scores, floor).None? <==> forall i | 0 <= i < |scores| :: scores[i] <= floor
    ensures ArgBest(scores, floor).Some? ==> var j := ArgBest(scores, floor).value;
      && scores[j] > floor
      && (forall i | 0 <= i < |scores| :: scores[i] <= scores[j])
      && (forall i | 0 <= i < j :: scores[i] < scores[j])
  {
    if scores != [] {
      var init := scores[..|scores| - 1];
      ArgBestFacts(init, floor);
      assert forall i | 0 <= i < |init| :: init[i] == scores[i];
    }
  }

  /** The best score and action are those of `ArgBest`'s index. */
  predicate BestIs(l: Look) {
    match ArgBest(l.scores, FLOOR)
    case None => l.bestAction.None? && l.bestScore == FLOOR
    case Some(j) => j < |l.tried| && l.bestAction == Some(l.tried[j].action) && l.bestScore == l.scores[j]
  }

  /** What the lookahead keeps over its first `k` candidates: the executed
      calls are the admitted ones in order (up to the passing one, if any),
      each recorded under `step` with a score no lower than the spec's
      weight, the best is `ArgBest`'s, and a stop means a pass. */
  ghost predicate LookInv(spec: TaskSpec, isFloat: FloatSyntax, allowed: seq<string>, cands: seq<Value>,
    step: nat, l: Look, k: nat)
  {
    && k <= |cands|
    && |l.tried| == |l.scores|
    && (forall i | 0 <= i < |l.tried| :: l.tried[i].step == step)
    && (forall i | 0 <= i < |l.scores| :: l.scores[i] >= -GapWeight(spec))
    && (!l.won ==> Actions(l.tried) == Admitted(cands[..k], allowed) && BestIs(l))
    && (l.won ==> (l.tried != [] && Actions(l.tried) <= Admitted(cands[..k], allowed)
          && Passes(VerifySpec(spec, Some(l.tried[|l.tried| - 1].result), l.ws, isFloat))))
  }

  /** One more candidate extends the admitted list by its call, if any. */
  lemma AdmittedSnoc(cands: seq<Value>, allowed: seq<string>, k: nat)
    requires 0 < k <= |cands|
    ensures Admitted(cands[..k], allowed) == Admitted(cands[..k - 1], allowed)
      + (match Admit(cands[k - 1], allowed) case Returned(Some(a)) => [a] case _ => [])
  {
    assert cands[..k][..k - 1] == cands[..k - 1];
  }

  lemma ActionsSnoc(h: seq<Entry>, e: Entry)
    ensures Actions(h + [e]) == Actions(h) + [e.action]
  {
  }

  /** The strict comparison keeps `ArgBest`'s choice. */
  lemma ArgBestSnoc(l: Look, e: Entry, ws: Workspace, s: int)
    requires |l.tried| == |l.scores| && BestIs(l)
    ensures BestIs(Scored(l, e, ws, s, false))
  {
    var l' := Scored(l, e, ws, s, false);
    assert l'.scores[..|l'.scores| - 1] == l.scores;
  }

  /** Trying one candidate keeps the lookahead's invariant. */
  lemma TryKeeps(spec: TaskSpec, exec: Executor, isFloat: FloatSyntax, allowed: seq<string>,
    cands: seq<Value>, step: nat, l: Look, k: nat)
    requires 0 < k <= |cands| && LookInv(spec, isFloat, allowed, cands, step, l, k - 1) && !l.won
    requires Try(spec, exec, isFloat, allowed, cands, step, l, k).Returned?
    ensures LookInv(spec, isFloat, allowed, cands, step, Try(spec, exec, isFloat, allowed, cands, step, l, k).value, k)
  {
    AdmittedSnoc(cands, allowed, k);
    match Admit(cands[k - 1], allowed)
    case Returned(None) =>
    case Returned(Some(action)) =>
      var (result, ws) := exec(action, l.ws);
      var v := VerifySpec(spec, Some(result), ws, isFloat).value;
      ScoreByGapsFloor(spec, Some(result), ws, isFloat);
      ScoredKeeps(spec, isFloat, allowed, cands, step, l, k, Entry(step, action, result), ws,
        ScoreByGaps(FullGaps(spec, Some(result), ws, isFloat)), v.ok);
  }

  /** Recording an admitted candidate keeps the lookahead's invariant. */
  lemma ScoredKeeps(spec: TaskSpec, isFloat: FloatSyntax, allowed: seq<string>, cands: seq<Value>,
    step: nat, l: Look, k: nat, e: Entry, ws: Workspace, s: int, ok: bool)
    requires 0 < k <= |cands| && LookInv(spec, isFloat, allowed, cands, step, l, k - 1) && !l.won
    requires Admit(cands[k - 1], allowed) == Returned(Some(e.action)) && e.step == step
    requires s >= -GapWeight(spec)
    requires ok ==> Passes(VerifySpec(spec, Some(e.result), ws, isFloat))
    ensures LookInv(spec, isFloat, allowed, cands, step, Scored(l, e, ws, s, ok), k)
  {
    AdmittedSnoc(cands, allowed, k);
    ActionsSnoc(l.tried, e);
    ArgBestSnoc(l, e, ws, s);
  }

  /** A stopped lookahead keeps its invariant as the loop runs on. */
  lemma WonStays(spec: TaskSpec, isFloat: FloatSyntax, allowed: seq<string>, cands: seq<Value>,
    step: nat, l: Look, k: nat)
    requires 0 < k <= |cands| && LookInv(spec, isFloat, allowed, cands, step, l, k - 1) && l.won
    ensures LookInv(spec, isFloat, allowed, cands, step, l, k)
  {
    AdmittedSnoc(cands, allowed, k);
  }

  /** After all the candidates, the lookahead keeps its invariant. */
  lemma LookRunInvariant(spec: TaskSpec, exec: Executor, isFloat: FloatSyntax, allowed: seq<string>,
    cands: seq<Value>, step: nat, ws: Workspace)
    requires LookRun(spec, exec, isFloat, allowed, cands, step, ws, |cands|).Returned?
    ensures LookInv(spec, isFloat, allowed, cands, step, LookRun(spec, exec, isFloat, allowed, cands, step, ws, |cands|).value, |cands|)
  {
    var trier := Trier(spec, exec, isFloat, allowed, cands, step);
    var n := |cands|;
    forall l: Look, k: nat | 0 < k <= n && LookInv(spec, isFloat, allowed, cands, step, l, k - 1) && !Won(l) && trier(l, k).Returned?
      ensures LookInv(spec, isFloat, allowed, cands, step, trier(l, k).value, k)
    {
      TryKeeps(spec, exec, isFloat, allowed, cands, step, l, k);
    }
    forall l: Look, k: nat | 0 < k <= n && LookInv(spec, isFloat, allowed, cands, step, l, k - 1) && Won(l)
      ensures LookInv(spec, isFloat, allowed, cands, step, l, k)
    {
      WonStays(spec, isFloat, allowed, cands, step, l, k);
    }
    assert LookInv(spec, isFloat, allowed, cands, step, LookStart(ws), 0) by {
      assert cands[..0] == [];
    }
    StepsInduct(trier, Won, LookStart(ws), n, (l: Look, k: nat) => LookInv(spec, isFloat, allowed, cands, step, l, k));
  }

  /** The lookahead over the candidates: every admitted candidate runs, in
      proposal order, up to the first that passes, recorded under the
      step's number; a stop means the last one passed. */
  lemma LookaheadOrder(spec: TaskSpec, exec: Executor, isFloat: FloatSyntax, allowed: seq<string>,
    cands: seq<Value>, step: nat, ws: Workspace)
    requires LookRun(spec, exec, isFloat, allowed, cands, step, ws, |cands|).Returned?
    ensures var l := LookRun(spec, exec, isFloat, allowed, cands, step, ws, |cands|).value;
      && |l.tried| <= |cands|
      && (forall i | 0 <= i < |l.tried| :: l.tried[i].step == step && l.tried[i].action.Name() in allowed)
      && (!l.won ==> Actions(l.tried) == Admitted(cands, allowed))
      && (l.won ==> Actions(l.tried) <= Admitted(cands, allowed))
      && (l.won ==> l.tried != [] && Passes(VerifySpec(spec, Some(l.tried[|l.tried| - 1].result), l.ws, isFloat)))
      && (!l.won && l.bestAction.Some? ==> l.bestAction.value.Name() in allowed)
  {
    var l := LookRun(spec, exec, isFloat, allowed, cands, step, ws, |cands|).value;
    LookRunInvariant(spec, exec, isFloat, allowed, cands, step, ws);
    InvOrder(spec, isFloat, allowed, cands, step, l);
  }

  lemma InvOrder(spec: TaskSpec, isFloat: FloatSyntax, allowed: seq<string>, cands: seq<Value>, step: nat, l: Look)
    requires LookInv(spec, isFloat, allowed, cands, step, l, |cands|)
    ensures |l.tried| <= |cands|
    ensures forall i | 0 <= i < |l.tried| :: l.tried[i].step == step && l.tried[i].action.Name() in allowed
    ensures !l.won ==> Actions(l.tried) == Admitted(cands, allowed)
    ensures l.won ==> Actions(l.tried) <= Admitted(cands, allowed)
    ensures !l.won && l.bestAction.Some? ==> l.bestAction.value.Name() in allowed
  {
    assert cands[..|cands|] == cands;
    var adm := Admitted(cands, allowed);
    AdmittedLength(cands, allowed);
    AdmittedAllowed(cands, allowed);
    forall i | 0 <= i < |l.tried|
      ensures l.tried[i].action.Name() in allowed
    {
      assert l.tried[i].action == Actions(l.tried)[i] == adm[i];
    }
    if l.bestAction.Some? && !l.won {
      var j := ArgBest(l.scores, FLOOR).value;
      assert l.bestAction.value == l.tried[j].action;
    }
  }

  lemma LookaheadShaped(spec: TaskSpec, exec: Executor, isFloat: FloatSyntax, allowed: seq<string>,
    cands: seq<Value>, step: nat, ws: Workspace)
    requires |cands| <= K
    requires LookRun(spec, exec, isFloat, allowed, cands, step, ws, |cands|).Returned?
    ensures Shaped(spec, isFloat, allowed, step, LookRun(spec, exec, isFloat, allowed, cands, step, ws, |cands|).value)
  {
    LookaheadOrder(spec, exec, isFloat, allowed, cands, step, ws);
  }

  /** When no candidate passes, the best is the candidate `ArgBest` picks
      from the scores; when the spec weighs less than the floor, every
      score beats it, so there is no best exactly when no candidate ran. */
  lemma LookaheadBest(spec: TaskSpec, exec: Executor, isFloat: FloatSyntax, allowed: seq<string>,
    cands: seq<Value>, step: nat, ws: Workspace)
    requires LookRun(spec, exec, isFloat, allowed, cands, step, ws, |cands|).Returned?
    requires !LookRun(spec, exec, isFloat, allowed, cands, step, ws, |cands|).value.won
    ensures var l := LookRun(spec, exec, isFloat, allowed, cands, step, ws, |cands|).value;
      && |l.scores| == |l.tried|
      && l.bestAction == (match ArgBest(l.scores, FLOOR) case None => None case Some(j) => Some(l.tried[j].action))
      && (GapWeight(spec) < -FLOOR ==> (l.bestAction.None? <==> l.tried == []))
  {
    var l := LookRun(spec, exec, isFloat, allowed, cands, step, ws, |cands|).value;
    LookRunInvariant(spec, exec, isFloat, allowed, cands, step, ws);
    ArgBestFacts(l.scores, FLOOR);
    if GapWeight(spec) < -FLOOR && l.tried != [] {
      assert l.scores[0] > FLOOR;
    }
  }

  lemma {:induction false} AdmittedLength(cands: seq<Value>, allowed: seq<string>)
    ensures |Admitted(cands, allowed)| <= |cands|
    decreases |cands|
  {
    if cands != [] {
      AdmittedLength(cands[..|cands| - 1], allowed);
    }
  }

  // ------------------------------------------------------------------- step

  /** The committed action: the best candidate executed again, or the
      directory listing when there is none; its verification gives the
      next hint, and a pass there does not end the run. */
  function Commit(spec: TaskSpec, exec: Executor, isFloat: FloatSyntax, p: Progress, l: Look, step: nat): Raising<Progress> {
    var action := l.bestAction.GetOr(FALLBACK);
    var (last, ws) := exec(action, l.ws);
    match VerifySpec(spec, Some(last), ws, isFloat)
    case Raised(e) => Raised(e)
    case Returned(v) => Returned(Progress(ws, Some(last), FromVerifier(v.hint), p.history + l.tried + [Entry(step, action, last)], false))
  }

  /** One step: the phase from the artifact checks, the candidates proposed
      for it, the lookahead, and the commit unless a candidate passed. */
  function BeamStep(spec: TaskSpec, exec: Executor, proposer: Proposer, isFloat: FloatSyntax, p: Progress, step: nat): Raising<Progress> {
    match ArtifactCheck(spec, p.ws)
    case Raised(e) => Raised(e)
    case Returned(artifactsOk) =>
      var allowed := AllowedForPhase(artifactsOk);
      var obs := Observation(step, allowed, Some(PhaseName(artifactsOk)), p.hint, Some(ArtifactGaps(spec, p.ws)), []);
      match proposer(obs, K)
      case Raised(e) => Raised(e)
      case Returned(arr) => Propose(spec, exec, isFloat, allowed, p, arr, step)
  }

  /** The candidates of the parsed proposal, the lookahead over them, and
      what follows it. */
  function Propose(spec: TaskSpec, exec: Executor, isFloat: FloatSyntax, allowed: seq<string>, p: Progress,
    arr: Value, step: nat): Raising<Progress>
  {
    match Proposals(arr, K)
    case Raised(e) => Raised(e)
    case Returned(cands) =>
      match LookRun(spec, exec, isFloat, allowed, cands, step, p.ws, |cands|)
      case Raised(e) => Raised(e)
      case Returned(l) => Decide(spec, exec, isFloat, p, l, step)
  }

  /** After the lookahead: a passing candidate ends the run with `True`,
      otherwise the commit. */
  function Decide(spec: TaskSpec, exec: Executor, isFloat: FloatSyntax, p: Progress, l: Look, step: nat): Raising<Progress> {
    if l.won then Returned(Progress(l.ws, p.last, p.hint, p.history + l.tried, true))
    else Commit(spec, exec, isFloat, p, l, step)
  }

  function BeamStepper(spec: TaskSpec, exec: Executor, proposer: Proposer, isFloat: FloatSyntax): (Progress, nat) -> Raising<Progress> {
    (p: Progress, step: nat) => BeamStep(spec, exec, proposer, isFloat, p, step)
  }

  /** The state after the first `n` iterations of `run`'s loop. */
  function BeamRun(spec: TaskSpec, exec: Executor, proposer: Proposer, isFloat: FloatSyntax, start: Progress, n: nat): Raising<Progress> {
    Steps(BeamStepper(spec, exec, proposer, isFloat), HasPassed, start, n)
  }

  /** What the lookahead guarantees the rest of the step. */
  ghost predicate Shaped(spec: TaskSpec, isFloat: FloatSyntax, allowed: seq<string>, step: nat, l: Look) {
    && |l.tried| <= K
    && (forall e | e in l.tried :: e.step == step && e.action.Name() in allowed)
    && (l.won ==> l.tried != [] && Passes(VerifySpec(spec, Some(l.tried[|l.tried| - 1].result), l.ws, isFloat)))
    && (!l.won && l.bestAction.Some? ==> l.bestAction.value.Name() in allowed)
  }

  /** The step's new entries, as the rest of the loop needs them. */
  ghost predicate Extends(spec: TaskSpec, isFloat: FloatSyntax, allowed: seq<string>, p: Progress, q: Progress, step: nat) {
    var m := |p.history|;
    && m < |q.history| <= m + K + 1
    && q.history[..m] == p.history
    && (forall e | e in q.history[m..] :: e.step == step && (e.action.Name() in allowed || e.action == FALLBACK))
    && (q.ok ==> Passes(VerifySpec(spec, Some(q.history[|q.history| - 1].result), q.ws, isFloat)))
    && (!q.ok ==> q.last == Some(q.history[|q.history| - 1].result))
    && (!q.ok ==> VerifySpec(spec, q.last, q.ws, isFloat).Returned?)
    && (!q.ok ==> q.hint == FromVerifier(VerifySpec(spec, q.last, q.ws, isFloat).value.hint))
  }

  /** The step's new entries are the lookahead's and, unless it stopped,
      the commit's. */
  lemma DecideFacts(spec: TaskSpec, exec: Executor, isFloat: FloatSyntax, allowed: seq<string>, p: Progress, l: Look, step: nat)
    requires Shaped(spec, isFloat, allowed, step, l)
    requires Decide(spec, exec, isFloat, p, l, step).Returned?
    ensures Extends(spec, isFloat, allowed, p, Decide(spec, exec, isFloat, p, l, step).value, step)
  {
    if l.won {
      WonExtends(spec, isFloat, allowed, p, l, step);
    } else {
      CommitExtends(spec, exec, isFloat, allowed, p, l, step);
    }
  }

  lemma WonExtends(spec: TaskSpec, isFloat: FloatSyntax, allowed: seq<string>, p: Progress, l: Look, step: nat)
    requires Shaped(spec, isFloat, allowed, step, l) && l.won
    ensures Extends(spec, isFloat, allowed, p, Progress(l.ws, p.last, p.hint, p.history + l.tried, true), step)
  {
    var h := p.history + l.tried;
    var m := |p.history|;
    var last := l.tried[|l.tried| - 1];
    assert h[|h| - 1] == last;
    assert Passes(VerifySpec(spec, Some(last.result), l.ws, isFloat));
    assert h[..m] == p.history;
    assert h[m..] == l.tried;
    assert forall e | e in h[m..] :: e.step == step && e.action.Name() in allowed;
  }

  lemma CommitExtends(spec: TaskSpec, exec: Executor, isFloat: FloatSyntax, allowed: seq<string>, p: Progress, l: Look, step: nat)
    requires Shaped(spec, isFloat, allowed, step, l) && !l.won
    requires Commit(spec, exec, isFloat, p, l, step).Returned?
    ensures Extends(spec, isFloat, allowed, p, Commit(spec, exec, isFloat, p, l, step).value, step)
  {
    var q := Commit(spec, exec, isFloat, p, l, step).value;
    var m := |p.history|;
    var action := l.bestAction.GetOr(FALLBACK);
    var h := p.history + l.tried + [Entry(step, action, q.last.value)];
    assert q.history == h;
    assert h[..m] == p.history;
    assert h[m..] == l.tried + [Entry(step, action, q.last.value)];
  }

  /** A step executes at most `K + 1` calls, all recorded under its number:
      candidates its phase admits, then, unless one passed, the best of
      them again or the directory listing. A passing step ends on a passing
      verification; otherwise the commit's result is `last` and its
      verification gives the hint. */
  lemma BeamStepAdmits(spec: TaskSpec, exec: Executor, proposer: Proposer, isFloat: FloatSyntax, p: Progress, step: nat)
    requires BeamStep(spec, exec, proposer, isFloat, p, step).Returned?
    ensures Extends(spec, isFloat, AllowedForPhase(ArtifactCheck(spec, p.ws).value), p,
      BeamStep(spec, exec, proposer, isFloat, p, step).value, step)
  {
    var artifactsOk := ArtifactCheck(spec, p.ws).value;
    var allowed := AllowedForPhase(artifactsOk);
    var obs := Observation(step, allowed, Some(PhaseName(artifactsOk)), p.hint, Some(ArtifactGaps(spec, p.ws)), []);
    ProposeFacts(spec, exec, isFloat, allowed, p, proposer(obs, K).value, step);
  }

  lemma ProposeFacts(spec: TaskSpec, exec: Executor, isFloat: FloatSyntax, allowed: seq<string>, p: Progress,
    arr: Value, step: nat)
    requires Propose(spec, exec, isFloat, allowed, p, arr, step).Returned?
    ensures Extends(spec, isFloat, allowed, p, Propose(spec, exec, isFloat, allowed, p, arr, step).value, step)
  {
    var cands := Proposals(arr, K).value;
    ProposalsAtMost(arr, K);
    LookaheadShaped(spec, exec, isFloat, allowed, cands, step, p.ws);
    DecideFacts(spec, exec, isFloat, allowed, p, LookRun(spec, exec, isFloat, allowed, cands, step, p.ws, |cands|).value, step);
  }

  // -------------------------------------------------------------------- run

  /** What `run`'s loop guarantees after `n` iterations: at most `K + 1`
      entries per step, numbered by step in order; a passing run stopped at
      a candidate whose verification passed on the workspace it left; a run
      that has not passed committed once in each of its `n` steps, its last
      entry is the last commit, whose verification gave the hint. */
  ghost predicate BeamRecord(spec: TaskSpec, isFloat: FloatSyntax, p: Progress, n: nat) {
    StepNumbers(p.history, n) && RecordEnd(spec, isFloat, p, n)
  }

  /** At most `K + 1` entries per step, numbered from 1 to `n` in order. */
  ghost predicate StepNumbers(h: seq<Entry>, n: nat) {
    && |h| <= (K + 1) * n
    && (forall i | 0 <= i < |h| :: 1 <= h[i].step <= n)
    && (forall i, j | 0 <= i < j < |h| :: h[i].step <= h[j].step)
  }

  /** How the record ends after `n` iterations. */
  ghost predicate RecordEnd(spec: TaskSpec, isFloat: FloatSyntax, p: Progress, n: nat) {
    var h := p.history;
    && (p.ok ==> h != [] && Passes(VerifySpec(spec, Some(h[|h| - 1].result), p.ws, isFloat)))
    && (!p.ok ==> n <= |h|)
    && (!p.ok && n == 0 ==> p.last.None?)
    && (!p.ok && n > 0 ==> h != [] && h[|h| - 1].step == n && p.last == Some(h[|h| - 1].result))
    && (!p.ok && n > 0 ==> VerifySpec(spec, p.last, p.ws, isFloat).Returned?)
    && (!p.ok && n > 0 ==> p.hint == FromVerifier(VerifySpec(spec, p.last, p.ws, isFloat).value.hint))
  }

  /** A step that extends the record keeps it. */
  lemma ExtendsRecord(spec: TaskSpec, isFloat: FloatSyntax, allowed: seq<string>, p: Progress, q: Progress, n: nat)
    requires n > 0 && BeamRecord(spec, isFloat, p, n - 1) && !p.ok
    requires Extends(spec, isFloat, allowed, p, q, n)
    ensures BeamRecord(spec, isFloat, q, n)
  {
    ExtendsNumbers(spec, isFloat, allowed, p, q, n);
    assert q.history[|q.history| - 1] == q.history[|p.history|..][|q.history| - 1 - |p.history|];
  }

  /** The new entries all carry the new step's number. */
  lemma ExtendsNumbers(spec: TaskSpec, isFloat: FloatSyntax, allowed: seq<string>, p: Progress, q: Progress, n: nat)
    requires n > 0 && StepNumbers(p.history, n - 1)
    requires Extends(spec, isFloat, allowed, p, q, n)
    ensures StepNumbers(q.history, n)
  {
    var m, h := |p.history|, q.history;
    forall i | 0 <= i < |h|
      ensures 1 <= h[i].step <= n
      ensures i >= m ==> h[i].step == n
    {
      if i < m {
        assert h[i] == p.history[i];
      } else {
        assert h[i] == h[m..][i - m];
      }
    }
    forall i, j | 0 <= i < j < |h|
      ensures h[i].step <= h[j].step
    {
      if j < m {
        assert h[i] == p.history[i] && h[j] == p.history[j];
      }
    }
    assert |h| <= (K + 1) * n;
  }

  /** One step of a run that has not passed keeps the record. */
  lemma BeamStepKeeps(spec: TaskSpec, exec: Executor, proposer: Proposer, isFloat: FloatSyntax, p: Progress, n: nat)
    requires n > 0 && BeamRecord(spec, isFloat, p, n - 1) && !p.ok
    requires BeamStep(spec, exec, proposer, isFloat, p, n).Returned?
    ensures BeamRecord(spec, isFloat, BeamStep(spec, exec, proposer, isFloat, p, n).value, n)
  {
    BeamStepAdmits(spec, exec, proposer, isFloat, p, n);
    ExtendsRecord(spec, isFloat, AllowedForPhase(ArtifactCheck(spec, p.ws).value), p,
      BeamStep(spec, exec, proposer, isFloat, p, n).value, n);
  }

  /** A run that has passed keeps its record for one more iteration. */
  lemma PassedRecord(spec: TaskSpec, isFloat: FloatSyntax, p: Progress, k: nat)
    requires k > 0 && BeamRecord(spec, isFloat, p, k - 1) && p.ok
    ensures BeamRecord(spec, isFloat, p, k)
  {
    assert |p.history| <= (K + 1) * k;
  }

  /** After any number of iterations of `run`'s loop that returned, the run
      keeps the record. */
  lemma BeamRunInvariant(spec: TaskSpec, exec: Executor, proposer: Proposer, isFloat: FloatSyntax, ws: Workspace, n: nat)
    requires BeamRun(spec, exec, proposer, isFloat, Start(ws, START_HINT), n).Returned?
    ensures BeamRecord(spec, isFloat, BeamRun(spec, exec, proposer, isFloat, Start(ws, START_HINT), n).value, n)
  {
    BeamInduct(BeamStepper(spec, exec, proposer, isFloat), spec, exec, proposer, isFloat, ws, n);
  }

  /** `stepper` takes the steps of `run`'s loop. The induction below
      reasons through `stepper` alone and never unfolds a step. */
  ghost predicate BeamDrives(stepper: (Progress, nat) -> Raising<Progress>, spec: TaskSpec, exec: Executor,
    proposer: Proposer, isFloat: FloatSyntax)
  {
    forall p, k {:trigger BeamStep(spec, exec, proposer, isFloat, p, k)} :: stepper(p, k) == BeamStep(spec, exec, proposer, isFloat, p, k)
  }

  lemma BeamInduct(stepper: (Progress, nat) -> Raising<Progress>, spec: TaskSpec, exec: Executor, proposer: Proposer,
    isFloat: FloatSyntax, ws: Workspace, n: nat)
    requires BeamDrives(stepper, spec, exec, proposer, isFloat)
    requires Steps(stepper, HasPassed, Start(ws, START_HINT), n).Returned?
    ensures BeamRecord(spec, isFloat, Steps(stepper, HasPassed, Start(ws, START_HINT), n).value, n)
  {
    forall p: Progress, k: nat | 0 < k <= n && BeamRecord(spec, isFloat, p, k - 1) && !HasPassed(p) && stepper(p, k).Returned?
      ensures BeamRecord(spec, isFloat, stepper(p, k).value, k)
    {
      DrivenKeeps(stepper, spec, exec, proposer, isFloat, p, k);
    }
    forall p: Progress, k: nat | 0 < k <= n && BeamRecord(spec, isFloat, p, k - 1) && HasPassed(p)
      ensures BeamRecord(spec, isFloat, p, k)
    {
      PassedRecord(spec, isFloat, p, k);
    }
    StepsInduct(stepper, HasPassed, Start(ws, START_HINT), n, (p: Progress, k: nat) => BeamRecord(spec, isFloat, p, k));
  }

  lemma DrivenKeeps(stepper: (Progress, nat) -> Raising<Progress>, spec: TaskSpec, exec: Executor, proposer: Proposer,
    isFloat: FloatSyntax, p: Progress, n: nat)
    requires BeamDrives(stepper, spec, exec, proposer, isFloat)
    requires n > 0 && BeamRecord(spec, isFloat, p, n - 1) && !p.ok && stepper(p, n).Returned?
    ensures BeamRecord(spec, isFloat, stepper(p, n).value, n)
  {
    assert stepper(p, n) == BeamStep(spec, exec, proposer, isFloat, p, n);
    BeamStepKeeps(spec, exec, proposer, isFloat, p, n);
  }

  /** `run(bt)` after the reset: at most 150 executions in 30 steps; a run
      that fails committed in each of the 30 steps; a run that succeeds
      ended on a candidate that passed verification. */
  lemma RunOutcome(bt: BenchTask, exec: Executor, proposer: Proposer, isFloat: FloatSyntax, ws: Workspace)
    requires BeamRun(ToSpec(bt), exec, proposer, isFloat, Start(ws, START_HINT), MAX_STEPS).Returned?
    ensures var p := BeamRun(ToSpec(bt), exec, proposer, isFloat, Start(ws, START_HINT), MAX_STEPS).value;
      && |p.history| <= (K + 1) * MAX_STEPS
      && (forall i | 0 <= i < |p.history| :: 1 <= p.history[i].step <= MAX_STEPS)
      && (!p.ok ==> MAX_STEPS <= |p.history| && p.history[|p.history| - 1].step == MAX_STEPS)
      && (p.ok ==> p.history != [] && Passes(VerifySpec(ToSpec(bt), Some(p.history[|p.history| - 1].result), p.ws, isFloat)))
  {
    BeamRunInvariant(ToSpec(bt), exec, proposer, isFloat, ws, MAX_STEPS);
  }

  // ---------------------------------------------------------------- methods

  /** One pass of the candidate loop's body. */
  method TryCandidate(spec: TaskSpec, exec: Executor, isFloat: FloatSyntax, allowed: seq<string>,
    cands: seq<Value>, step: nat, l: Look, k: nat)
    returns (r: Raising<Look>)
    requires 1 <= k <= |cands|
    ensures r == Try(spec, exec, isFloat, allowed, cands, step, l, k)
  {
    var admitted := Admit(cands[k - 1], allowed);
    if admitted.Raised? {
      return Raised(admitted.exc);
    }
    if admitted.value.None? {
      return Returned(l);
    }
    var action := admitted.value.value;
    var (result, ws') := exec(action, l.ws);
    var vFull := Verify(spec, Some(result), ws', isFloat);
    if vFull.Raised? {
      return Raised(vFull.exc);
    }
    var s := ScoreByGaps(FullGaps(spec, Some(result), ws', isFloat));
    r := Returned(Scored(l, Entry(step, action, result), ws', s, vFull.value.ok));
  }

  /** The next iteration of the candidate loop. */
  method LookNext(spec: TaskSpec, exec: Executor, isFloat: FloatSyntax, allowed: seq<string>,
    cands: seq<Value>, step: nat, ws: Workspace, l: Look, k: nat)
    returns (next: Raising<Look>)
    requires 1 <= k <= |cands| && LookRun(spec, exec, isFloat, allowed, cands, step, ws, k - 1) == Returned(l) && !l.won
    ensures next == LookRun(spec, exec, isFloat, allowed, cands, step, ws, k)
  {
    next := TryCandidate(spec, exec, isFloat, allowed, cands, step, l, k);
    LookRunNext(spec, exec, isFloat, allowed, cands, step, ws, l, k, next);
  }

  /** The candidate loop: each candidate in turn, stopping at the first
      whose result passes. */
  method Lookahead(spec: TaskSpec, exec: Executor, isFloat: FloatSyntax, allowed: seq<string>,
    cands: seq<Value>, step: nat, ws: Workspace)
    returns (r: Raising<Look>)
    ensures r == LookRun(spec, exec, isFloat, allowed, cands, step, ws, |cands|)
  {
    var l := LookStart(ws);
    for k := 1 to |cands| + 1
      invariant LookRun(spec, exec, isFloat, allowed, cands, step, ws, k - 1) == Returned(l) && !l.won
    {
      var next := LookNext(spec, exec, isFloat, allowed, cands, step, ws, l, k);
      if next.Raised? || next.value.won {
        LookRunStops(spec, exec, isFloat, allowed, cands, step, ws, k);
        return next;
      }
      l := next.value;
    }
    r := Returned(l);
  }

  /** An iteration of the candidate loop that has not stopped tries the
      next candidate. */
  lemma LookRunNext(spec: TaskSpec, exec: Executor, isFloat: FloatSyntax, allowed: seq<string>,
    cands: seq<Value>, step: nat, ws: Workspace, l: Look, k: nat, next: Raising<Look>)
    requires k > 0 && LookRun(spec, exec, isFloat, allowed, cands, step, ws, k - 1) == Returned(l) && !l.won
    requires next == Try(spec, exec, isFloat, allowed, cands, step, l, k)
    ensures LookRun(spec, exec, isFloat, allowed, cands, step, ws, k) == next
  {
    StepsNext(Trier(spec, exec, isFloat, allowed, cands, step), Won, LookStart(ws), k, l, next);
  }

  /** A candidate loop that has stopped has its final state. */
  lemma LookRunStops(spec: TaskSpec, exec: Executor, isFloat: FloatSyntax, allowed: seq<string>,
    cands: seq<Value>, step: nat, ws: Workspace, k: nat)
    requires k <= |cands|
    requires var r := LookRun(spec, exec, isFloat, allowed, cands, step, ws, k); r.Raised? || r.value.won
    ensures LookRun(spec, exec, isFloat, allowed, cands, step, ws, |cands|) == LookRun(spec, exec, isFloat, allowed, cands, step, ws, k)
  {
    StepsStay(Trier(spec, exec, isFloat, allowed, cands, step), Won, LookStart(ws), k, |cands|);
  }

  /** The commit: the best candidate again, or the directory listing. */
  method CommitStep(spec: TaskSpec, exec: Executor, isFloat: FloatSyntax, p: Progress, l: Look, step: nat)
    returns (r: Raising<Progress>)
    ensures r == Commit(spec, exec, isFloat, p, l, step)
  {
    var bestAction := if l.bestAction.Some? then l.bestAction.value else FALLBACK;
    var (last, ws') := exec(bestAction, l.ws);
    var vAfter := Verify(spec, Some(last), ws', isFloat);
    if vAfter.Raised? {
      return Raised(vAfter.exc);
    }
    r := Returned(Progress(ws', Some(last), FromVerifier(vAfter.value.hint), p.history + l.tried + [Entry(step, bestAction, last)], false));
  }

  /** A pass of the loop body. */
  method Step(spec: TaskSpec, exec: Executor, proposer: Proposer, isFloat: FloatSyntax, p: Progress, step: nat)
    returns (r: Raising<Progress>)
    ensures r == BeamStep(spec, exec, proposer, isFloat, p, step)
  {
    var vArt := ArtifactCheck(spec, p.ws);
    if vArt.Raised? {
      return Raised(vArt.exc);
    }
    var artifactsOk := vArt.value;
    var allowed := AllowedForPhase(artifactsOk);
    var obs := Observation(step, allowed, Some(PhaseName(artifactsOk)), p.hint, Some(ArtifactGaps(spec, p.ws)), []);
    var arr := proposer(obs, K);
    if arr.Raised? {
      return Raised(arr.exc);
    }
    r := ProposeStep(spec, exec, isFloat, allowed, p, arr.value, step);
  }

  /** The candidates, the lookahead, and the commit. */
  method ProposeStep(spec: TaskSpec, exec: Executor, isFloat: FloatSyntax, allowed: seq<string>, p: Progress,
    arr: Value, step: nat)
    returns (r: Raising<Progress>)
    ensures r == Propose(spec, exec, isFloat, allowed, p, arr, step)
  {
    var cands := FilterCandidates(arr, K);
    if cands.Raised? {
      return Raised(cands.exc);
    }
    var l := Lookahead(spec, exec, isFloat, allowed, cands.value, step, p.ws);
    if l.Raised? {
      return Raised(l.exc);
    }
    if l.value.won {
      return Returned(Progress(l.value.ws, p.last, p.hint, p.history + l.value.tried, true));
    }
    r := CommitStep(spec, exec, isFloat, p, l.value, step);
  }

  /** The step loop: at most `maxSteps` steps, returning at the first
      passing candidate. */
  method Loop(spec: TaskSpec, exec: Executor, proposer: Proposer, isFloat: FloatSyntax, start: Progress, maxSteps: nat)
    returns (r: Raising<Progress>)
    requires !start.ok
    ensures r == BeamRun(spec, exec, proposer, isFloat, start, maxSteps)
  {
    var p := start;
    for step := 1 to maxSteps + 1
      invariant BeamRun(spec, exec, proposer, isFloat, start, step - 1) == Returned(p) && !p.ok
    {
      var next := Step(spec, exec, proposer, isFloat, p, step);
      assert BeamRun(spec, exec, proposer, isFloat, start, step) == next;
      if next.Raised? || next.value.ok {
        StepsStay(BeamStepper(spec, exec, proposer, isFloat), HasPassed, start, step, maxSteps);
        return next;
      }
      p := next.value;
    }
    r := Returned(p);
  }

  /** `run(bt)` from the workspace the reset leaves: True at the first
      candidate that passes within 30 steps, else False. */
  method Run(bt: BenchTask, exec: Executor, proposer: Proposer, isFloat: FloatSyntax, ws: Workspace)
    returns (r: Raising<bool>)
    ensures r == Succeeded(Report(BeamRun(ToSpec(bt), exec, proposer, isFloat, Start(ws, START_HINT), MAX_STEPS)))
  {
    var spec := ToSpec(bt);
    var res := Loop(spec, exec, proposer, isFloat, Start(ws, START_HINT), MAX_STEPS);
    r := Succeeded(Report(res));
  }
}
