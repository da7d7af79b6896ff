/** The linear run score: a base of 100, penalties per step, error, repeat,
    `pip_install` call and guardrail override, and a bonus or malus of 30
    for success or failure. */
module Scoring {
  import opened Wrappers
  import opened Dicts
  import opened Values
  import opened Metrics

  /** The metrics dict `score_run` reads. `steps`, `errors`, `repeats` and
      `tool_counts` must be present; `guardrail_overrides` may be missing. */
  datatype ScoreInput = ScoreInput(
    steps: int,
    errors: int,
    repeats: int,
    toolCounts: Dict<Option<Value>, int>,
    guardrailOverrides: Option<int>)

  /** The `tool_counts` key of the package-install tool. */
  const PIP: Option<Value> := Some(Str("pip_install"))

  /** The dict `compute_metrics` returns, which always holds every key. */
  function OfMetrics(m: Metrics): ScoreInput {
    ScoreInput(m.steps, m.errors, m.repeats, m.toolCounts, Some(m.guardrailOverrides))
  }

  /** `tool_counts.get("pip_install", 0)` */
  function PipInstalls(m: ScoreInput): int {
    Get(m.toolCounts, PIP).GetOr(0)
  }

  /** `metrics.get("guardrail_overrides", 0)` */
  function Overrides(m: ScoreInput): int {
    m.guardrailOverrides.GetOr(0)
  }

  /** `score_run(metrics, success)`, as the source writes it: successive
      updates of one running score. */
  function ScoreRun(m: ScoreInput, success: bool): real {
    var s0 := 100.0;
    var s1 := s0 - 3.0 * (m.steps as real);
    var s2 := s1 - 10.0 * (m.errors as real);
    var s3 := s2 - 2.0 * (m.repeats as real);
    var s4 := s3 - 15.0 * (PipInstalls(m) as real);
    var s5 := s4 - 5.0 * (Overrides(m) as real);
    s5 + (if success then 30.0 else -30.0)
  }

  /** The weighted sum of the penalised quantities. */
  function Penalty(m: ScoreInput): int {
    3 * m.steps + 10 * m.errors + 2 * m.repeats + 15 * PipInstalls(m) + 5 * Overrides(m)
  }

  /** The score is 130 or 70 less the weighted penalties. */
  lemma ScoreIsLinear(m: ScoreInput, success: bool)
    ensures ScoreRun(m, success) == (if success then 130.0 else 70.0) - (Penalty(m) as real)
  {
  }

  /** For the same metrics, success scores exactly 60 more than failure. */
  lemma ScoreSuccessGap(m: ScoreInput)
    ensures ScoreRun(m, true) - ScoreRun(m, false) == 60.0
  {
  }

  /** No counted quantity decreases from `m` to `m'`. */
  predicate NoFewer(m: ScoreInput, m': ScoreInput) {
    && m.steps <= m'.steps && m.errors <= m'.errors && m.repeats <= m'.repeats
    && PipInstalls(m) <= PipInstalls(m') && Overrides(m) <= Overrides(m')
  }

  /** Raising any counted quantity, and lowering none, strictly lowers the
      score; raising none leaves it unchanged. */
  lemma ScoreMonotone(m: ScoreInput, m': ScoreInput, success: bool)
    requires NoFewer(m, m')
    ensures ScoreRun(m', success) <= ScoreRun(m, success)
    ensures ScoreRun(m', success) == ScoreRun(m, success) <==> NoFewer(m', m)
  {
    ScoreIsLinear(m, success);
    ScoreIsLinear(m', success);
  }

  /** A missing `pip_install` count and a missing `guardrail_overrides` key
      score as a recorded 0. */
  lemma ScoreMissingAsZero(m: ScoreInput, success: bool)
    requires !HasKey(m.toolCounts, PIP) && m.guardrailOverrides.None?
    ensures ScoreRun(m, success) == ScoreRun(m.(toolCounts := [(PIP, 0)], guardrailOverrides := Some(0)), success)
  {
    GetCons((PIP, 0), [], PIP);
  }

  /** The score of a recorded history: at most 130 less 3 per step, and no
      less than 70 less 30 per step, since errors, repeats and
      `pip_install` calls are each at most one per step and
      `compute_metrics` records no overrides. */
  lemma ScoreOfHistoryBounds(history: seq<Entry>, success: bool)
    ensures var m := Metrics(|history|, Counter(history, |history|),
      Errors(history, |history|), Repeats(history, |history|), 0);
      var n := |history| as real;
      && ScoreRun(OfMetrics(m), success) <= (if success then 130.0 else 70.0) - 3.0 * n
      && ScoreRun(OfMetrics(m), success) >= (if success then 130.0 else 70.0) - 30.0 * n
  {
    var m := Metrics(|history|, Counter(history, |history|),
      Errors(history, |history|), Repeats(history, |history|), 0);
    MetricsFacts(history);
    CountOfStr(m.toolCounts, "pip_install");
    assert Count(m.toolCounts, PIP) == NameCount(history, |history|, PIP);
    ScoreIsLinear(OfMetrics(m), success);
  }
}
