/** The episode digest handed to the reflection prompt: the last few steps
    of each episode, each cut down to a handful of fields and to 300
    characters of output and error text. */
module Reflection {
  import opened Wrappers
  import opened Dicts
  import opened Values
  import opened Strings

  /** The default number of steps kept per episode. */
  const DEFAULT_MAX_STEPS: int := 8

  /** How much output or error text survives. */
  const TEXT_LIMIT: nat := 300

  /** `x.get(...)` on something that is not a dict. */
  const NO_GET: Exception := AttributeError("object has no attribute 'get'")

  /** `x[:300]` or `x[-n:]` on something that cannot be sliced. */
  const NO_SLICE: Exception := TypeError("object is not subscriptable")

  /** `(x or "")[:300]`: a falsy value becomes ""; a string or a list keeps
      its first 300 elements; anything else cannot be sliced. */
  function CutText(x: Value): Raising<Value> {
    if !Truthy(x) then Returned(Str(""))
    else
      match x
      case Str(s) => Returned(Str(Take(s, TEXT_LIMIT)))
      case List(items) => Returned(List(if |items| <= TEXT_LIMIT then items else items[..TEXT_LIMIT]))
      case _ => Raised(NO_SLICE)
  }

  /** A recorded step as `_summarize_episodes` reads it: something that
      is not a dict, or the values under `step`, `action` and `result`
      (None where the key is absent). */
  datatype StepIn =
    | StepNotDict(v: Value)
    | StepDict(step: Option<Value>, action: Option<Value>, result: ResultIn)

  /** The value under a step's `result` key: absent (read as `{}`), not a
      dict, or a dict with the values under `name`, `ok`, `output` and
      `error`. */
  datatype ResultIn =
    | NoResult
    | ResultNotDict(v: Value)
    | ResultDict(name: Option<Value>, ok: Option<Value>, output: Option<Value>, error: Option<Value>)

  /** The value under an episode's `history` key: absent (read as `[]`), a
      list of steps, a string, or any other value. */
  datatype HistoryIn =
    | NoHistory
    | HistoryList(steps: seq<StepIn>)
    | HistoryStr(s: string)
    | HistoryOther(v: Value)

  /** An episode: something that is not a dict, or the values under `task`
      and `history`. */
  datatype EpisodeIn =
    | EpisodeNotDict(v: Value)
    | EpisodeDict(task: Option<Value>, history: HistoryIn)

  /** The slim form of one step: `step`, `action` (default `{}`) and the
      result's `name`, `ok`, `output` and `error`; `.get` on a step or a
      result that is not a dict raises. */
  function SlimStep(h: StepIn): Raising<Value> {
    match h
    case StepNotDict(_) => Raised(NO_GET)
    case StepDict(step, action, res) =>
      match res
      case ResultNotDict(_) => Raised(NO_GET)
      case _ =>
        var name := if res.ResultDict? then res.name else None;
        var ok := if res.ResultDict? then res.ok else None;
        var out := if res.ResultDict? then res.output else None;
        var err := if res.ResultDict? then res.error else None;
        match CutText(out.GetOr(Null))
        case Raised(e) => Raised(e)
        case Returned(output) =>
          match CutText(err.GetOr(Null))
          case Raised(e) => Raised(e)
          case Returned(error) =>
            Returned(Object([
              ("step", step.GetOr(Null)),
              ("action", action.GetOr(Object([]))),
              ("result", Object([
                ("name", name.GetOr(Null)),
                ("ok", ok.GetOr(Null)),
                ("output", output),
                ("error", error)]))]))
  }

  /** The inner loop's result over the first `k` steps: their slim forms
      in order, or the exception of the first step that raises. */
  function SlimSteps(hist: seq<StepIn>, k: nat): Raising<seq<Value>>
    requires k <= |hist|
  {
    if k == 0 then Returned([])
    else
      match SlimSteps(hist, k - 1)
      case Raised(e) => Raised(e)
      case Returned(ys) =>
        match SlimStep(hist[k - 1])
        case Raised(e) => Raised(e)
        case Returned(y) => Returned(ys + [y])
  }

  /** Once a step has raised, longer prefixes raise the same. */
  lemma {:induction false} SlimStepsStayRaised(hist: seq<StepIn>, i: nat, k: nat)
    requires i <= k <= |hist| && SlimSteps(hist, i).Raised?
    ensures SlimSteps(hist, k) == SlimSteps(hist, i)
    decreases k
  {
    if k > i {
      SlimStepsStayRaised(hist, i, k - 1);
    }
  }

  /** The steps slim down exactly when each one does, one result per step,
      in order. */
  lemma {:induction false} SlimStepsPointwise(hist: seq<StepIn>, k: nat)
    requires k <= |hist|
    ensures SlimSteps(hist, k).Returned? <==> forall i | 0 <= i < k :: SlimStep(hist[i]).Returned?
    ensures SlimSteps(hist, k).Returned? ==>
      (|SlimSteps(hist, k).value| == k && forall i | 0 <= i < k :: SlimSteps(hist, k).value[i] == SlimStep(hist[i]).value)
  {
    if k > 0 {
      SlimStepsPointwise(hist, k - 1);
    }
  }

  /** Where `xs[-n:]` starts in a sequence of length `len`, by Python's
      slice rules: a negative start counts from the end and is clamped at
      0, a non-negative one is clamped at `len`. */
  function SliceStart(len: nat, n: int): (s: nat)
    ensures s <= len
  {
    var start := -n;
    if start < 0 then (if len + start < 0 then 0 else len + start)
    else if start > len then len
    else start
  }

  /** Iterating a string yields its characters, one-character strings
      that are not dicts. */
  function Chars(s: string): (cs: seq<StepIn>)
    ensures |cs| == |s| && forall i | 0 <= i < |s| :: cs[i] == StepNotDict(Str([s[i]]))
  {
    seq(|s|, i requires 0 <= i < |s| => StepNotDict(Str([s[i]])))
  }

  /** `ep.get("history", [])[-n:]` as the sequence the inner loop walks. */
  function History(h: HistoryIn, n: int): Raising<seq<StepIn>> {
    match h
    case NoHistory => Returned([])
    case HistoryList(steps) => Returned(steps[SliceStart(|steps|, n)..])
    case HistoryStr(s) => Returned(Chars(s[SliceStart(|s|, n)..]))
    case HistoryOther(_) => Raised(NO_SLICE)
  }

  /** The digest of one episode: its task (default "") and its slim steps. */
  function SummarizeEpisode(ep: EpisodeIn, n: int): Raising<Value> {
    match ep
    case EpisodeNotDict(_) => Raised(NO_GET)
    case EpisodeDict(task, history) =>
      match History(history, n)
      case Raised(e) => Raised(e)
      case Returned(hist) =>
        match SlimSteps(hist, |hist|)
        case Raised(e) => Raised(e)
        case Returned(slim) =>
          Returned(Object([("task", task.GetOr(Str(""))), ("history", List(slim))]))
  }

  /** The outer loop's result over the first `k` episodes: their digests
      in order, or the exception of the first episode that raises. */
  function Summaries(episodes: seq<EpisodeIn>, n: int, k: nat): Raising<seq<Value>>
    requires k <= |episodes|
  {
    if k == 0 then Returned([])
    else
      match Summaries(episodes, n, k - 1)
      case Raised(e) => Raised(e)
      case Returned(ys) =>
        match SummarizeEpisode(episodes[k - 1], n)
        case Raised(e) => Raised(e)
        case Returned(y) => Returned(ys + [y])
  }

  /** Once an episode has raised, longer prefixes raise the same. */
  lemma {:induction false} SummariesStayRaised(episodes: seq<EpisodeIn>, n: int, i: nat, k: nat)
    requires i <= k <= |episodes| && Summaries(episodes, n, i).Raised?
    ensures Summaries(episodes, n, k) == Summaries(episodes, n, i)
    decreases k
  {
    if k > i {
      SummariesStayRaised(episodes, n, i, k - 1);
    }
  }

  /** The inner loop of `_summarize_episodes`: the slim form of each step
      of `hist`, appended to `slim` in order. */
  method SlimHistory(hist: seq<StepIn>) returns (r: Raising<seq<Value>>)
    ensures r == SlimSteps(hist, |hist|)
  {
    var slim: seq<Value> := [];
    for j := 0 to |hist|
      invariant SlimSteps(hist, j) == Returned(slim)
    {
      var step := SlimStep(hist[j]);
      if step.Raised? {
        SlimStepsStayRaised(hist, j + 1, |hist|);
        return Raised(step.exc);
      }
      slim := slim + [step.value];
    }
    r := Returned(slim);
  }

  /** One pass of the outer loop of `_summarize_episodes`: slice the
      episode's history, run the inner loop, build the digest. */
  method SummarizeOne(ep: EpisodeIn, maxSteps: int) returns (r: Raising<Value>)
    ensures r == SummarizeEpisode(ep, maxSteps)
  {
    if ep.EpisodeNotDict? {
      return Raised(NO_GET);
    }
    var hist: seq<StepIn>;
    match ep.history {
      case NoHistory =>
        hist := [];
      case HistoryList(steps) =>
        hist := steps[SliceStart(|steps|, maxSteps)..];
      case HistoryStr(s) =>
        hist := Chars(s[SliceStart(|s|, maxSteps)..]);
      case HistoryOther(_) =>
        return Raised(NO_SLICE);
    }
    var slim := SlimHistory(hist);
    if slim.Raised? {
      return Raised(slim.exc);
    }
    r := Returned(Object([("task", ep.task.GetOr(Str(""))), ("history", List(slim.value))]));
  }

  /** `_summarize_episodes(episodes, max_steps_per_episode)`: the outer loop
      appending one digest per episode to `out`. */
  method SummarizeEpisodes(episodes: seq<EpisodeIn>, maxSteps: int) returns (r: Raising<seq<Value>>)
    ensures r == Summaries(episodes, maxSteps, |episodes|)
  {
    var out: seq<Value> := [];
    for i := 0 to |episodes|
      invariant Summaries(episodes, maxSteps, i) == Returned(out)
    {
      var digest := SummarizeOne(episodes[i], maxSteps);
      if digest.Raised? {
        SummariesStayRaised(episodes, maxSteps, i + 1, |episodes|);
        return Raised(digest.exc);
      }
      out := out + [digest.value];
    }
    r := Returned(out);
  }

  /** One digest per episode, in order, when no episode raises. */
  lemma {:induction false} SummariesPerEpisode(episodes: seq<EpisodeIn>, n: int, k: nat)
    requires k <= |episodes|
    ensures Summaries(episodes, n, k).Returned? <==> forall i | 0 <= i < k :: SummarizeEpisode(episodes[i], n).Returned?
    ensures Summaries(episodes, n, k).Returned? ==>
      (|Summaries(episodes, n, k).value| == k
       && forall i | 0 <= i < k :: Summaries(episodes, n, k).value[i] == SummarizeEpisode(episodes[i], n).value)
  {
    if k > 0 {
      SummariesPerEpisode(episodes, n, k - 1);
    }
  }

  /** Otherwise the digest raises what the first failing episode raises. */
  lemma SummariesFirstFailure(episodes: seq<EpisodeIn>, n: int, j: nat)
    requires j < |episodes| && SummarizeEpisode(episodes[j], n).Raised?
    requires forall i | 0 <= i < j :: SummarizeEpisode(episodes[i], n).Returned?
    ensures Summaries(episodes, n, |episodes|) == Raised(SummarizeEpisode(episodes[j], n).exc)
  {
    SummariesPerEpisode(episodes, n, j);
    SummariesStayRaised(episodes, n, j + 1, |episodes|);
  }

  /** The steps a digest keeps from a list history `xs`: the last
      `min(|xs|, n)` for a positive `n`, all of them for `n == 0`, and all
      but the first `-n` for a negative `n`, each in slim form and in
      order. */
  lemma KeepsLastSteps(task: Option<Value>, xs: seq<StepIn>, n: int)
    requires SummarizeEpisode(EpisodeDict(task, HistoryList(xs)), n).Returned?
    ensures var d := SummarizeEpisode(EpisodeDict(task, HistoryList(xs)), n).value;
      var kept := if n > 0 then (if n < |xs| then n else |xs|)
        else if n == 0 then |xs|
        else (if -n < |xs| then |xs| + n else 0);
      && d.Object? && |d.fields| == 2 && d.fields[1].0 == "history" && d.fields[1].1.List?
      && var slim := d.fields[1].1.items;
      && |slim| == kept
      && forall j | 0 <= j < kept :: SlimStep(xs[|xs| - kept + j]) == Returned(slim[j])
  {
    var hist := xs[SliceStart(|xs|, n)..];
    SlimStepsPointwise(hist, |hist|);
  }

  /** The default cap keeps at most 8 steps per episode. */
  lemma DefaultKeepsEight(task: Option<Value>, xs: seq<StepIn>)
    requires SummarizeEpisode(EpisodeDict(task, HistoryList(xs)), DEFAULT_MAX_STEPS).Returned?
    ensures var d := SummarizeEpisode(EpisodeDict(task, HistoryList(xs)), DEFAULT_MAX_STEPS).value;
      d.Object? && |d.fields| == 2 && d.fields[1].0 == "history" && d.fields[1].1.List?
      && |d.fields[1].1.items| <= 8
  {
    KeepsLastSteps(task, xs, DEFAULT_MAX_STEPS);
  }

  /** Cutting text: falsy values become "", strings and lists keep their
      first 300 elements, and only truthy values of other kinds raise. */
  lemma CutTextFacts(x: Value)
    ensures CutText(x).Raised? <==> Truthy(x) && !x.Str? && !x.List?
    ensures !Truthy(x) ==> CutText(x) == Returned(Str(""))
    ensures x.Str? ==> (CutText(x).Returned? && CutText(x).value.Str?
      && |CutText(x).value.s| <= TEXT_LIMIT && x.s[..|CutText(x).value.s|] == CutText(x).value.s
      && (|x.s| <= TEXT_LIMIT ==> CutText(x).value == x))
    ensures x.List? && Truthy(x) ==> (CutText(x).Returned? && CutText(x).value.List?
      && |CutText(x).value.items| <= TEXT_LIMIT && x.items[..|CutText(x).value.items|] == CutText(x).value.items)
  {
    if x.Str? && x.s == [] {
      assert x.s[..0] == [];
    }
  }

  /** A step slims down exactly when it is a dict, its result is absent or
      a dict, and its output and error can each be cut. The slim step holds
      exactly the keys `step`, `action` and `result`, its result exactly
      `name`, `ok`, `output` and `error`; a missing action becomes `{}`, a
      missing output becomes "". */
  lemma SlimStepShape(h: StepIn)
    ensures SlimStep(h).Returned? <==> (h.StepDict? && !h.result.ResultNotDict?
      && (h.result.ResultDict? ==> CutText(h.result.output.GetOr(Null)).Returned? && CutText(h.result.error.GetOr(Null)).Returned?))
    ensures SlimStep(h).Returned? ==> var s := SlimStep(h).value;
      && s.Object? && Keys(s.fields) == ["step", "action", "result"]
      && var res := s.fields[2].1;
      && res.Object? && Keys(res.fields) == ["name", "ok", "output", "error"]
      && (h.action.None? ==> s.fields[1].1 == Object([]))
      && (h.result.NoResult? || h.result.output.None? ==> res.fields[2].1 == Str(""))
  {
  }

  /** A missing task becomes "". */
  lemma MissingTaskIsEmpty(history: HistoryIn, n: int)
    requires SummarizeEpisode(EpisodeDict(None, history), n).Returned?
    ensures SummarizeEpisode(EpisodeDict(None, history), n).value.fields[0] == ("task", Str(""))
  {
  }
}
