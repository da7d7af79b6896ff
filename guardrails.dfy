/** The anti-stuck guardrails: a repeat counter over action signatures and
    two override rules (create a missing file; break a repeated shell
    command). */
module Guardrails {
  import opened Wrappers
  import opened Strings
  import opened Dicts
  import opened Values
  import opened ToolSchema

  /** An action's signature `f"{name}:{args}"`. Two actions have the same
      signature exactly when they have the same name and the same argument
      dict (in the same key order), so the call itself stands for it. */
  type Signature = ToolCall

  /** How many tracks immediately before the last one carried the same
      signature as the last. */
  function RunLength<T(==)>(s: seq<T>): nat
    decreases |s|
  {
    if |s| <= 1 then 0
    else if s[|s| - 1] == s[|s| - 2] then 1 + RunLength(s[..|s| - 1])
    else 0
  }

  /** A run never exceeds the number of tracks before the last. */
  lemma {:induction false} RunLengthBound<T>(s: seq<T>)
    ensures |s| > 0 ==> RunLength(s) <= |s| - 1
    decreases |s|
  {
    if |s| > 1 && s[|s| - 1] == s[|s| - 2] {
      RunLengthBound(s[..|s| - 1]);
    }
  }

  /** The last `RunLength(s) + 1` signatures are all equal. */
  lemma {:induction false} RunLengthRun<T>(s: seq<T>)
    requires |s| > 0
    ensures RunLength(s) <= |s| - 1
    ensures forall k | |s| - 1 - RunLength(s) <= k < |s| :: s[k] == s[|s| - 1]
    ensures RunLength(s) < |s| - 1 ==> s[|s| - 2 - RunLength(s)] != s[|s| - 1]
    decreases |s|
  {
    RunLengthBound(s);
    if |s| > 1 && s[|s| - 1] == s[|s| - 2] {
      var t := s[..|s| - 1];
      RunLengthRun(t);
      assert forall k | 0 <= k < |t| :: t[k] == s[k];
    }
  }

  /** One more track extends the run exactly when it repeats the last. */
  lemma RunLengthSnoc<T>(s: seq<T>, x: T)
    ensures RunLength(s + [x]) == if s != [] && s[|s| - 1] == x then RunLength(s) + 1 else 0
  {
    assert (s + [x])[..|s|] == s;
  }

  const SAMPLE_CONTENT: string := "__LLM_GENERATE_SAMPLE__"

  /** `file_write(path, "__LLM_GENERATE_SAMPLE__")` */
  function WriteSample(path: string): ToolCall {
    ToolCall(FileWrite, [("path", Str(path)), ("content", Str(SAMPLE_CONTENT))])
  }

  /** Text between a pair of single quotes, with no quote inside and at
      least one character. */
  predicate QuotedAt(s: string, i: nat, t: string) {
    t != [] && '\'' !in t && OccursAt(s, "'" + t + "'", i)
  }

  /** Quoted text at `i`, and none starting further left. */
  ghost predicate LeftmostQuoted(s: string, i: nat, t: string) {
    QuotedAt(s, i, t) && forall j: nat, u | j < i :: !QuotedAt(s, j, u)
  }

  /** `re.search(r"'([^']+)'", s).group(1)`: the leftmost quoted text. */
  function FirstQuoted(s: string): (r: Option<string>)
    ensures r.Some? ==> exists i: nat :: LeftmostQuoted(s, i, r.value)
    ensures r.None? ==> forall i: nat, t :: !QuotedAt(s, i, t)
    decreases |s|
  {
    var p := Find(s, '\'');
    if p == -1 then
      NoQuoteNoMatch(s);
      None
    else
      var rest := s[p + 1..];
      var q := Find(rest, '\'');
      if q == -1 then
        OneQuoteNoMatch(s, p);
        None
      else if q == 0 then
        var r := FirstQuoted(rest);
        ShiftQuoted(s, p, rest, r);
        r
      else
        var t := rest[..q];
        assert OccursAt(s, "'" + t + "'", p) by {
          assert s[p..p + q + 2] == "'" + t + "'";
        }
        assert QuotedAt(s, p, t);
        NoQuoteBefore(s, p);
        assert LeftmostQuoted(s, p, t);
        Some(t)
  }

  lemma QuotedAtEnds(s: string, i: nat, t: string)
    ensures QuotedAt(s, i, t) ==>
      i + |t| + 2 <= |s| && s[i] == '\'' && s[i + |t| + 1] == '\'' && s[i + 1] == t[0]
  {
    if QuotedAt(s, i, t) {
      var w := "'" + t + "'";
      var u := s[i..i + |w|];
      assert u == w;
      assert w[0] == '\'' && w[|w| - 1] == '\'' && w[1] == t[0];
      assert u[0] == s[i] && u[|w| - 1] == s[i + |t| + 1] && u[1] == s[i + 1];
    }
  }

  lemma NoQuoteNoMatch(s: string)
    requires '\'' !in s
    ensures forall i: nat, t :: !QuotedAt(s, i, t)
  {
    forall i: nat, t ensures !QuotedAt(s, i, t) {
      QuotedAtEnds(s, i, t);
    }
  }

  lemma OneQuoteNoMatch(s: string, p: nat)
    requires p < |s| && s[p] == '\'' && '\'' !in s[..p] && '\'' !in s[p + 1..]
    ensures forall i: nat, t :: !QuotedAt(s, i, t)
  {
    assert forall k | 0 <= k < p :: s[k] == s[..p][k];
    assert forall k | p < k < |s| :: s[k] == s[p + 1..][k - p - 1];
    forall i: nat, t ensures !QuotedAt(s, i, t) {
      QuotedAtEnds(s, i, t);
    }
  }

  lemma QuotedShift(s: string, p: nat, rest: string, i: nat, t: string)
    requires p < i && p + 1 <= |s| && rest == s[p + 1..]
    ensures QuotedAt(s, i, t) <==> QuotedAt(rest, i - p - 1, t)
  {
    if i + |t| + 2 <= |s| {
      assert rest[i - p - 1..i - p - 1 + |t| + 2] == s[i..i + |t| + 2];
    }
  }

  /** No quoted text starts before the first quote. */
  lemma NoQuoteBefore(s: string, p: nat)
    requires p <= |s| && '\'' !in s[..p]
    ensures forall j: nat, u | j < p :: !QuotedAt(s, j, u)
  {
    assert forall k | 0 <= k < p :: s[k] == s[..p][k];
    forall j: nat, u | j < p ensures !QuotedAt(s, j, u) {
      QuotedAtEnds(s, j, u);
    }
  }

  lemma ShiftQuoted(s: string, p: nat, rest: string, r: Option<string>)
    requires p + 1 < |s| && s[p] == '\'' && s[p + 1] == '\'' && '\'' !in s[..p] && rest == s[p + 1..]
    requires r.Some? ==> exists i: nat :: LeftmostQuoted(rest, i, r.value)
    requires r.None? ==> forall i: nat, t :: !QuotedAt(rest, i, t)
    ensures r.Some? ==> exists i: nat :: LeftmostQuoted(s, i, r.value)
    ensures r.None? ==> forall i: nat, t :: !QuotedAt(s, i, t)
  {
    if r.Some? {
      var i: nat :| LeftmostQuoted(rest, i, r.value);
      QuotedShift(s, p, rest, p + 1 + i, r.value);
      NoQuoteBefore(s, p);
      forall j: nat, u | j < p + 1 + i ensures !QuotedAt(s, j, u) {
        QuotedAtEnds(s, j, u);
        if j > p {
          QuotedShift(s, p, rest, j, u);
        }
      }
      assert LeftmostQuoted(s, p + 1 + i, r.value);
    } else {
      assert forall k | 0 <= k < p :: s[k] == s[..p][k];
      forall i: nat, t ensures !QuotedAt(s, i, t) {
        QuotedAtEnds(s, i, t);
        if i > p {
          QuotedShift(s, p, rest, i, t);
        }
      }
    }
  }

  /** `_infer_missing_path(err)` */
  function InferMissingPath(err: string): string {
    FirstQuoted(err).GetOr("unknown_file.txt")
  }

  /** The error text of a result that names a missing file. */
  predicate MissingFileError(last: Option<ToolResult>) {
    last.Some? && last.value.error.Some? && last.value.error.value != []
    && Contains(Lower(last.value.error.value), "no such file or directory")
  }

  /** `intervene(action, last_result, observation)` with the counter at
      `repeatCount`. `pathOfCommand` is the regex search for a file name in a
      shell command; the observation text is not consulted. */
  function Override(repeatCount: nat, action: ToolCall, last: Option<ToolResult>, pathOfCommand: ToolCall -> Option<string>)
    : Option<ToolCall>
  {
    if MissingFileError(last) then Some(WriteSample(InferMissingPath(Lower(last.value.error.value))))
    else if repeatCount >= 2 && action.name == ShellExec then Some(WriteSample(pathOfCommand(action).GetOr("generated_file.txt")))
    else None
  }

  /** A missing-file error always gets the sample write of the path it
      names; otherwise a shell command is overridden exactly from the
      second repeat on; and an override is always a sample write. */
  lemma OverrideFacts(repeatCount: nat, action: ToolCall, last: Option<ToolResult>, pathOfCommand: ToolCall -> Option<string>)
    ensures var r := Override(repeatCount, action, last, pathOfCommand);
      && (MissingFileError(last) ==> r == Some(WriteSample(InferMissingPath(Lower(last.value.error.value)))))
      && (!MissingFileError(last) ==> (r.Some? <==> repeatCount >= 2 && action.name == ShellExec))
      && (r.Some? ==> r.value.name == FileWrite && Get(r.value.args, "content") == Some(Str(SAMPLE_CONTENT)))
  {
    var r := Override(repeatCount, action, last, pathOfCommand);
    if r.Some? {
      assert IndexOf(r.value.args, "content") == 1;
    }
  }

  class Guardrails {
    var lastActionSig: Option<Signature>
    var repeatCount: nat
    /** Every signature tracked so far, oldest first. */
    ghost var tracked: seq<Signature>

    ghost predicate Valid()
      reads this
    {
      && (tracked == [] <==> lastActionSig.None?)
      && (tracked != [] ==> lastActionSig == Some(tracked[|tracked| - 1]))
      && repeatCount == RunLength(tracked)
    }

    constructor()
      ensures Valid() && lastActionSig.None? && repeatCount == 0 && tracked == []
    {
      lastActionSig := None;
      repeatCount := 0;
      tracked := [];
    }

    /** `track(action)` */
    method Track(action: ToolCall)
      requires Valid()
      modifies this
      ensures Valid() && tracked == old(tracked) + [action]
      ensures lastActionSig == Some(action)
      ensures repeatCount == if old(lastActionSig) == Some(action) then old(repeatCount) + 1 else 0
    {
      tracked := tracked + [action];
      if Some(action) == lastActionSig {
        assert tracked[..|tracked| - 1] == old(tracked);
        repeatCount := repeatCount + 1;
      } else {
        lastActionSig := Some(action);
        repeatCount := 0;
      }
    }

    /** `intervene(action, last_result, observation)` on this counter. */
    function Intervene(action: ToolCall, last: Option<ToolResult>, pathOfCommand: ToolCall -> Option<string>): (r: Option<ToolCall>)
      reads this
      ensures r == Override(repeatCount, action, last, pathOfCommand)
    {
      Override(repeatCount, action, last, pathOfCommand)
    }
  }
}
