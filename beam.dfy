/** The deterministic parts of beam search: scoring a gap report, pulling
    the array out of a noisy model reply, splitting it into top-level
    objects, the brace repair, and the filter over proposed candidates. */
module Beam {
  import opened Wrappers
  import opened Dicts
  import opened Values
  import opened Strings
  import opened Workspaces
  import opened TaskSpecs
  import opened ToolSchema
  import opened Verifier
  import opened Normalize

  // ---------------------------------------------------------------- scoring

  /** `score_by_gaps(gaps)`: 5 per missing file, 3 per CSV path with missing
      columns, 2 per CSV path short of rows (paths are counted, not
      columns), 1 for a stdout error. */
  function ScoreByGaps(g: GapReport): int {
    -(5 * |g.missingFiles| + 3 * |g.csvMissingColumns| + 2 * |g.csvRowsNeeded| + (if g.stdoutError.Some? then 1 else 0))
  }

  /** The score is never positive, and it is 0 exactly when the report is
      empty. */
  lemma ScoreByGapsBounds(g: GapReport)
    ensures ScoreByGaps(g) <= 0
    ensures ScoreByGaps(g) == 0 <==> NoArtifactGaps(g) && g.stdoutError.None?
  {
  }

  /** A full gap report scores 0 exactly when `verify` passes. */
  lemma ScoreZeroIffVerified(spec: TaskSpec, last: Option<ToolResult>, ws: Workspace, isFloat: FloatSyntax)
    ensures ScoreByGaps(FullGaps(spec, last, ws, isFloat)) == 0
      <==> VerifySpec(spec, last, ws, isFloat).Returned? && VerifySpec(spec, last, ws, isFloat).value.ok
  {
    FullGapsEmptyIff(spec, last, ws, isFloat);
  }

  /** An artifact-only gap report scores 0 exactly when the artifact checks
      of `verify` pass. */
  lemma ScoreZeroIffArtifacts(spec: TaskSpec, ws: Workspace)
    ensures ScoreByGaps(ArtifactGaps(spec, ws)) == 0 <==> ArtifactsHold(spec, ws)
  {
    ArtifactGapsEmptyIff(spec, ws);
  }

  /** The lowest score a report about `spec` can have: every constraint
      failing, and the stdout too. */
  function GapWeight(spec: TaskSpec): int {
    5 * |spec.requiredFiles| + 3 * |spec.csvRequiredColumns| + 2 * |spec.csvMinRows| + 1
  }

  /** A full gap report never scores below the spec's weight: each gap list
      keeps a sub-list of the spec's constraints. */
  lemma ScoreByGapsFloor(spec: TaskSpec, last: Option<ToolResult>, ws: Workspace, isFloat: FloatSyntax)
    ensures ScoreByGaps(FullGaps(spec, last, ws, isFloat)) >= -GapWeight(spec)
  {
    MissingFilesLength(spec.requiredFiles, ws);
    ColumnGapsLength(spec.csvRequiredColumns, ws);
    RowGapsLength(spec.csvMinRows, ws);
  }

  lemma {:induction false} MissingFilesLength(files: seq<string>, ws: Workspace)
    ensures |MissingFiles(files, ws)| <= |files|
  {
    if files != [] {
      MissingFilesLength(files[1..], ws);
    }
  }

  lemma {:induction false} ColumnGapsLength(cols: Dict<string, seq<string>>, ws: Workspace)
    ensures |ColumnGaps(cols, ws)| <= |cols|
  {
    if cols != [] {
      ColumnGapsLength(cols[1..], ws);
    }
  }

  lemma {:induction false} RowGapsLength(rows: Dict<string, int>, ws: Workspace)
    ensures |RowGaps(rows, ws)| <= |rows|
  {
    if rows != [] {
      RowGapsLength(rows[1..], ws);
    }
  }

  // ------------------------------------------------------ array extraction

  const NO_ARRAY: Exception := ValueError("No JSON array delimiters found")

  /** `_extract_first_json_array(text)`: after the markdown fences are
      removed (the parameter `stripFences`), the text from the first '['
      to the last ']', both included. */
  function ExtractFirstJsonArray(text: string, stripFences: string -> string): Raising<string> {
    var t := stripFences(text);
    var start := Find(t, '[');
    var end := RFind(t, ']');
    if start == -1 || end == -1 || end < start then Raised(NO_ARRAY)
    else Returned(t[start..end + 1])
  }

  /** Some '[' stands before some ']'. */
  predicate HasBracketPair(t: string) {
    exists i, j | 0 <= i < j < |t| :: t[i] == '[' && t[j] == ']'
  }

  /** Extraction succeeds exactly when some '[' precedes some ']'. It then
      returns the slice from the first '[' through the last ']', so nothing
      before it is a '[' and nothing after it is a ']'. */
  lemma ExtractFirstJsonArrayIff(text: string, stripFences: string -> string)
    ensures var t := stripFences(text);
      ExtractFirstJsonArray(text, stripFences).Returned? <==> HasBracketPair(t)
    ensures var t := stripFences(text);
      var r := ExtractFirstJsonArray(text, stripFences);
      r.Raised? ==> r.exc == NO_ARRAY
    ensures var t := stripFences(text);
      var r := ExtractFirstJsonArray(text, stripFences);
      r.Returned? ==> exists i, j | 0 <= i < j < |t| ::
        && r.value == t[i..j + 1] && t[i] == '[' && t[j] == ']'
        && '[' !in t[..i] && ']' !in t[j + 1..]
  {
    var t := stripFences(text);
    var start := Find(t, '[');
    var end := RFind(t, ']');
    if HasBracketPair(t) {
      var i, j :| 0 <= i < j < |t| && t[i] == '[' && t[j] == ']';
      FindAtMost(t, '[', i);
      RFindAtLeast(t, ']', j);
    }
    if start != -1 && end != -1 && start <= end {
      assert t[start] == '[' && t[end] == ']';
    }
  }

  /** `find` returns a position no later than any occurrence. */
  lemma {:induction false} FindAtMost(s: string, c: char, i: nat)
    requires i < |s| && s[i] == c
    ensures 0 <= Find(s, c) <= i
    decreases |s|
  {
    if s[0] != c {
      assert s[1..][i - 1] == s[i];
      FindAtMost(s[1..], c, i - 1);
    }
  }

  /** `rfind` returns a position no earlier than any occurrence. */
  lemma {:induction false} RFindAtLeast(s: string, c: char, j: nat)
    requires j < |s| && s[j] == c
    ensures j <= RFind(s, c)
    decreases |s|
  {
    if s[|s| - 1] != c {
      assert s[..|s| - 1][j] == s[j];
      RFindAtLeast(s[..|s| - 1], c, j);
    }
  }

  // ---------------------------------------------------- top-level objects

  /** The count of '{' less the count of '}'. */
  function Depth(s: string): int {
    CountChar(s, '{') - CountChar(s, '}')
  }

  lemma DepthSnoc(s: string, c: char)
    ensures Depth(s + [c]) == Depth(s) + (if c == '{' then 1 else if c == '}' then -1 else 0)
  {
    CountCharAppend(s, [c], '{');
    CountCharAppend(s, [c], '}');
    assert [c][..0] == [];
  }

  /** `t` opens an object that is still open: it starts with '{' and
      every non-empty prefix has more '{' than '}'. */
  ghost predicate Opened(t: string) {
    |t| >= 1 && t[0] == '{' && forall m | 1 <= m <= |t| :: Depth(t[..m]) > 0
  }

  /** `o` is one whole object: it starts with '{', ends with '}', has as
      many '{' as '}', and closes nowhere before its end. */
  ghost predicate WholeObject(o: string) {
    && |o| >= 2 && o[0] == '{' && o[|o| - 1] == '}' && Depth(o) == 0
    && forall m | 1 <= m < |o| :: Depth(o[..m]) > 0
  }

  /** Where the text after the last object starts. */
  function EndOfLast(spans: seq<(nat, nat)>): nat {
    if spans == [] then 0 else spans[|spans| - 1].1
  }

  /** Where the gap before object `k` starts. */
  function GapStart(spans: seq<(nat, nat)>, k: nat): nat
    requires k < |spans|
  {
    if k == 0 then 0 else spans[k - 1].1
  }

  /** Object `k` sits at `spans[k]` of `s`, after the previous one, and is
      a whole object, with no '{' in the text between the two. */
  ghost predicate Placed(s: string, objects: seq<string>, spans: seq<(nat, nat)>, k: nat)
    requires k < |spans| == |objects|
  {
    && GapStart(spans, k) <= spans[k].0 < spans[k].1 <= |s|
    && objects[k] == s[spans[k].0..spans[k].1]
    && WholeObject(objects[k])
    && '{' !in s[GapStart(spans, k)..spans[k].0]
  }

  /** The objects sit at `spans` of `s`, in order and without overlap, each
      a whole object, with no '{' in the text before or between them. */
  ghost predicate Laid(s: string, objects: seq<string>, spans: seq<(nat, nat)>) {
    |spans| == |objects| && forall k | 0 <= k < |spans| :: Placed(s, objects, spans, k)
  }

  /** The scan's state after the first `i` characters of `s`: the objects
      found so far are laid out; at depth 0 no '{' followed the last one;
      inside an object, `current` is the text from its '{' (at `start`) on. */
  ghost predicate Scanned(s: string, i: nat, objects: seq<string>, spans: seq<(nat, nat)>,
    depth: int, current: string, start: nat)
  {
    && i <= |s| && depth >= 0 && Laid(s, objects, spans) && EndOfLast(spans) <= i
    && (depth == 0 ==> '{' !in s[EndOfLast(spans)..i])
    && (depth > 0 ==> (EndOfLast(spans) <= start < i
        && '{' !in s[EndOfLast(spans)..start]
        && current == s[start..i] && Opened(current) && Depth(current) == depth))
  }

  /** `_split_top_level_objects(arr_txt)`: the text of each top-level object,
      in input order. Everything outside the objects is ignored, and an
      object still open at the end of the text is dropped. The spans where
      the objects sit are returned alongside. */
  method SplitTopLevelObjects(arrTxt: string) returns (objects: seq<string>, ghost spans: seq<(nat, nat)>)
    ensures Laid(arrTxt, objects, spans)
    ensures EndOfLast(spans) <= |arrTxt|
    ensures var tail := EndOfLast(spans);
      '{' !in arrTxt[tail..]
      || exists p | tail <= p < |arrTxt| :: '{' !in arrTxt[tail..p] && Opened(arrTxt[p..])
  {
    objects := [];
    spans := [];
    var depth := 0;
    var current: string := [];
    ghost var start: nat := 0;
    for i := 0 to |arrTxt|
      invariant Scanned(arrTxt, i, objects, spans, depth, current, start)
    {
      var ch := arrTxt[i];
      if ch == '{' && depth == 0 {
        ScanOpens(arrTxt, i, objects, spans, current, start);
        current := ['{'];
        depth := 1;
        start := i;
        continue;
      }
      if depth != 0 {
        var depth' := depth;
        if ch == '{' {
          depth' := depth + 1;
        } else if ch == '}' {
          depth' := depth - 1;
        }
        if depth' > 0 {
          ScanInside(arrTxt, i, objects, spans, depth, current, start, depth');
        } else {
          ScanCloses(arrTxt, i, objects, spans, depth, current, start);
          objects := objects + [current + [ch]];
          spans := spans + [(start, i + 1)];
        }
        current := current + [ch];
        depth := depth';
      } else {
        ScanOutside(arrTxt, i, objects, spans, current, start);
      }
    }
    if depth > 0 {
      assert arrTxt[start..] == current;
    }
  }

  /** A '{' at depth 0 opens an object. */
  lemma ScanOpens(s: string, i: nat, objects: seq<string>, spans: seq<(nat, nat)>, current: string, start: nat)
    requires i < |s| && s[i] == '{' && Scanned(s, i, objects, spans, 0, current, start)
    ensures Scanned(s, i + 1, objects, spans, 1, ['{'], i)
  {
    assert s[i..i + 1] == ['{'];
    assert ['{'][..1] == ['{'];
    DepthSnoc([], '{');
    assert [] + ['{'] == ['{'];
  }

  /** Any other character at depth 0 is skipped. */
  lemma ScanOutside(s: string, i: nat, objects: seq<string>, spans: seq<(nat, nat)>, current: string, start: nat)
    requires i < |s| && s[i] != '{' && Scanned(s, i, objects, spans, 0, current, start)
    ensures Scanned(s, i + 1, objects, spans, 0, current + [s[i]], start)
  {
    var last := EndOfLast(spans);
    assert s[last..i + 1] == s[last..i] + [s[i]];
  }

  /** Inside an object, a character that leaves depth over is taken in. */
  lemma ScanInside(s: string, i: nat, objects: seq<string>, spans: seq<(nat, nat)>,
    depth: int, current: string, start: nat, depth': int)
    requires i < |s| && depth > 0 && Scanned(s, i, objects, spans, depth, current, start)
    requires depth' == depth + (if s[i] == '{' then 1 else if s[i] == '}' then -1 else 0) && depth' > 0
    ensures Scanned(s, i + 1, objects, spans, depth', current + [s[i]], start)
  {
    assert s[start..i + 1] == current + [s[i]];
    DepthSnoc(current, s[i]);
    OpenedSnoc(current, s[i]);
  }

  /** Inside an object, the '}' that reaches depth 0 closes it. */
  lemma ScanCloses(s: string, i: nat, objects: seq<string>, spans: seq<(nat, nat)>,
    depth: int, current: string, start: nat)
    requires i < |s| && depth > 0 && Scanned(s, i, objects, spans, depth, current, start)
    requires depth + (if s[i] == '{' then 1 else if s[i] == '}' then -1 else 0) <= 0
    ensures Scanned(s, i + 1, objects + [current + [s[i]]], spans + [(start, i + 1)], 0, current + [s[i]], start)
  {
    assert s[start..i + 1] == current + [s[i]];
    DepthSnoc(current, s[i]);
    ClosedSnoc(current, s[i]);
    LaidSnoc(s, objects, spans, current + [s[i]], start, i + 1);
    assert s[i + 1..i + 1] == [];
  }

  /** An open object that takes one more character with depth left over
      is still open. */
  lemma OpenedSnoc(t: string, c: char)
    requires Opened(t) && Depth(t + [c]) > 0
    ensures Opened(t + [c])
  {
    forall m | 1 <= m <= |t|
      ensures Depth((t + [c])[..m]) > 0
    {
      assert (t + [c])[..m] == t[..m];
    }
    assert (t + [c])[..|t| + 1] == t + [c];
  }

  /** An open object that takes one more character and reaches depth 0
      is a whole object. */
  lemma ClosedSnoc(t: string, c: char)
    requires Opened(t) && Depth(t + [c]) <= 0
    ensures WholeObject(t + [c])
  {
    DepthSnoc(t, c);
    assert t[..|t|] == t;
    var o := t + [c];
    forall m | 1 <= m < |o|
      ensures Depth(o[..m]) > 0
    {
      assert o[..m] == t[..m];
    }
  }

  /** A whole object joins the layout at the end. */
  lemma LaidSnoc(s: string, objects: seq<string>, spans: seq<(nat, nat)>, o: string, st: nat, en: nat)
    requires Laid(s, objects, spans) && en <= |s|
    requires EndOfLast(spans) <= st < en && o == s[st..en] && '{' !in s[EndOfLast(spans)..st]
    requires WholeObject(o)
    ensures Laid(s, objects + [o], spans + [(st, en)])
  {
    var objects', spans' := objects + [o], spans + [(st, en)];
    forall k | 0 <= k < |spans'|
      ensures Placed(s, objects', spans', k)
    {
      if k < |spans| {
        assert spans'[k] == spans[k] && objects'[k] == objects[k];
        assert GapStart(spans', k) == GapStart(spans, k);
        assert Placed(s, objects, spans, k);
      } else {
        assert GapStart(spans', k) == EndOfLast(spans);
      }
    }
  }

  // --------------------------------------------------------- brace repair

  /** The brace repair of `_clean_object`: one '}' is appended when the
      text has more '{' than '}'. */
  function FixBraces(txt: string): string {
    if CountChar(txt, '{') > CountChar(txt, '}') then txt + "}" else txt
  }

  /** The repair adds exactly one '}' and nothing else when '{' outnumber
      '}', and changes nothing otherwise; an object one brace short comes
      out balanced. */
  lemma FixBracesFacts(txt: string)
    ensures Depth(txt) > 0 ==> FixBraces(txt) == txt + "}" && Depth(FixBraces(txt)) == Depth(txt) - 1
    ensures Depth(txt) <= 0 ==> FixBraces(txt) == txt
    ensures Depth(txt) == 1 ==> Depth(FixBraces(txt)) == 0
  {
    DepthSnoc(txt, '}');
  }

  /** `_clean_object(txt)`: the brace repair, then the quote escaping of
      `"command"` values (the parameter `escapeQuotes`). */
  function CleanObject(txt: string, escapeQuotes: string -> string): string {
    escapeQuotes(FixBraces(txt))
  }

  // ------------------------------------------------------ candidate filter

  /** A normalised entry is kept when it names an allowed tool and carries
      dict arguments; only a call shape can qualify. */
  predicate Keeps(e: Value) {
    e.Object? && Get(e.fields, "name").Some? && Get(e.fields, "name").value.Str?
    && Get(e.fields, "name").value.s in ALLOWED
    && Get(e.fields, "args").Some? && Get(e.fields, "args").value.Object?
  }

  /** The kept entries among the first `n` proposals: non-dicts are skipped,
      dicts are normalised, and normalising can raise. */
  function Kept(arr: seq<Value>, n: nat): Raising<seq<Value>>
    requires n <= |arr|
  {
    if n == 0 then Returned([])
    else
      match Kept(arr, n - 1)
      case Raised(e) => Raised(e)
      case Returned(out) =>
        if !arr[n - 1].Object? then Returned(out)
        else
          match NormalizeCall(arr[n - 1])
          case Raised(e) => Raised(e)
          case Returned(e) => Returned(if Keeps(e) then out + [e] else out)
  }

  /** Python's `xs[:k]`: a negative `k` drops `-k` elements from the end. */
  function PyTake<T>(xs: seq<T>, k: int): (r: seq<T>)
    ensures |r| <= |xs| && r == xs[..|r|]
    ensures k >= 0 ==> |r| == if k < |xs| then k else |xs|
    ensures k < 0 ==> |r| == if -k < |xs| then |xs| + k else 0
  {
    if k >= 0 then (if k < |xs| then xs[..k] else xs)
    else if -k < |xs| then xs[..|xs| + k] else []
  }

  /** The post-processing of `propose_candidates`: a non-list proposal
      yields no candidates; otherwise the kept entries, capped by `out[:k]`. */
  method FilterCandidates(arr: Value, k: int) returns (r: Raising<seq<Value>>)
    ensures !arr.List? ==> r == Returned([])
    ensures arr.List? ==> match Kept(arr.items, |arr.items|)
      case Raised(e) => r == Raised(e)
      case Returned(out) => r == Returned(PyTake(out, k))
  {
    var out: seq<Value> := [];
    if arr.List? {
      var items := arr.items;
      for i := 0 to |items|
        invariant Kept(items, i) == Returned(out)
      {
        var entry := items[i];
        if !entry.Object? {
          continue;
        }
        var n := NormalizeCall(entry);
        if n.Raised? {
          KeptStaysRaised(items, i + 1, |items|);
          return Raised(n.exc);
        }
        if Keeps(n.value) {
          out := out + [n.value];
        }
      }
    }
    r := Returned(PyTake(out, k));
  }

  lemma {:induction false} KeptStaysRaised(arr: seq<Value>, i: nat, n: nat)
    requires i <= n <= |arr| && Kept(arr, i).Raised?
    ensures Kept(arr, n) == Kept(arr, i)
    decreases n
  {
    if n > i {
      KeptStaysRaised(arr, i, n - 1);
    }
  }

  /** `j` proposals in, at positions `pos`: increasing, each a dict whose
      normal form is the kept entry. */
  ghost predicate KeptFrom(arr: seq<Value>, n: nat, out: seq<Value>, pos: seq<nat>)
    requires n <= |arr|
  {
    && |pos| == |out|
    && (forall j | 0 <= j < |pos| :: pos[j] < n && arr[pos[j]].Object?
          && NormalizeCall(arr[pos[j]]) == Returned(out[j]))
    && (forall j, j' | 0 <= j < j' < |pos| :: pos[j] < pos[j'])
  }

  /** A normal form passes the filter exactly when it is a call naming an
      allowed tool. */
  lemma KeepsCallShape(e: Value)
    requires e == EMPTY || IsCallShape(e)
    ensures Keeps(e) <==> IsCallShape(e) && e.fields[0].1.s in ALLOWED
  {
    if IsCallShape(e) {
      GetCons(e.fields[0], e.fields[1..], "name");
      GetCons(e.fields[0], e.fields[1..], "args");
      GetCons(e.fields[1], [], "args");
      assert e.fields == [e.fields[0]] + ([e.fields[1]] + []);
    }
  }

  /** Every kept candidate is a `{"name", "args"}` call naming an allowed
      tool. */
  lemma {:induction false} KeptAreAllowedCalls(arr: seq<Value>, n: nat)
    requires n <= |arr| && Kept(arr, n).Returned?
    ensures forall j | 0 <= j < |Kept(arr, n).value| ::
      var e := Kept(arr, n).value[j];
      IsCallShape(e) && e.fields[0].1.s in ALLOWED
  {
    if n > 0 {
      KeptAreAllowedCalls(arr, n - 1);
      if arr[n - 1].Object? {
        var e := NormalizeCall(arr[n - 1]).value;
        KeepsCallShape(e);
      }
    }
  }

  /** Taking one more normal form keeps the positions in order. */
  lemma KeptFromSnoc(arr: seq<Value>, n: nat, out: seq<Value>, pos: seq<nat>, e: Value)
    requires 0 < n <= |arr| && KeptFrom(arr, n - 1, out, pos)
    requires arr[n - 1].Object? && NormalizeCall(arr[n - 1]) == Returned(e)
    ensures KeptFrom(arr, n, out + [e], pos + [n - 1])
  {
  }

  /** The candidates are the normal forms of proposals taken in proposal
      order. */
  lemma {:induction false} KeptInOrder(arr: seq<Value>, n: nat)
    requires n <= |arr| && Kept(arr, n).Returned?
    ensures exists pos: seq<nat> :: KeptFrom(arr, n, Kept(arr, n).value, pos)
  {
    if n == 0 {
      assert KeptFrom(arr, 0, [], []);
    } else {
      KeptInOrder(arr, n - 1);
      var out := Kept(arr, n - 1).value;
      var pos: seq<nat> :| KeptFrom(arr, n - 1, out, pos);
      assert KeptFrom(arr, n, out, pos);
      if arr[n - 1].Object? {
        var e := NormalizeCall(arr[n - 1]).value;
        KeptFromSnoc(arr, n, out, pos, e);
      }
    }
  }

  /** The candidates: at most `k` (for `k >= 0`), each an allowed call, a
      prefix of the kept entries in proposal order. */
  lemma CandidatesFacts(arr: seq<Value>, k: int)
    requires Kept(arr, |arr|).Returned?
    ensures var c := PyTake(Kept(arr, |arr|).value, k);
      && (k >= 0 ==> |c| <= k)
      && c == Kept(arr, |arr|).value[..|c|]
      && forall j | 0 <= j < |c| :: IsCallShape(c[j]) && c[j].fields[0].1.s in ALLOWED
  {
    KeptAreAllowedCalls(arr, |arr|);
  }
}
