/** The day-3 stop criterion: inferred from the task text, and judged on
    each step's tool result, by a file listing where it names a file. */
module Day3Done {
  import opened Wrappers
  import opened Strings
  import opened Values
  import opened Workspaces
  import opened ToolSchema
  import opened Agent
  import opened Day3Text

  /** The default criterion: any non-blank stdout. */
  const ANY_STDOUT: string := ".+"


  /** The stop criterion: a file to list, a number in stdout, or a regex
      over stdout. */
  datatype DoneSpec = DoneSpec(fileExists: Option<string>, stdoutIsNumber: bool, stdoutRegex: Option<string>)

  /** `if done_spec.file_exists:` */
  predicate FileCriterion(ds: DoneSpec) {
    ds.fileExists.Some? && ds.fileExists.value != []
  }

  /** `infer_done_spec(task)` */
  function InferDoneSpec(task: string): DoneSpec {
    var t := Lower(task);
    match SaveAsName(t)
    case Some(f) => DoneSpec(Some(f), false, None)
    case None =>
      if Contains(t, "plot.png") then DoneSpec(Some("plot.png"), false, None)
      else if (Contains(t, "mean") || Contains(t, "average")) && (Contains(t, ".csv") || Contains(t, "data.csv")) then
        DoneSpec(None, true, None)
      else DoneSpec(None, false, Some(ANY_STDOUT))
  }

  /** Mentioning `data.csv` is mentioning `.csv`. */
  lemma DataCsvIsCsv(t: string)
    ensures Contains(t, "data.csv") ==> Contains(t, ".csv")
  {
    if Contains(t, "data.csv") {
      var i :| 0 <= i <= |t| - 8 && OccursAt(t, "data.csv", i);
      assert t[i + 4..i + 8] == t[i..i + 8][4..];
      assert OccursAt(t, ".csv", i + 4);
    }
  }

  /** The rules of `infer_done_spec` in order on the lowered task: a "save
      as" name, else `plot.png`, else a number for a CSV mean or average
      task, else any stdout. Exactly one criterion is set. */
  lemma InferDoneSpecRules(task: string)
    ensures var t := Lower(task); var r := InferDoneSpec(task);
      && (MentionsSaveAs(t) ==> r.fileExists == SaveAsName(t) && r.fileExists.Some?)
      && (!MentionsSaveAs(t) && Contains(t, "plot.png") ==> r.fileExists == Some("plot.png"))
      && (r.stdoutIsNumber <==>
            (!MentionsSaveAs(t) && !Contains(t, "plot.png") && (Contains(t, "mean") || Contains(t, "average")) && Contains(t, ".csv")))
      && (r.stdoutRegex.Some? <==> r.fileExists.None? && !r.stdoutIsNumber)
      && (r.stdoutRegex.Some? ==> r.stdoutRegex.value == ANY_STDOUT)
      && (r.fileExists.Some? ==> FileCriterion(r) && !r.stdoutIsNumber)
  {
    var t := Lower(task);
    SaveAsNameFacts(t);
    DataCsvIsCsv(t);
  }

  /** An inferred file name comes from the lowered task, so it has no
      capital letter, and it is made of path characters. */
  lemma InferredFileName(task: string)
    requires InferDoneSpec(task).fileExists.Some?
    ensures var f := InferDoneSpec(task).fileExists.value;
      f != [] && PathChars(f) && NoUpper(f) && Contains(Lower(task), f)
  {
    var t := Lower(task);
    SaveAsNameFacts(t);
    if SaveAsName(t).None? {
      assert InferDoneSpec(task).fileExists.value == "plot.png";
    }
    LoweredPiece(task, InferDoneSpec(task).fileExists.value);
  }

  /** Why `check_done` decided as it did (its message text is not
      modelled). */
  datatype DoneNote = NumberFound | NotNumeric | RegexMatched | RegexUnmatched | NeedsFileCheck

  /** `re.search(pattern, text) is not None` for a pattern of the criterion. */
  type RegexSearch = (string, string) -> bool

  /** Whether `[-+]?\d+(\.\d+)?` matches somewhere in `s`: exactly when a
      character that `\d` matches occurs, the sign and the fraction being
      optional. */
  predicate HasDigit(s: string) {
    exists k | 0 <= k < |s| :: IsDecimalDigit(s[k])
  }

  /** Whether `.+` matches somewhere in `s`: a character other than a
      newline occurs. */
  predicate HasLineChar(s: string) {
    exists k | 0 <= k < |s| :: s[k] != '\n'
  }

  /** `check_done(done, last_result)` on the stripped output. */
  function CheckDone(ds: DoneSpec, last: ToolResult, search: RegexSearch): (bool, DoneNote) {
    var out := Strip(last.output);
    if ds.stdoutIsNumber then
      if HasDigit(out) then (true, NumberFound) else (false, NotNumeric)
    else if ds.stdoutRegex.Some? && ds.stdoutRegex.value != [] then
      if search(ds.stdoutRegex.value, out) then (true, RegexMatched) else (false, RegexUnmatched)
    else (false, NeedsFileCheck)
  }

  /** The numeric rule wins over the regex, and is met exactly when the
      raw output holds a digit (stripping removes no digit); a criterion
      with neither stdout rule never holds here. */
  lemma CheckDoneRules(ds: DoneSpec, last: ToolResult, search: RegexSearch)
    ensures ds.stdoutIsNumber ==> (CheckDone(ds, last, search).0 <==> HasDigit(last.output))
    ensures !ds.stdoutIsNumber && ds.stdoutRegex.Some? && ds.stdoutRegex.value != [] ==>
      (CheckDone(ds, last, search).0 <==> search(ds.stdoutRegex.value, Strip(last.output)))
    ensures !ds.stdoutIsNumber && (ds.stdoutRegex.None? || ds.stdoutRegex.value == []) ==>
      CheckDone(ds, last, search) == (false, NeedsFileCheck)
  {
    StripKeepsDigits(last.output);
  }

  /** `\d` is not only ASCII: an Arabic-Indic three, a fullwidth three or
      a mathematical bold seven is a number for the numeric rule, and a
      text with no decimal digit is not. */
  lemma CheckDoneUnicodeDigits(ds: DoneSpec, search: RegexSearch, name: string)
    requires ds.stdoutIsNumber
    ensures CheckDone(ds, ToolResult(name, true, "\U{663}", None), search) == (true, NumberFound)
    ensures CheckDone(ds, ToolResult(name, true, " \U{ff13}\n", None), search) == (true, NumberFound)
    ensures CheckDone(ds, ToolResult(name, true, "x=\U{1d7d5}", None), search) == (true, NumberFound)
    ensures CheckDone(ds, ToolResult(name, true, "three \U{2163}", None), search) == (false, NotNumeric)
  {
    assert IsDecimalDigit(Strip("\U{663}")[0]);
    assert Strip(" \U{ff13}\n") == "\U{ff13}";
    assert IsDecimalDigit(Strip(" \U{ff13}\n")[0]);
    assert IsDecimalDigit(Strip("x=\U{1d7d5}")[2]);
  }

  /** A digit survives `str.strip()`. */
  lemma StripKeepsDigits(s: string)
    ensures HasDigit(Strip(s)) <==> HasDigit(s)
  {
    if HasDigit(s) {
      var k :| 0 <= k < |s| && IsDecimalDigit(s[k]);
      DigitSurvives(s, k);
    }
    if HasDigit(Strip(s)) {
      var j :| 0 <= j < |Strip(s)| && IsDecimalDigit(Strip(s)[j]);
      DigitFromStrip(s, j);
    }
  }

  lemma DigitSurvives(s: string, k: int)
    requires 0 <= k < |s| && IsDecimalDigit(s[k])
    ensures HasDigit(Strip(s))
  {
    StripKeepsNonSpace(s, k);
    var off := |s| - |TrimLeft(s)|;
    assert IsDecimalDigit(Strip(s)[k - off]);
  }

  lemma DigitFromStrip(s: string, j: int)
    requires 0 <= j < |Strip(s)| && IsDecimalDigit(Strip(s)[j])
    ensures HasDigit(s)
  {
    StripWithin(s, j);
    var off := |s| - |TrimLeft(s)|;
    assert IsDecimalDigit(s[off + j]);
  }

  /** With the default criterion and a search that treats `.+` as the
      regex engine does, an episode is done exactly when the stripped
      output is not blank. */
  lemma CheckDoneDefault(task: string, last: ToolResult, search: RegexSearch)
    requires InferDoneSpec(task).stdoutRegex.Some?
    requires search(ANY_STDOUT, Strip(last.output)) <==> HasLineChar(Strip(last.output))
    ensures CheckDone(InferDoneSpec(task), last, search).0 <==> Strip(last.output) != []
  {
    InferDoneSpecRules(task);
    StripTrimmed(last.output);
    if Strip(last.output) != [] {
      assert Strip(last.output)[0] != '\n';
    }
  }

  /** `ls -l <path>` */
  function ListCall(path: string): ToolCall {
    ToolCall(ShellExec, [("cmd", Str("ls -l " + path))])
  }

  /** `verify_file_exists`: the listing's verdict and the workspace the
      executor leaves (its message is not modelled). */
  function VerifyFileExists(exec: Executor, ws: Workspace, path: string): (bool, Workspace) {
    var (res, ws') := exec(ListCall(path), ws);
    (res.ok && Strip(res.output) != [] && !Contains(res.output, "No such file"), ws')
  }

  /** The done check of one step on the result and the workspace the tool
      left. */
  function Judge(exec: Executor, search: RegexSearch, ds: DoneSpec, result: ToolResult, ws: Workspace): (bool, Workspace) {
    if !result.ok then (false, ws)
    else if FileCriterion(ds) then VerifyFileExists(exec, ws, ds.fileExists.value)
    else (CheckDone(ds, result, search).0, ws)
  }

  /** A failed tool result skips the done check: nothing runs and the step
      is not done. A file criterion is met only by a successful listing
      whose output does not report a missing file; a stdout criterion only
      by `check_done`, without running anything. */
  lemma JudgeFacts(exec: Executor, search: RegexSearch, ds: DoneSpec, result: ToolResult, ws: Workspace)
    ensures !result.ok ==> Judge(exec, search, ds, result, ws) == (false, ws)
    ensures Judge(exec, search, ds, result, ws).0 && FileCriterion(ds) ==>
      var res := exec(ListCall(ds.fileExists.value), ws).0;
      res.ok && Strip(res.output) != [] && !Contains(res.output, "No such file")
    ensures !FileCriterion(ds) ==> Judge(exec, search, ds, result, ws).1 == ws
    ensures !FileCriterion(ds) ==> (Judge(exec, search, ds, result, ws).0 <==> result.ok && CheckDone(ds, result, search).0)
  {
  }
}
