/** The goal verifier: single checks over the workspace and stdout, and
    `verify`, a fixed-order chain of them that stops at the first failure. */
module Verifier {
  import opened Wrappers
  import opened Strings
  import opened Dicts
  import opened TaskSpecs
  import opened ToolSchema
  import opened Workspaces

  /** Whether Python's `float()` accepts a stripped, non-empty string. Float
      parsing is not modelled, so the verifier takes it as a parameter. */
  type FloatSyntax = string -> bool

  /** The message each check appends, with the data its text is built from. */
  datatype Message =
    | FileExists(path: string, size: nat)
    | MissingFile(path: string)
    | StdoutEmpty
    | StdoutIsNumber(text: string)
    | StdoutNotNumber(text: string)
    | StdoutMatches(expected: string)
    | StdoutMismatch(got: string, expected: string)
    | CsvMissingForSchema(path: string)
    | CsvNoHeader(path: string)
    | CsvMissingColumns(path: string, missing: seq<string>, header: seq<string>)
    | CsvHasColumns(path: string, required: seq<string>)
    | CsvMissingForRowCount(path: string)
    | CsvTooFewRows(path: string, count: nat, n: int)
    | CsvHasRows(path: string, n: int, count: nat)

  /** The corrective hint `verify` returns; `Done` is "DONE". */
  datatype Hint =
    | CreateMissingFile(path: string)
    | FixHeader(path: string, columns: seq<string>)
    | AddRows(path: string, n: int)
    | PrintExact(expected: string)
    | PrintOnlyNumber
    | Done

  datatype Check = Check(ok: bool, message: Message)

  datatype VerifyResult = VerifyResult(ok: bool, messages: seq<Message>, hint: Hint)

  // ---------------------------------------------------------------------
  // Single checks

  function CheckFileExists(ws: Workspace, path: string): (c: Check)
    ensures c.ok <==> Exists(ws, path)
    ensures !c.ok ==> c.message == MissingFile(path)
  {
    if path in ws then Check(true, FileExists(path, ws[path].size)) else Check(false, MissingFile(path))
  }

  function CheckStdoutIsNumber(text: string, isFloat: FloatSyntax): (c: Check)
    ensures c.ok <==> Strip(text) != [] && isFloat(Strip(text))
    ensures (forall k | 0 <= k < |text| :: IsSpace(text[k])) ==> !c.ok
  {
    StripEmptyIff(text);
    var s := Strip(text);
    if s == [] then Check(false, StdoutEmpty)
    else if isFloat(s) then Check(true, StdoutIsNumber(s))
    else Check(false, StdoutNotNumber(s))
  }

  function CheckStdoutExact(text: string, expected: string): (c: Check)
    ensures c.ok <==> Strip(text) == Strip(expected)
  {
    var s := Strip(text);
    if s == Strip(expected) then Check(true, StdoutMatches(expected)) else Check(false, StdoutMismatch(s, expected))
  }

  /** The stripped header cells. */
  function HeaderNames(header: seq<string>): set<string> {
    set h | h in header :: Strip(h)
  }

  /** `[c for c in required if c not in names]` */
  function MissingColumns(required: seq<string>, names: set<string>): (m: seq<string>)
    ensures forall c :: c in m <==> c in required && c !in names
    ensures |m| <= |required|
  {
    if required == [] then []
    else
      var rest := MissingColumns(required[1..], names);
      if required[0] in names then rest else [required[0]] + rest
  }

  /** The reference meaning of a passing column check: the file exists, is a
      regular file with a header row, and every required name equals some
      stripped header cell. */
  predicate HasColumns(ws: Workspace, path: string, required: seq<string>) {
    path in ws && ws[path].File? && ws[path].rows != []
    && forall c | c in required :: exists h | h in ws[path].rows[0] :: Strip(h) == c
  }

  /** Opening a directory raises; a missing file and a file without a header
      fail without raising. */
  function CheckCsvHasColumns(ws: Workspace, path: string, required: seq<string>): (r: Raising<Check>)
    ensures r.Raised? <==> path in ws && ws[path].Directory?
    ensures r.Returned? ==> (r.value.ok <==> HasColumns(ws, path, required))
  {
    if path !in ws then Returned(Check(false, CsvMissingForSchema(path)))
    else
      match ws[path]
      case Directory(_) => Raised(IsADirectoryError(path))
      case File(_, rows) =>
        if rows == [] then Returned(Check(false, CsvNoHeader(path)))
        else
          var missing := MissingColumns(required, HeaderNames(rows[0]));
          if missing != [] then
            var c := missing[0];
            assert c in required && c !in HeaderNames(rows[0]);
            assert forall h | h in rows[0] :: Strip(h) in HeaderNames(rows[0]);
            Returned(Check(false, CsvMissingColumns(path, missing, rows[0])))
          else
            assert forall c | c in required :: c in HeaderNames(rows[0]);
            Returned(Check(true, CsvHasColumns(path, required)))
  }

  /** A data row is non-empty and has a cell that is not blank. */
  predicate IsDataRow(row: seq<string>) {
    row != [] && exists x | x in row :: Strip(x) != []
  }

  function DataRowCount(rows: seq<seq<string>>): (n: nat)
    ensures n <= |rows|
    ensures n == 0 <==> forall k | 0 <= k < |rows| :: !IsDataRow(rows[k])
  {
    if rows == [] then 0
    else
      var rest := DataRowCount(rows[1..]);
      assert forall k | 1 <= k < |rows| :: rows[k] == rows[1..][k - 1];
      (if IsDataRow(rows[0]) then 1 else 0) + rest
  }

  predicate HasMinRows(ws: Workspace, path: string, n: int) {
    path in ws && ws[path].File? && ws[path].rows != [] && DataRowCount(ws[path].rows[1..]) >= n
  }

  /** Counts the data rows after the header. */
  function CheckCsvMinRows(ws: Workspace, path: string, n: int): (r: Raising<Check>)
    ensures r.Raised? <==> path in ws && ws[path].Directory?
    ensures r.Returned? ==> (r.value.ok <==> HasMinRows(ws, path, n))
  {
    if path !in ws then Returned(Check(false, CsvMissingForRowCount(path)))
    else
      match ws[path]
      case Directory(_) => Raised(IsADirectoryError(path))
      case File(_, rows) =>
        if rows == [] then Returned(Check(false, CsvNoHeader(path)))
        else
          var count := DataRowCount(rows[1..]);
          if count < n then Returned(Check(false, CsvTooFewRows(path, count, n)))
          else Returned(Check(true, CsvHasRows(path, n, count)))
  }

  // ---------------------------------------------------------------------
  // The check chain

  /** One configured check, in the order `verify` runs them. */
  datatype CheckItem =
    | FileItem(path: string)
    | ColumnsItem(path: string, columns: seq<string>)
    | RowsItem(path: string, n: int)
    | ExactItem(expected: string)
    | NumberItem

  function FileItems(files: seq<string>): (items: seq<CheckItem>)
    ensures |items| == |files| && forall k | 0 <= k < |files| :: items[k] == FileItem(files[k])
  {
    seq(|files|, k requires 0 <= k < |files| => FileItem(files[k]))
  }

  function ColumnItems(cols: Dict<string, seq<string>>): (items: seq<CheckItem>)
    ensures |items| == |cols| && forall k | 0 <= k < |cols| :: items[k] == ColumnsItem(cols[k].0, cols[k].1)
  {
    seq(|cols|, k requires 0 <= k < |cols| => ColumnsItem(cols[k].0, cols[k].1))
  }

  function RowItems(rows: Dict<string, int>): (items: seq<CheckItem>)
    ensures |items| == |rows| && forall k | 0 <= k < |rows| :: items[k] == RowsItem(rows[k].0, rows[k].1)
  {
    seq(|rows|, k requires 0 <= k < |rows| => RowsItem(rows[k].0, rows[k].1))
  }

  function ArtifactItems(spec: TaskSpec): seq<CheckItem> {
    FileItems(spec.requiredFiles) + ColumnItems(spec.csvRequiredColumns) + RowItems(spec.csvMinRows)
  }

  function StdoutItems(spec: TaskSpec): seq<CheckItem> {
    (if spec.stdoutExact.Some? then [ExactItem(spec.stdoutExact.value)] else [])
    + (if spec.stdoutIsNumber then [NumberItem] else [])
  }

  function Items(spec: TaskSpec): seq<CheckItem> {
    ArtifactItems(spec) + StdoutItems(spec)
  }

  /** What a check sees: the workspace, the stdout text and float syntax. */
  datatype Env = Env(ws: Workspace, stdout: string, isFloat: FloatSyntax)

  datatype Outcome = Passed(message: Message) | Failed(message: Message, hint: Hint) | Errored(exc: Exception)

  function OfCheck(c: Check, h: Hint): Outcome {
    if c.ok then Passed(c.message) else Failed(c.message, h)
  }

  function RunItem(item: CheckItem, env: Env): Outcome {
    match item
    case FileItem(f) => OfCheck(CheckFileExists(env.ws, f), CreateMissingFile(f))
    case ColumnsItem(p, cols) =>
      (match CheckCsvHasColumns(env.ws, p, cols)
       case Raised(e) => Errored(e)
       case Returned(c) => OfCheck(c, FixHeader(p, cols)))
    case RowsItem(p, n) =>
      (match CheckCsvMinRows(env.ws, p, n)
       case Raised(e) => Errored(e)
       case Returned(c) => OfCheck(c, AddRows(p, n)))
    case ExactItem(e) => OfCheck(CheckStdoutExact(env.stdout, e), PrintExact(e))
    case NumberItem => OfCheck(CheckStdoutIsNumber(env.stdout, env.isFloat), PrintOnlyNumber)
  }

  /** The outcome of every configured check, in order. */
  function Outcomes(items: seq<CheckItem>, env: Env): (outs: seq<Outcome>)
    ensures |outs| == |items| && forall k | 0 <= k < |items| :: outs[k] == RunItem(items[k], env)
  {
    seq(|items|, k requires 0 <= k < |items| => RunItem(items[k], env))
  }

  datatype Stage = Continue(messages: seq<Message>) | Halt(messages: seq<Message>, hint: Hint) | Crash(exc: Exception)

  /** Walks the outcomes from position `i` on, `msgs` being the messages so
      far, and stops at the first one that does not pass. */
  function Chain(outs: seq<Outcome>, i: nat, msgs: seq<Message>): Stage
    requires i <= |outs|
    decreases |outs| - i
  {
    if i == |outs| then Continue(msgs)
    else
      match outs[i]
      case Passed(m) => Chain(outs, i + 1, msgs + [m])
      case Failed(m, h) => Halt(msgs + [m], h)
      case Errored(e) => Crash(e)
  }

  ghost predicate AllPassed(outs: seq<Outcome>) {
    forall k | 0 <= k < |outs| :: outs[k].Passed?
  }

  /** The messages of the outcomes in positions `i` to `j`, all of which pass. */
  function PassedMessages(outs: seq<Outcome>, i: nat, j: nat): (m: seq<Message>)
    requires i <= j <= |outs|
    requires forall k | i <= k < j :: outs[k].Passed?
    ensures |m| == j - i
    decreases j - i
  {
    if i == j then [] else [outs[i].message] + PassedMessages(outs, i + 1, j)
  }

  /** The position of the first outcome from `i` on that does not pass. */
  function FirstNotPassed(outs: seq<Outcome>, i: nat): (j: nat)
    requires i <= |outs|
    ensures i <= j <= |outs|
    ensures forall k | i <= k < j :: outs[k].Passed?
    ensures j < |outs| ==> !outs[j].Passed?
    decreases |outs| - i
  {
    if i == |outs| || !outs[i].Passed? then i else FirstNotPassed(outs, i + 1)
  }

  /** A chain whose outcomes pass from `i` up to `j` behaves from `j` on as it
      would with the passed messages already appended. */
  lemma {:induction false} ChainSkipsPassed(outs: seq<Outcome>, i: nat, j: nat, msgs: seq<Message>)
    requires i <= j <= |outs|
    requires forall k | i <= k < j :: outs[k].Passed?
    ensures Chain(outs, i, msgs) == Chain(outs, j, msgs + PassedMessages(outs, i, j))
    decreases j - i
  {
    if i < j {
      var m := outs[i].message;
      ChainSkipsPassed(outs, i + 1, j, msgs + [m]);
      assert msgs + [m] + PassedMessages(outs, i + 1, j) == msgs + PassedMessages(outs, i, j);
    } else {
      assert msgs + PassedMessages(outs, i, j) == msgs;
    }
  }

  /** The chain stops exactly at the first outcome that does not pass. */
  lemma ChainStopsAt(outs: seq<Outcome>, j: nat)
    requires j < |outs|
    requires forall k | 0 <= k < j :: outs[k].Passed?
    ensures outs[j].Failed? ==> Chain(outs, 0, []) == Halt(PassedMessages(outs, 0, j) + [outs[j].message], outs[j].hint)
    ensures outs[j].Errored? ==> Chain(outs, 0, []) == Crash(outs[j].exc)
  {
    ChainSkipsPassed(outs, 0, j, []);
    assert [] + PassedMessages(outs, 0, j) == PassedMessages(outs, 0, j);
  }

  /** The chain runs to the end exactly when every outcome passes, and then
      it has one message per check. */
  lemma ChainContinuesIff(outs: seq<Outcome>)
    ensures Chain(outs, 0, []).Continue? <==> AllPassed(outs)
    ensures AllPassed(outs) ==> Chain(outs, 0, []) == Continue(PassedMessages(outs, 0, |outs|))
  {
    if AllPassed(outs) {
      ChainSkipsPassed(outs, 0, |outs|, []);
      assert [] + PassedMessages(outs, 0, |outs|) == PassedMessages(outs, 0, |outs|);
    } else {
      var j := FirstNotPassed(outs, 0);
      ChainStopsAt(outs, j);
    }
  }

  // ---------------------------------------------------------------------
  // verify

  /** `stdout` is the last result's output, or "" when there is no last result. */
  function Stdout(last: Option<ToolResult>): string {
    match last
    case Some(r) => r.output
    case None => ""
  }

  function Verdict(st: Stage): Raising<VerifyResult> {
    match st
    case Continue(m) => Returned(VerifyResult(true, m, Done))
    case Halt(m, h) => Returned(VerifyResult(false, m, h))
    case Crash(e) => Raised(e)
  }

  /** The meaning of `verify(spec, last)`: the chain over the configured checks. */
  function VerifySpec(spec: TaskSpec, last: Option<ToolResult>, ws: Workspace, isFloat: FloatSyntax): Raising<VerifyResult> {
    Verdict(Chain(Outcomes(Items(spec), Env(ws, Stdout(last), isFloat)), 0, []))
  }

  /** Runs the chain over `b` after a stage that continued. */
  function Then(st: Stage, b: seq<Outcome>): Stage {
    if st.Continue? then Chain(b, 0, st.messages) else st
  }

  /** The chain over a concatenation is the chain over the first part,
      continued over the second. */
  lemma {:induction false} ChainAppend(a: seq<Outcome>, b: seq<Outcome>, i: nat, msgs: seq<Message>)
    requires i <= |a|
    ensures Chain(a + b, i, msgs) == Then(Chain(a, i, msgs), b)
    decreases |a| - i
  {
    if i == |a| {
      ChainShift(a, b, 0, msgs);
    } else {
      assert (a + b)[i] == a[i];
      if a[i].Passed? {
        ChainAppend(a, b, i + 1, msgs + [a[i].message]);
      }
    }
  }

  lemma {:induction false} ChainShift(a: seq<Outcome>, b: seq<Outcome>, j: nat, msgs: seq<Message>)
    requires j <= |b|
    ensures Chain(a + b, |a| + j, msgs) == Chain(b, j, msgs)
    decreases |b| - j
  {
    if j < |b| {
      assert (a + b)[|a| + j] == b[j];
      if b[j].Passed? {
        ChainShift(a, b, j + 1, msgs + [b[j].message]);
      }
    }
  }

  lemma OutcomesAppend(a: seq<CheckItem>, b: seq<CheckItem>, env: Env)
    ensures Outcomes(a + b, env) == Outcomes(a, env) + Outcomes(b, env)
  {
  }

  /** The required-files loop of `verify`. */
  method CheckFiles(files: seq<string>, ws: Workspace, ghost env: Env, msgs0: seq<Message>)
    returns (msgs: seq<Message>, stop: Option<Raising<VerifyResult>>)
    requires env.ws == ws
    ensures var st := Chain(Outcomes(FileItems(files), env), 0, msgs0);
      if stop.Some? then stop.value == Verdict(st) && !st.Continue? else st == Continue(msgs)
  {
    ghost var outs := Outcomes(FileItems(files), env);
    msgs := msgs0;
    var i := 0;
    while i < |files|
      invariant 0 <= i <= |files|
      invariant Chain(outs, i, msgs) == Chain(outs, 0, msgs0)
    {
      var f := files[i];
      var c := CheckFileExists(ws, f);
      msgs := msgs + [c.message];
      if !c.ok {
        return msgs, Some(Returned(VerifyResult(false, msgs, CreateMissingFile(f))));
      }
      i := i + 1;
    }
    return msgs, None;
  }

  /** The CSV-columns loop of `verify`. */
  method CheckColumns(cols: Dict<string, seq<string>>, ws: Workspace, ghost env: Env, msgs0: seq<Message>)
    returns (msgs: seq<Message>, stop: Option<Raising<VerifyResult>>)
    requires env.ws == ws
    ensures var st := Chain(Outcomes(ColumnItems(cols), env), 0, msgs0);
      if stop.Some? then stop.value == Verdict(st) && !st.Continue? else st == Continue(msgs)
  {
    ghost var outs := Outcomes(ColumnItems(cols), env);
    msgs := msgs0;
    var j := 0;
    while j < |cols|
      invariant 0 <= j <= |cols|
      invariant Chain(outs, j, msgs) == Chain(outs, 0, msgs0)
    {
      var (path, required) := cols[j];
      var c := CheckCsvHasColumns(ws, path, required);
      if c.Raised? {
        return msgs, Some(Raised(c.exc));
      }
      msgs := msgs + [c.value.message];
      if !c.value.ok {
        return msgs, Some(Returned(VerifyResult(false, msgs, FixHeader(path, required))));
      }
      j := j + 1;
    }
    return msgs, None;
  }

  /** The CSV-rows loop of `verify`. */
  method CheckRows(rows: Dict<string, int>, ws: Workspace, ghost env: Env, msgs0: seq<Message>)
    returns (msgs: seq<Message>, stop: Option<Raising<VerifyResult>>)
    requires env.ws == ws
    ensures var st := Chain(Outcomes(RowItems(rows), env), 0, msgs0);
      if stop.Some? then stop.value == Verdict(st) && !st.Continue? else st == Continue(msgs)
  {
    ghost var outs := Outcomes(RowItems(rows), env);
    msgs := msgs0;
    var k := 0;
    while k < |rows|
      invariant 0 <= k <= |rows|
      invariant Chain(outs, k, msgs) == Chain(outs, 0, msgs0)
    {
      var (path, n) := rows[k];
      var c := CheckCsvMinRows(ws, path, n);
      if c.Raised? {
        return msgs, Some(Raised(c.exc));
      }
      msgs := msgs + [c.value.message];
      if !c.value.ok {
        return msgs, Some(Returned(VerifyResult(false, msgs, AddRows(path, n))));
      }
      k := k + 1;
    }
    return msgs, None;
  }

  /** The stdout checks of `verify`. */
  method CheckStdout(spec: TaskSpec, stdout: string, isFloat: FloatSyntax, ghost outs: seq<Outcome>, msgs0: seq<Message>)
    returns (r: Raising<VerifyResult>)
    requires StdoutShape(spec, stdout, isFloat, outs)
    ensures r == Verdict(Chain(outs, 0, msgs0))
  {
    var msgs := msgs0;
    ghost var i := 0;
    if spec.stdoutExact.Some? {
      var expected := spec.stdoutExact.value;
      var c := CheckStdoutExact(stdout, expected);
      ChainAt(outs, 0, msgs0);
      msgs := msgs + [c.message];
      if !c.ok {
        return Returned(VerifyResult(false, msgs, PrintExact(expected)));
      }
      i := 1;
    }
    if spec.stdoutIsNumber {
      var c := CheckStdoutIsNumber(stdout, isFloat);
      ChainAt(outs, i, msgs);
      msgs := msgs + [c.message];
      if !c.ok {
        return Returned(VerifyResult(false, msgs, PrintOnlyNumber));
      }
      i := i + 1;
    }
    ChainAt(outs, i, msgs);
    return Returned(VerifyResult(true, msgs, Done));
  }

  /** One step of the chain. */
  lemma ChainAt(outs: seq<Outcome>, i: nat, msgs: seq<Message>)
    requires i <= |outs|
    ensures i == |outs| ==> Chain(outs, i, msgs) == Continue(msgs)
    ensures i < |outs| && outs[i].Passed? ==> Chain(outs, i, msgs) == Chain(outs, i + 1, msgs + [outs[i].message])
    ensures i < |outs| && outs[i].Failed? ==> Chain(outs, i, msgs) == Halt(msgs + [outs[i].message], outs[i].hint)
  {
  }

  /** The position of the numeric check among the stdout checks. */
  function NumberAt(spec: TaskSpec): nat {
    if spec.stdoutExact.Some? then 1 else 0
  }

  /** The outcomes of the stdout checks: the exact match first, when
      configured, then the numeric check, when configured. */
  ghost predicate StdoutShape(spec: TaskSpec, stdout: string, isFloat: FloatSyntax, outs: seq<Outcome>) {
    && |outs| == NumberAt(spec) + (if spec.stdoutIsNumber then 1 else 0)
    && (spec.stdoutExact.Some? ==>
          outs[0] == OfCheck(CheckStdoutExact(stdout, spec.stdoutExact.value), PrintExact(spec.stdoutExact.value)))
    && (spec.stdoutIsNumber ==> outs[NumberAt(spec)] == OfCheck(CheckStdoutIsNumber(stdout, isFloat), PrintOnlyNumber))
  }

  lemma StdoutOutcomesShape(spec: TaskSpec, env: Env)
    ensures StdoutShape(spec, env.stdout, env.isFloat, Outcomes(StdoutItems(spec), env))
  {
    var e := spec.stdoutExact.GetOr("");
    if spec.stdoutExact.Some? && spec.stdoutIsNumber {
      assert StdoutItems(spec) == [ExactItem(e), NumberItem];
      BothOutcomes(e, env);
    } else if spec.stdoutExact.Some? {
      assert StdoutItems(spec) == [ExactItem(e)];
      OneOutcome(ExactItem(e), env);
    } else if spec.stdoutIsNumber {
      assert StdoutItems(spec) == [NumberItem];
      OneOutcome(NumberItem, env);
    }
  }

  lemma BothOutcomes(e: string, env: Env)
    ensures var outs := Outcomes([ExactItem(e), NumberItem], env);
      |outs| == 2 && outs[0] == RunItem(ExactItem(e), env) && outs[1] == RunItem(NumberItem, env)
  {
  }

  lemma OneOutcome(item: CheckItem, env: Env)
    requires item.ExactItem? || item.NumberItem?
    ensures var outs := Outcomes([item], env);
      |outs| == 1 && outs[0] == RunItem(item, env)
  {
  }

  /** The artifact loops of `verify`: required files, then CSV columns, then
      CSV row counts. */
  method CheckArtifacts(spec: TaskSpec, ws: Workspace, ghost env: Env, msgs0: seq<Message>)
    returns (msgs: seq<Message>, stop: Option<Raising<VerifyResult>>)
    requires env.ws == ws
    ensures var st := Chain(Outcomes(ArtifactItems(spec), env), 0, msgs0);
      if stop.Some? then stop.value == Verdict(st) && !st.Continue? else st == Continue(msgs)
  {
    var files, cols, rows := spec.requiredFiles, spec.csvRequiredColumns, spec.csvMinRows;
    ghost var fo, co, ro := Outcomes(FileItems(files), env), Outcomes(ColumnItems(cols), env), Outcomes(RowItems(rows), env);
    OutcomesAppend(FileItems(files) + ColumnItems(cols), RowItems(rows), env);
    OutcomesAppend(FileItems(files), ColumnItems(cols), env);
    ChainAppend(fo + co, ro, 0, msgs0);
    ChainAppend(fo, co, 0, msgs0);
    msgs, stop := CheckFiles(files, ws, env, msgs0);
    if stop.Some? {
      return;
    }
    msgs, stop := CheckColumns(cols, ws, env, msgs);
    if stop.Some? {
      return;
    }
    msgs, stop := CheckRows(rows, ws, env, msgs);
  }

  /** `verify` as the source writes it: a loop per constraint kind, then the
      stdout checks, each appending its message and returning at the first
      failure. */
  method Verify(spec: TaskSpec, last: Option<ToolResult>, ws: Workspace, isFloat: FloatSyntax) returns (r: Raising<VerifyResult>)
    ensures r == VerifySpec(spec, last, ws, isFloat)
  {
    ghost var env := Env(ws, Stdout(last), isFloat);
    ghost var ao, so := Outcomes(ArtifactItems(spec), env), Outcomes(StdoutItems(spec), env);
    OutcomesAppend(ArtifactItems(spec), StdoutItems(spec), env);
    ChainAppend(ao, so, 0, []);
    var msgs, stop := CheckArtifacts(spec, ws, env, []);
    if stop.Some? {
      return stop.value;
    }
    var stdout := "";
    if last.Some? {
      stdout := last.value.output;
    }
    StdoutOutcomesShape(spec, env);
    r := CheckStdout(spec, stdout, isFloat, so, msgs);
  }

  // ---------------------------------------------------------------------
  // What verify decides

  /** The reference meaning of "the artifact constraints hold": every
      required file exists, every column constraint and every row constraint
      holds. */
  predicate ArtifactsHold(spec: TaskSpec, ws: Workspace) {
    var cols, rows := spec.csvRequiredColumns, spec.csvMinRows;
    (forall f | f in spec.requiredFiles :: Exists(ws, f))
    && (forall k | 0 <= k < |cols| :: HasColumns(ws, cols[k].0, cols[k].1))
    && (forall k | 0 <= k < |rows| :: HasMinRows(ws, rows[k].0, rows[k].1))
  }

  /** The reference meaning of "the stdout constraints hold". */
  predicate StdoutHolds(spec: TaskSpec, stdout: string, isFloat: FloatSyntax) {
    (spec.stdoutExact.Some? ==> Strip(stdout) == Strip(spec.stdoutExact.value))
    && (spec.stdoutIsNumber ==> Strip(stdout) != [] && isFloat(Strip(stdout)))
  }

  lemma AllPassedAppend(a: seq<Outcome>, b: seq<Outcome>)
    ensures AllPassed(a + b) <==> AllPassed(a) && AllPassed(b)
  {
    if AllPassed(a) && AllPassed(b) {
      forall k | 0 <= k < |a + b| ensures (a + b)[k].Passed? {
        if k >= |a| {
          assert (a + b)[k] == b[k - |a|];
        }
      }
    }
    if AllPassed(a + b) {
      forall k | 0 <= k < |a| ensures a[k].Passed? {
        assert (a + b)[k] == a[k];
      }
      forall k | 0 <= k < |b| ensures b[k].Passed? {
        assert (a + b)[|a| + k] == b[k];
      }
    }
  }

  lemma ArtifactOutcomesPass(spec: TaskSpec, env: Env)
    ensures AllPassed(Outcomes(FileItems(spec.requiredFiles), env))
      <==> forall f | f in spec.requiredFiles :: Exists(env.ws, f)
    ensures AllPassed(Outcomes(ColumnItems(spec.csvRequiredColumns), env))
      <==> forall k | 0 <= k < |spec.csvRequiredColumns| :: HasColumns(env.ws, spec.csvRequiredColumns[k].0, spec.csvRequiredColumns[k].1)
    ensures AllPassed(Outcomes(RowItems(spec.csvMinRows), env))
      <==> forall k | 0 <= k < |spec.csvMinRows| :: HasMinRows(env.ws, spec.csvMinRows[k].0, spec.csvMinRows[k].1)
    ensures AllPassed(Outcomes(ArtifactItems(spec), env)) <==> ArtifactsHold(spec, env.ws)
  {
    var files := spec.requiredFiles;
    var fo := Outcomes(FileItems(files), env);
    if forall f | f in files :: Exists(env.ws, f) {
      forall k | 0 <= k < |fo| ensures fo[k].Passed? {
        assert files[k] in files;
      }
    }
    var co := Outcomes(ColumnItems(spec.csvRequiredColumns), env);
    var ro := Outcomes(RowItems(spec.csvMinRows), env);
    OutcomesAppend(FileItems(files) + ColumnItems(spec.csvRequiredColumns), RowItems(spec.csvMinRows), env);
    OutcomesAppend(FileItems(files), ColumnItems(spec.csvRequiredColumns), env);
    AllPassedAppend(fo + co, ro);
    AllPassedAppend(fo, co);
  }

  lemma StdoutOutcomesPass(spec: TaskSpec, env: Env)
    ensures AllPassed(Outcomes(StdoutItems(spec), env)) <==> StdoutHolds(spec, env.stdout, env.isFloat)
  {
    StdoutOutcomesShape(spec, env);
    StdoutShapePasses(spec, env.stdout, env.isFloat, Outcomes(StdoutItems(spec), env));
  }

  /** The stdout outcomes all pass iff each configured stdout check passes. */
  lemma StdoutShapePasses(spec: TaskSpec, stdout: string, isFloat: FloatSyntax, outs: seq<Outcome>)
    requires StdoutShape(spec, stdout, isFloat, outs)
    ensures AllPassed(outs) <==> StdoutHolds(spec, stdout, isFloat)
  {
    var exactOk := spec.stdoutExact.Some? ==> outs[0].Passed?;
    var numberOk := spec.stdoutIsNumber ==> outs[NumberAt(spec)].Passed?;
    if exactOk && numberOk {
      forall k | 0 <= k < |outs|
        ensures outs[k].Passed?
      {
        if !(spec.stdoutExact.Some? && k == 0) {
          assert k == NumberAt(spec);
        }
      }
    }
    assert AllPassed(outs) <==> exactOk && numberOk;
    if spec.stdoutExact.Some? {
      var c := CheckStdoutExact(stdout, spec.stdoutExact.value);
      assert outs[0].Passed? <==> c.ok;
    }
    if spec.stdoutIsNumber {
      var c := CheckStdoutIsNumber(stdout, isFloat);
      assert outs[NumberAt(spec)].Passed? <==> c.ok;
    }
  }

  /** Every outcome of the chain passes exactly when the artifact and stdout
      constraints hold. */
  lemma OutcomesPassIff(spec: TaskSpec, env: Env)
    ensures AllPassed(Outcomes(Items(spec), env)) <==> ArtifactsHold(spec, env.ws) && StdoutHolds(spec, env.stdout, env.isFloat)
  {
    OutcomesAppend(ArtifactItems(spec), StdoutItems(spec), env);
    AllPassedAppend(Outcomes(ArtifactItems(spec), env), Outcomes(StdoutItems(spec), env));
    ArtifactOutcomesPass(spec, env);
    StdoutOutcomesPass(spec, env);
  }

  /** The verdict of a chain is ok exactly when every outcome passes. */
  lemma VerdictOkIff(outs: seq<Outcome>)
    requires forall k | 0 <= k < |outs| :: outs[k].Failed? ==> outs[k].hint != Done
    ensures var r := Verdict(Chain(outs, 0, []));
      && ((r.Returned? && r.value.ok) <==> AllPassed(outs))
      && (r.Returned? && r.value.ok ==> r.value.hint == Done && |r.value.messages| == |outs|)
      && (r.Returned? && !r.value.ok ==> r.value.hint != Done)
  {
    ChainContinuesIff(outs);
    if !AllPassed(outs) {
      var j := FirstNotPassed(outs, 0);
      ChainStopsAt(outs, j);
    }
  }

  lemma FailedHintsNotDone(items: seq<CheckItem>, env: Env)
    ensures var outs := Outcomes(items, env);
      forall k | 0 <= k < |outs| :: outs[k].Failed? ==> outs[k].hint != Done
  {
  }

  /** `verify` returns ok=true, with hint "DONE" and one message per
      configured check, exactly when every configured constraint holds; a
      failing result never carries "DONE". */
  lemma VerifyOkIff(spec: TaskSpec, last: Option<ToolResult>, ws: Workspace, isFloat: FloatSyntax)
    ensures var r := VerifySpec(spec, last, ws, isFloat);
      (r.Returned? && r.value.ok) <==> ArtifactsHold(spec, ws) && StdoutHolds(spec, Stdout(last), isFloat)
    ensures var r := VerifySpec(spec, last, ws, isFloat);
      r.Returned? && r.value.ok ==> r.value.hint == Done && |r.value.messages| == |Items(spec)|
    ensures var r := VerifySpec(spec, last, ws, isFloat);
      r.Returned? && !r.value.ok ==> r.value.hint != Done
  {
    var env := Env(ws, Stdout(last), isFloat);
    FailedHintsNotDone(Items(spec), env);
    VerdictOkIff(Outcomes(Items(spec), env));
    OutcomesPassIff(spec, env);
  }

  /** The hint a check gives when it fails. */
  function HintFor(item: CheckItem): Hint {
    match item
    case FileItem(f) => CreateMissingFile(f)
    case ColumnsItem(p, cols) => FixHeader(p, cols)
    case RowsItem(p, n) => AddRows(p, n)
    case ExactItem(e) => PrintExact(e)
    case NumberItem => PrintOnlyNumber
  }

  /** First failure: when the checks before position `j` pass and check `j`
      fails, `verify` returns ok=false with check `j`'s hint, and its
      messages are those of checks 0 to `j`; when check `j` raises, `verify`
      raises. No later check runs. */
  lemma VerifyFirstFailure(spec: TaskSpec, last: Option<ToolResult>, ws: Workspace, isFloat: FloatSyntax, j: nat)
    requires j < |Items(spec)|
    requires forall k | 0 <= k < j :: RunItem(Items(spec)[k], Env(ws, Stdout(last), isFloat)).Passed?
    ensures var o := RunItem(Items(spec)[j], Env(ws, Stdout(last), isFloat));
      var r := VerifySpec(spec, last, ws, isFloat);
      o.Failed? ==>
        r.Returned? && !r.value.ok && r.value.hint == HintFor(Items(spec)[j])
        && |r.value.messages| == j + 1 && r.value.messages[j] == o.message
    ensures var o := RunItem(Items(spec)[j], Env(ws, Stdout(last), isFloat));
      o.Errored? ==> VerifySpec(spec, last, ws, isFloat) == Raised(o.exc)
  {
    var env := Env(ws, Stdout(last), isFloat);
    var outs := Outcomes(Items(spec), env);
    assert forall k | 0 <= k < j :: outs[k].Passed?;
    ChainStopsAt(outs, j);
    FailedHint(Items(spec)[j], env);
  }

  lemma FailedHint(item: CheckItem, env: Env)
    ensures RunItem(item, env).Failed? ==> RunItem(item, env).hint == HintFor(item)
  {
  }

  /** Where each configured check sits in the chain. */
  lemma ItemsLayout(spec: TaskSpec)
    ensures var files, cols, rows := spec.requiredFiles, spec.csvRequiredColumns, spec.csvMinRows;
      && |Items(spec)| == |files| + |cols| + |rows| + |StdoutItems(spec)|
      && |ArtifactItems(spec)| == |files| + |cols| + |rows|
      && (forall k | 0 <= k < |files| :: Items(spec)[k] == FileItem(files[k]))
      && (forall k | 0 <= k < |cols| :: Items(spec)[|files| + k] == ColumnsItem(cols[k].0, cols[k].1))
      && (forall k | 0 <= k < |rows| :: Items(spec)[|files| + |cols| + k] == RowsItem(rows[k].0, rows[k].1))
      && (forall k | 0 <= k < |StdoutItems(spec)| :: Items(spec)[|files| + |cols| + |rows| + k] == StdoutItems(spec)[k])
  {
  }

  /** Required files are checked in list order: the first missing one is
      named by the hint, whatever the rest of the spec says. */
  lemma VerifyFirstMissingFile(spec: TaskSpec, last: Option<ToolResult>, ws: Workspace, isFloat: FloatSyntax, i: nat)
    requires i < |spec.requiredFiles| && !Exists(ws, spec.requiredFiles[i])
    requires forall k | 0 <= k < i :: Exists(ws, spec.requiredFiles[k])
    ensures var r := VerifySpec(spec, last, ws, isFloat);
      r.Returned? && !r.value.ok && r.value.hint == CreateMissingFile(spec.requiredFiles[i])
      && |r.value.messages| == i + 1 && r.value.messages[i] == MissingFile(spec.requiredFiles[i])
  {
    ItemsLayout(spec);
    VerifyFirstFailure(spec, last, ws, isFloat, i);
  }

  /** When the artifacts are in place and an exact stdout is configured but
      does not match, the hint asks for that exact text and the numeric check
      never runs (its message is absent). */
  lemma VerifyExactBeforeNumber(spec: TaskSpec, last: Option<ToolResult>, ws: Workspace, isFloat: FloatSyntax)
    requires ArtifactsHold(spec, ws)
    requires spec.stdoutExact.Some? && Strip(Stdout(last)) != Strip(spec.stdoutExact.value)
    ensures var r := VerifySpec(spec, last, ws, isFloat);
      r.Returned? && !r.value.ok && r.value.hint == PrintExact(spec.stdoutExact.value)
      && |r.value.messages| == |ArtifactItems(spec)| + 1
      && r.value.messages[|ArtifactItems(spec)|] == StdoutMismatch(Strip(Stdout(last)), spec.stdoutExact.value)
  {
    var env := Env(ws, Stdout(last), isFloat);
    var outs := Outcomes(Items(spec), env);
    ArtifactPrefixPasses(spec, env);
    ExactFollowsArtifacts(spec, env);
    ExactItemFails(spec.stdoutExact.value, env);
    VerdictAtFailure(outs, |ArtifactItems(spec)|);
  }

  lemma ExactItemFails(e: string, env: Env)
    requires Strip(env.stdout) != Strip(e)
    ensures RunItem(ExactItem(e), env) == Failed(StdoutMismatch(Strip(env.stdout), e), PrintExact(e))
  {
  }

  lemma ExactFollowsArtifacts(spec: TaskSpec, env: Env)
    requires spec.stdoutExact.Some?
    ensures var outs := Outcomes(Items(spec), env);
      |ArtifactItems(spec)| < |outs| && outs[|ArtifactItems(spec)|] == RunItem(ExactItem(spec.stdoutExact.value), env)
  {
    OutcomesAppend(ArtifactItems(spec), StdoutItems(spec), env);
  }

  lemma ArtifactPrefixPasses(spec: TaskSpec, env: Env)
    requires ArtifactsHold(spec, env.ws)
    ensures PassedBefore(Outcomes(Items(spec), env), |ArtifactItems(spec)|)
  {
    ArtifactOutcomesPass(spec, env);
    OutcomesAppend(ArtifactItems(spec), StdoutItems(spec), env);
  }

  /** Every outcome before position `j` passes. */
  ghost predicate PassedBefore(outs: seq<Outcome>, j: nat) {
    j <= |outs| && forall k | 0 <= k < j :: outs[k].Passed?
  }

  /** `ChainStopsAt`, read through `Verdict`. */
  lemma VerdictAtFailure(outs: seq<Outcome>, j: nat)
    requires j < |outs| && outs[j].Failed?
    requires PassedBefore(outs, j)
    ensures var r := Verdict(Chain(outs, 0, []));
      r.Returned? && !r.value.ok && r.value.hint == outs[j].hint
      && |r.value.messages| == j + 1 && r.value.messages[j] == outs[j].message
  {
    ChainStopsAt(outs, j);
  }

  /** A spec with all defaults configures no check: `verify` accepts any
      workspace and any last result. */
  lemma DefaultSpecAcceptsAll(task: string, last: Option<ToolResult>, ws: Workspace, isFloat: FloatSyntax)
    ensures VerifySpec(NewTaskSpec(task), last, ws, isFloat) == Returned(VerifyResult(true, [], Done))
  {
  }

  // ---------------------------------------------------------------------
  // Artifacts-only verification and the gap report

  /** Checks 1-3 of the chain alone: true when they all pass, false at the
      first failure, raising where the chain would. */
  function ArtifactCheck(spec: TaskSpec, ws: Workspace): Raising<bool> {
    match Chain(Outcomes(ArtifactItems(spec), Env(ws, "", s => false)), 0, [])
    case Continue(_) => Returned(true)
    case Halt(_, _) => Returned(false)
    case Crash(e) => Raised(e)
  }

  lemma ArtifactCheckIff(spec: TaskSpec, ws: Workspace)
    ensures ArtifactCheck(spec, ws) == Returned(true) <==> ArtifactsHold(spec, ws)
  {
    var env := Env(ws, "", s => false);
    ChainContinuesIff(Outcomes(ArtifactItems(spec), env));
    ArtifactOutcomesPass(spec, env);
  }

  /** Whatever the stdout checks say, `verify` passes only if the artifact
      checks do. */
  lemma VerifyOkNeedsArtifacts(spec: TaskSpec, last: Option<ToolResult>, ws: Workspace, isFloat: FloatSyntax)
    requires VerifySpec(spec, last, ws, isFloat).Returned? && VerifySpec(spec, last, ws, isFloat).value.ok
    ensures ArtifactCheck(spec, ws) == Returned(true)
  {
    VerifyOkIff(spec, last, ws, isFloat);
    ArtifactCheckIff(spec, ws);
  }

  /** The four entries of the gap dictionary scored in beam search. */
  datatype GapReport = GapReport(
    missingFiles: seq<string>,
    csvMissingColumns: Dict<string, seq<string>>,
    csvRowsNeeded: Dict<string, int>,
    stdoutError: Option<Message>)

  predicate NoArtifactGaps(g: GapReport) {
    g.missingFiles == [] && g.csvMissingColumns == [] && g.csvRowsNeeded == []
  }

  function MissingFiles(files: seq<string>, ws: Workspace): (m: seq<string>)
    ensures forall f :: f in m <==> f in files && !Exists(ws, f)
  {
    if files == [] then []
    else (if Exists(ws, files[0]) then [] else [files[0]]) + MissingFiles(files[1..], ws)
  }

  /** Each failing column constraint, with its full required list. */
  function ColumnGaps(cols: Dict<string, seq<string>>, ws: Workspace): (g: Dict<string, seq<string>>)
    ensures forall e :: e in g <==> e in cols && !HasColumns(ws, e.0, e.1)
  {
    if cols == [] then []
    else (if HasColumns(ws, cols[0].0, cols[0].1) then [] else [cols[0]]) + ColumnGaps(cols[1..], ws)
  }

  /** Each failing row constraint, with its required count. */
  function RowGaps(rows: Dict<string, int>, ws: Workspace): (g: Dict<string, int>)
    ensures forall e :: e in g <==> e in rows && !HasMinRows(ws, e.0, e.1)
  {
    if rows == [] then []
    else (if HasMinRows(ws, rows[0].0, rows[0].1) then [] else [rows[0]]) + RowGaps(rows[1..], ws)
  }

  /** Every artifact constraint is evaluated, none short-circuits; a CSV path
      that cannot be read counts as a gap. */
  function ArtifactGaps(spec: TaskSpec, ws: Workspace): GapReport {
    GapReport(MissingFiles(spec.requiredFiles, ws), ColumnGaps(spec.csvRequiredColumns, ws), RowGaps(spec.csvMinRows, ws), None)
  }

  /** The first failing stdout check's message, exact match first. */
  function StdoutError(spec: TaskSpec, stdout: string, isFloat: FloatSyntax): (e: Option<Message>)
    ensures e.None? <==> StdoutHolds(spec, stdout, isFloat)
  {
    var exact := if spec.stdoutExact.Some? then Some(CheckStdoutExact(stdout, spec.stdoutExact.value)) else None;
    var number := CheckStdoutIsNumber(stdout, isFloat);
    if exact.Some? && !exact.value.ok then Some(exact.value.message)
    else if spec.stdoutIsNumber && !number.ok then Some(number.message)
    else None
  }

  /** With stdout checked: the stdout error is reported only once the
      artifacts are in place. */
  function FullGaps(spec: TaskSpec, last: Option<ToolResult>, ws: Workspace, isFloat: FloatSyntax): GapReport {
    var g := ArtifactGaps(spec, ws);
    if NoArtifactGaps(g) then g.(stdoutError := StdoutError(spec, Stdout(last), isFloat)) else g
  }

  /** An empty artifact gap report means the artifact checks pass. */
  lemma ArtifactGapsEmptyIff(spec: TaskSpec, ws: Workspace)
    ensures NoArtifactGaps(ArtifactGaps(spec, ws)) <==> ArtifactsHold(spec, ws)
    ensures NoArtifactGaps(ArtifactGaps(spec, ws)) <==> ArtifactCheck(spec, ws) == Returned(true)
  {
    ArtifactCheckIff(spec, ws);
    var g := ArtifactGaps(spec, ws);
    var cols, rows := spec.csvRequiredColumns, spec.csvMinRows;
    if NoArtifactGaps(g) {
      assert forall k | 0 <= k < |cols| :: cols[k] in cols;
      assert forall k | 0 <= k < |rows| :: rows[k] in rows;
    }
    if !NoArtifactGaps(g) {
      if g.csvMissingColumns != [] {
        assert g.csvMissingColumns[0] in g.csvMissingColumns;
      }
      if g.csvRowsNeeded != [] {
        assert g.csvRowsNeeded[0] in g.csvRowsNeeded;
      }
      if g.missingFiles != [] {
        assert g.missingFiles[0] in g.missingFiles;
      }
    }
  }

  /** An entirely empty full gap report means `verify` passes. */
  lemma FullGapsEmptyIff(spec: TaskSpec, last: Option<ToolResult>, ws: Workspace, isFloat: FloatSyntax)
    ensures var g := FullGaps(spec, last, ws, isFloat);
      NoArtifactGaps(g) && g.stdoutError.None?
      <==> VerifySpec(spec, last, ws, isFloat).Returned? && VerifySpec(spec, last, ws, isFloat).value.ok
  {
    ArtifactGapsEmptyIff(spec, ws);
    VerifyOkIff(spec, last, ws, isFloat);
  }
}
