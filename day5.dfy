/** The day-5 driver: a spec built from keywords of the task, a fixed plan
    whose current entry is shown each step, a whitelist of all four tools,
    and a full verification after every step. */
module Day5 {
  import opened Wrappers
  import opened Dicts
  import opened Strings
  import opened Workspaces
  import opened TaskSpecs
  import opened ToolSchema
  import opened Verifier
  import opened Agent

  const MAX_STEPS: nat := 20
  const START_HINT: string := "Start by checking/creating required files."

  /** The files whose mention in the task makes them required, in this order. */
  const KNOWN_FILES: seq<string> := ["users.csv", "events.csv", "data.csv"]

  /** The names among `names` that occur in `t`, in list order. */
  function Mentioned(t: string, names: seq<string>): seq<string>
    decreases |names|
  {
    if names == [] then []
    else
      var last := names[|names| - 1];
      Mentioned(t, names[..|names| - 1]) + (if Contains(t, last) then [last] else [])
  }

  /** The task asks for three users. */
  predicate ThreeUsers(t: string) {
    Contains(t, "3 users") || Contains(t, "1,2,3") || Contains(t, "1, 2, 3")
  }

  /** The task asks for two events. */
  predicate TwoEvents(t: string) {
    Contains(t, "two events") || Contains(t, "(1,1)") || Contains(t, "(2,3)")
  }

  /** The spec `build_task_spec(task)` yields, written field by field. */
  function Day5Spec(task: string): TaskSpec {
    var t := Lower(task);
    var users, events := Contains(t, "users.csv"), Contains(t, "events.csv");
    TaskSpec(
      task,
      Mentioned(t, KNOWN_FILES),
      UsersColumns(users) + EventsColumns(events),
      UsersRows(t, users) + EventsRows(t, events),
      true,
      if Contains(t, "number of unique users") && Contains(t, "two events") then Some("2") else None,
      ALL_TOOLS)
  }

  /** The column and row constraints of the two known CSV files, present
      when the file is mentioned. */
  function UsersColumns(users: bool): Dict<string, seq<string>> {
    if users then [("users.csv", ["user_id"])] else []
  }

  function EventsColumns(events: bool): Dict<string, seq<string>> {
    if events then [("events.csv", ["event_id", "user_id"])] else []
  }

  function UsersRows(t: string, users: bool): Dict<string, int> {
    if users then [("users.csv", if ThreeUsers(t) then 3 else 1)] else []
  }

  function EventsRows(t: string, events: bool): Dict<string, int> {
    if events then [("events.csv", if TwoEvents(t) then 2 else 1)] else []
  }

  /** `build_task_spec(task)`: the default spec, completed by appending and
      assigning into its lists and dicts. */
  method BuildTaskSpec(task: string) returns (spec: TaskSpec)
    ensures spec == Day5Spec(task)
  {
    var t := Lower(task);
    spec := NewTaskSpec(task);
    spec := AddMentionedFiles(spec, t);
    var users, events := Contains(t, "users.csv"), Contains(t, "events.csv");
    ghost var files := spec.requiredFiles;
    if users {
      PutAppends(spec.csvRequiredColumns, "users.csv", ["user_id"]);
      spec := spec.(csvRequiredColumns := Put(spec.csvRequiredColumns, "users.csv", ["user_id"]));
      if ThreeUsers(t) {
        PutAppends(spec.csvMinRows, "users.csv", 3);
        spec := spec.(csvMinRows := Put(spec.csvMinRows, "users.csv", 3));
      } else {
        PutAppends(spec.csvMinRows, "users.csv", 1);
        spec := spec.(csvMinRows := Put(spec.csvMinRows, "users.csv", 1));
      }
    }
    ghost var cols, rows := spec.csvRequiredColumns, spec.csvMinRows;
    assert cols == UsersColumns(users);
    assert rows == UsersRows(t, users);
    if events {
      PutAppends(spec.csvRequiredColumns, "events.csv", ["event_id", "user_id"]);
      spec := spec.(csvRequiredColumns := Put(spec.csvRequiredColumns, "events.csv", ["event_id", "user_id"]));
      if TwoEvents(t) {
        PutAppends(spec.csvMinRows, "events.csv", 2);
        spec := spec.(csvMinRows := Put(spec.csvMinRows, "events.csv", 2));
      } else {
        PutAppends(spec.csvMinRows, "events.csv", 1);
        spec := spec.(csvMinRows := Put(spec.csvMinRows, "events.csv", 1));
      }
      assert spec.csvRequiredColumns == cols + EventsColumns(events);
      assert spec.csvMinRows == rows + EventsRows(t, events);
    } else {
      assert spec.csvRequiredColumns == cols + EventsColumns(events);
      assert spec.csvMinRows == rows + EventsRows(t, events);
    }
    assert spec.requiredFiles == files;
    spec := spec.(stdoutIsNumber := true);
    if Contains(t, "number of unique users") && Contains(t, "two events") {
      spec := spec.(stdoutExact := Some("2"));
    }
    spec := spec.(allowedTools := ALL_TOOLS);
  }

  /** `for f in [...]: if f in t: spec.required_files.append(f)` */
  method AddMentionedFiles(spec: TaskSpec, t: string) returns (spec': TaskSpec)
    ensures spec' == spec.(requiredFiles := spec.requiredFiles + Mentioned(t, KNOWN_FILES))
  {
    spec' := spec;
    for i := 0 to |KNOWN_FILES|
      invariant spec' == spec.(requiredFiles := spec.requiredFiles + Mentioned(t, KNOWN_FILES[..i]))
    {
      var f := KNOWN_FILES[i];
      assert KNOWN_FILES[..i + 1][..i] == KNOWN_FILES[..i];
      if Contains(t, f) {
        spec' := spec'.(requiredFiles := spec'.requiredFiles + [f]);
      }
    }
    assert KNOWN_FILES[..|KNOWN_FILES|] == KNOWN_FILES;
  }

  /** Assigning a key the dict lacks appends it. */
  lemma PutAppends<V>(d: Dict<string, V>, k: string, v: V)
    requires !HasKey(d, k)
    ensures Put(d, k, v) == d + [(k, v)]
  {
  }

  /** The required files are the known files the lower-cased task mentions,
      in the fixed order users, events, data; each CSV constraint is present
      exactly when its file is mentioned, with three users or two events
      required only when the task says so; stdout must be a number, and
      must be exactly "2" exactly when the task asks for the number of
      unique users with two events. */
  lemma Day5SpecFacts(task: string)
    ensures var t, s := Lower(task), Day5Spec(task);
      && s.requiredFiles == (if Contains(t, "users.csv") then ["users.csv"] else [])
           + (if Contains(t, "events.csv") then ["events.csv"] else [])
           + (if Contains(t, "data.csv") then ["data.csv"] else [])
      && Get(s.csvRequiredColumns, "users.csv") == (if Contains(t, "users.csv") then Some(["user_id"]) else None)
      && Get(s.csvRequiredColumns, "events.csv") == (if Contains(t, "events.csv") then Some(["event_id", "user_id"]) else None)
      && Get(s.csvMinRows, "users.csv") == (if Contains(t, "users.csv") then Some(if ThreeUsers(t) then 3 else 1) else None)
      && Get(s.csvMinRows, "events.csv") == (if Contains(t, "events.csv") then Some(if TwoEvents(t) then 2 else 1) else None)
      && s.stdoutIsNumber
      && (s.stdoutExact.Some? <==> Contains(t, "number of unique users") && Contains(t, "two events"))
      && (s.stdoutExact.Some? ==> s.stdoutExact.value == "2")
      && s.allowedTools == ALL_TOOLS
  {
    var t := Lower(task);
    MentionedKnown(t);
    GetCons(("users.csv", ["user_id"]), [("events.csv", ["event_id", "user_id"])], "events.csv");
    GetCons(("users.csv", if ThreeUsers(t) then 3 else 1), [("events.csv", if TwoEvents(t) then 2 else 1)], "events.csv");
  }

  /** The known files in their fixed order. */
  lemma MentionedKnown(t: string)
    ensures Mentioned(t, KNOWN_FILES) == (if Contains(t, "users.csv") then ["users.csv"] else [])
      + (if Contains(t, "events.csv") then ["events.csv"] else [])
      + (if Contains(t, "data.csv") then ["data.csv"] else [])
  {
    var k1, k2 := ["users.csv"], ["users.csv", "events.csv"];
    assert k1[..0] == [] && KNOWN_FILES[..2] == k2 && k2[..1] == k1;
    assert Mentioned(t, k1) == (if Contains(t, "users.csv") then ["users.csv"] else []);
    assert Mentioned(t, k2) == Mentioned(t, k1) + (if Contains(t, "events.csv") then ["events.csv"] else []);
  }

  /** `planner(task)`: the same four-line template for every task. */
  const PLAN: seq<string> := [
    "Check whether required files exist; if missing, create them using file_write with correct headers and sample rows.",
    "If files exist, open and validate headers/rows quickly (cat/head).",
    "Use python_exec to read CSVs and compute the required value.",
    "Print ONLY the final numeric answer to stdout."]

  function Planner(task: string): seq<string> {
    PLAN
  }

  /** `plan[min(step - 1, len(plan) - 1)]`; step 0 would index -1, the last
      entry, as Python does. */
  function StepHint(step: nat): string {
    PLAN[if 1 <= step <= |PLAN| then step - 1 else |PLAN| - 1]
  }

  /** The hint follows the plan one entry per step and then stays on its
      last entry. */
  lemma StepHintFacts(step: nat)
    requires step >= 1
    ensures step <= |PLAN| ==> StepHint(step) == PLAN[step - 1]
    ensures step >= |PLAN| ==> StepHint(step) == PLAN[|PLAN| - 1]
  {
  }

  /** The plan and the current step's hint, shown in every observation. */
  function Context(step: nat): seq<string> {
    PLAN + [StepHint(step)]
  }

  /** `run_day5(task)` from the workspace the reset leaves: at most 20 steps,
      stopping at the first passing verification. */
  method RunDay5(task: string, exec: Executor, router: Router, isFloat: FloatSyntax, ws: Workspace)
    returns (r: Raising<RunResult>)
    ensures r == Report(GatedRun(Day5Spec(task), exec, router, isFloat, Context, Start(ws, START_HINT), MAX_STEPS))
    ensures r.Returned? ==> |r.value.history| <= MAX_STEPS && Numbered(r.value.history)
    ensures r.Returned? && !r.value.ok ==> |r.value.history| == MAX_STEPS
    ensures r.Returned? && r.value.ok ==> (r.value.history != []
      && Passes(VerifySpec(Day5Spec(task), Some(r.value.history[|r.value.history| - 1].result), r.value.ws, isFloat)))
  {
    var spec := BuildTaskSpec(task);
    var plan := Planner(task);
    r := RunGated(spec, exec, router, isFloat, Context, ws, START_HINT, MAX_STEPS);
  }
}
