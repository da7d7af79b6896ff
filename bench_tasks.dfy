/** The fixed benchmark library: three frozen task records. */
module BenchTasks {
  import opened Wrappers
  import opened Dicts

  /** A benchmark task. Every field is a value, so a record can never change
      after construction. */
  datatype BenchTask = BenchTask(
    taskId: string,
    task: string,
    tags: seq<string>,
    expectedStdout: Option<string>,
    requiredFiles: Option<seq<string>>,
    csvRequiredColumns: Option<Dict<string, seq<string>>>,
    csvMinRows: Option<Dict<string, int>>)

  const USERS_EVENTS: BenchTask := BenchTask(
    "users_events_v1",
    "Create users.csv and events.csv on disk (must use file_write). "
    + "users.csv must have column user_id with 3 users: 1,2,3. "
    + "events.csv must have columns event_id,user_id with two events: (1,1) and (2,3). "
    + "Then print the number of unique users who have at least one event.",
    ["csv", "file_write", "verifier_first"],
    Some("2"),
    Some(["users.csv", "events.csv"]),
    Some([("users.csv", ["user_id"]), ("events.csv", ["event_id", "user_id"])]),
    Some([("users.csv", 3), ("events.csv", 2)]))

  const MEAN_CSV: BenchTask := BenchTask(
    "mean_csv_v1",
    "Read data.csv and compute the mean of column 'value'. "
    + "If the file does not exist, CREATE data.csv ON DISK using file_write "
    + "with header 'value' and three rows 10,20,30. "
    + "Then print ONLY the mean number.",
    ["csv", "mean", "file_write"],
    Some("20.0"),
    Some(["data.csv"]),
    Some([("data.csv", ["value"])]),
    Some([("data.csv", 3)]))

  const REPORT_MD: BenchTask := BenchTask(
    "report_md_v1",
    "Create a report.md ON DISK using file_write. "
    + "The report must contain a title line starting with '# ' and a bullet list with at least 3 items. "
    + "Then print ONLY the number 3 to stdout.",
    ["markdown", "file_write"],
    Some("3"),
    Some(["report.md"]),
    None,
    None)

  /** `get_task_library()` */
  function TaskLibrary(): (lib: seq<BenchTask>)
    ensures |lib| == 3
  {
    [USERS_EVENTS, MEAN_CSV, REPORT_MD]
  }

  /** Every CSV constraint of a task names a file the task also requires. */
  predicate ConstraintsOnRequiredFiles(t: BenchTask) {
    (t.csvRequiredColumns.Some? ==> forall k | 0 <= k < |t.csvRequiredColumns.value| ::
       t.requiredFiles.Some? && t.csvRequiredColumns.value[k].0 in t.requiredFiles.value)
    && (t.csvMinRows.Some? ==> forall k | 0 <= k < |t.csvMinRows.value| ::
       t.requiredFiles.Some? && t.csvMinRows.value[k].0 in t.requiredFiles.value)
  }

  /** The library's order, identifiers and constraints. */
  lemma LibraryContents()
    ensures var lib := TaskLibrary();
      && lib[0].taskId == "users_events_v1" && lib[1].taskId == "mean_csv_v1" && lib[2].taskId == "report_md_v1"
      && Get(lib[0].csvMinRows.value, "users.csv") == Some(3) && Get(lib[0].csvMinRows.value, "events.csv") == Some(2)
      && lib[0].requiredFiles == Some(["users.csv", "events.csv"])
      && lib[1].requiredFiles == Some(["data.csv"])
      && lib[2].requiredFiles == Some(["report.md"])
      && Get(lib[0].csvRequiredColumns.value, "users.csv") == Some(["user_id"])
      && Get(lib[0].csvRequiredColumns.value, "events.csv") == Some(["event_id", "user_id"])
      && Get(lib[1].csvRequiredColumns.value, "data.csv") == Some(["value"])
      && Get(lib[1].csvMinRows.value, "data.csv") == Some(3)
      && lib[0].expectedStdout == Some("2") && lib[1].expectedStdout == Some("20.0") && lib[2].expectedStdout == Some("3")
      && lib[2].csvRequiredColumns.None? && lib[2].csvMinRows.None?
  {
    var u := USERS_EVENTS.csvMinRows.value;
    assert IndexOf(u, "events.csv") == 1 by {
      assert IndexOf(u[1..], "events.csv") == 0;
    }
    var c := USERS_EVENTS.csvRequiredColumns.value;
    assert IndexOf(c, "events.csv") == 1 by {
      assert IndexOf(c[1..], "events.csv") == 0;
    }
  }

  lemma LibraryConstraintsOnRequiredFiles()
    ensures forall k | 0 <= k < |TaskLibrary()| :: ConstraintsOnRequiredFiles(TaskLibrary()[k])
  {
    assert ConstraintsOnRequiredFiles(USERS_EVENTS);
    assert ConstraintsOnRequiredFiles(MEAN_CSV);
  }
}
