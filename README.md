# LearnAgent: a verified model of the verifier-gated agent loop

LearnAgent drives a language model through bounded step loops. Each step works like this:

- The model proposes one tool call: `python_exec`, `shell_exec`, `file_write` or `pip_install`.
- A whitelist, which may depend on the current phase, keeps or replaces the call.
- An executor runs it.
- A goal verifier checks the workspace and the last output against a `TaskSpec`.

The loop ends at the first passing verification, or after `MAX_STEPS` steps.

This project models that core in Dafny and proves what it promises:

- **The goal checks.**
  - `TaskSpec`, the bench task library, the five `check_*` helpers, and the stricter `require_file`.
  - `verify`, a fixed-order chain (files, columns, rows, exact stdout, numeric stdout) that stops at its first failure.
  - The gap report the beam search scores.
  - The day-3 stop-criterion heuristics.
- **The tool-call plumbing.**
  - The `ToolCall`/`ToolResult` records.
  - `normalize_toolcall_obj`, the `robust_next_action` repair cascade, and `validate_args`.
  - The `ToolRegistryV2` table, the two executors, `python_exec`'s `_wrap_code` and its exit contract.
  - The `Guardrails` repeat counter and its overrides.
  - The phase `StateMachine`.
- **The bookkeeping.**
  - `RuleStore.add`, the `UCB1` bandit, `compute_metrics`, `score_run`, and the episode digests of `_summarize_episodes`.
  - The beam helpers: `score_by_gaps`, the bracket extraction, the brace scanner, the brace fix and the candidate filter.
- **The drivers.** Every phase controller (`agent_day2/3/5/6/8/9/11/12/13/17/18.py`) is modelled. Each has:
  - one function for a step;
  - the loop run as `Agent.Steps`, a generic step loop that stops when done or on an exception;
  - a `method` with the script's own loop, proved equal to that run;
  - lemmas stating what the loop guarantees after any number of iterations: which tools may run in which phase, that success comes only with a passing verification, and the step bounds.

How Python maps onto Dafny:

- Python dicts keep insertion order, and the code depends on it, so a dict is an association list (`Dicts`).
- Dynamic JSON values are `Values.Value`.
- Exceptions are explicit: `Wrappers.Raising<T>` is either `Returned(v)` or `Raised(e)`.
- The filesystem is a `Workspace`, a map from path to a directory or a file. A file carries its size and the rows `csv.reader` yields for it.
- The language model, the tool executor, subprocesses, float syntax, the digits of a float's `str`, and the regular expressions that are not modelled are all function-typed parameters.

Two places in the code do not fit together. Where they disagree, the model follows the called function as written:

- The loops of days 8, 11, 12, 13, 17 and 18 call `verify` with a `check_stdout` keyword and read `.gaps` from its result. But `verify` in src/agent_core/verify/verifier.py takes only `(spec, last)`, and its `VerifyResult` has no gaps. `verify` is modelled as verifier.py writes it (`Verifier.Verify`). For the loops' calls:
  - `verify(spec, last=None, check_stdout=False)` (agent_day8.py:85, agent_day12.py:57, agent_day13.py:76, agent_day17.py:59, agent_day18.py:47) is `Verifier.ArtifactCheck`, which means "checks 1-3 of `verify` pass";
  - `verify(spec, last, check_stdout=True)` (agent_day8.py:158, agent_day11.py:69, agent_day12.py:85 and :114, agent_day13.py:100, agent_day17.py:80, agent_day18.py:61) is `Verifier.Verify(spec, last)`, the whole check;
  - the `.gaps` of the artifact check (agent_day12.py:66, agent_day13.py:86, agent_day17.py:69, agent_day18.py:52) is `Verifier.ArtifactGaps`;
  - the `.gaps` of the full check (agent_day11.py:70, agent_day12.py:86, :92 and :115, agent_day13.py:101 and :113, agent_day17.py:81) is `Verifier.FullGaps`. Both are gap reports with the four keys `score_by_gaps` reads. Where the gaps only go into a saved step file (agent_day11.py:70, agent_day12.py:115, agent_day13.py:101, agent_day17.py:81), the file itself is not modelled.
- The loops pass `task=` to `execute_tool`, but src/agent_core/runtime/executor.py declares it with one argument, and its `TOOLS` registers only `python_exec`. It is modelled as written (`Executor.ExecuteTool`). Inside the loops the executor stays an abstract parameter.

## Model

| member | source | states |
|---|---|---|
| TaskSpecs.NewTaskSpec | src/agent_core/specs/task_spec.py:18-28 | a fresh spec has no required files, empty column and row maps, no stdout constraint, and the four-tool whitelist in declared order |
| ToolSchema.ParseToolName | src/agent_core/schemas/tool.py:5 | a name validates exactly when it is one of the four tool names, and the parsed name renders back to the same text |
| ToolSchema.ToolNameRoundTrip | src/agent_core/schemas/tool.py:5 | every tool call's name is one of `python_exec`, `pip_install`, `file_write`, `shell_exec`, and parsing its text gives it back |
| ToolSchema.CallWithoutArgs | src/agent_core/schemas/tool.py:6 | a call built from a name alone has empty arguments |
| ToolSchema.Success | src/agent_core/schemas/tool.py:8-12 | a successful result carries the given name and output, has `ok` set and no error |
| ToolSchema.Failure | src/agent_core/schemas/tool.py:8-12 | a failed result carries the given name and error, has `ok` false and empty output |
| ToolSchema.ValidateCall | src/agent_core/schemas/tool.py:4-6 | a dict validates as a call only when its `name` is a string naming one of the four tools; the call keeps that name |
| ToolSchema.ValidateDump | src/agent_core/schemas/tool.py:4-6 | dumping a call and validating the dump gives the same call back |
| Verifier.CheckFileExists | src/agent_core/verify/verifier.py:27-30 | passes exactly when the path exists (a directory or an empty file passes); a miss reports the path |
| Verifier.CheckStdoutIsNumber | src/agent_core/verify/verifier.py:33-41 | passes exactly when the stripped text is non-empty and parses as a float; whitespace-only text always fails |
| Verifier.CheckStdoutExact | src/agent_core/verify/verifier.py:44-48 | passes exactly when stripped stdout equals the stripped expected text, character for character ("20" differs from "20.0") |
| Verifier.MissingColumns | src/agent_core/verify/verifier.py:60-61 | holds exactly the required names absent from the header set, and never more names than were required |
| Verifier.CheckCsvHasColumns | src/agent_core/verify/verifier.py:51-64 | raises only on a directory; otherwise passes exactly when the file exists, has a header row, and every required name equals some stripped header cell |
| Verifier.DataRowCount | src/agent_core/verify/verifier.py:76 | counts at most the rows given, and is zero exactly when no row is non-empty with a non-blank cell |
| Verifier.CheckCsvMinRows | src/agent_core/verify/verifier.py:67-79 | raises only on a directory; otherwise passes exactly when the file exists, has a header, and at least `n` post-header data rows |
| Verifier.FileItems | src/agent_core/verify/verifier.py:86 | one file check per required file, in list order |
| Verifier.ColumnItems | src/agent_core/verify/verifier.py:97 | one column check per entry of the column map, in insertion order |
| Verifier.RowItems | src/agent_core/verify/verifier.py:108 | one row check per entry of the row map, in insertion order |
| Verifier.Outcomes | src/agent_core/verify/verifier.py:86-141 | one outcome per configured check, each that check run on the same workspace and stdout |
| Verifier.PassedMessages | src/agent_core/verify/verifier.py:88-110 | a run of passing checks contributes exactly one message each |
| Verifier.FirstNotPassed | src/agent_core/verify/verifier.py:89-141 | the first position that does not pass: all before it pass, and it is the end or a non-passing check |
| Verifier.ChainSkipsPassed | src/agent_core/verify/verifier.py:86-141 | passing checks only append their messages; the chain then behaves as if started after them |
| Verifier.ChainStopsAt | src/agent_core/verify/verifier.py:89-141 | the chain halts at the first failing check with the earlier messages plus its own and its hint, or raises at the first raising check |
| Verifier.ChainContinuesIff | src/agent_core/verify/verifier.py:86-143 | the chain reaches the end exactly when every check passes, with one message per check |
| Verifier.ChainAppend | src/agent_core/verify/verifier.py:86-141 | the chain over two consecutive groups of checks is the chain over the first, continued over the second only if it did not stop |
| Verifier.ChainShift | src/agent_core/verify/verifier.py:86-141 | a chain positioned after a first group of checks depends only on the second group |
| Verifier.OutcomesAppend | src/agent_core/verify/verifier.py:86-141 | the outcomes of concatenated check lists are the concatenated outcomes |
| Verifier.CheckFiles | src/agent_core/verify/verifier.py:85-94 | the required-files loop appends a message per file and stops with that file's hint at the first missing one, exactly as the check chain does |
| Verifier.CheckColumns | src/agent_core/verify/verifier.py:96-105 | the column loop agrees with the check chain over the column map: stop at the first failure or continue with every message |
| Verifier.CheckRows | src/agent_core/verify/verifier.py:107-116 | the row-count loop agrees with the check chain over the row map |
| Verifier.CheckStdout | src/agent_core/verify/verifier.py:123-143 | the exact check, then the numeric check, each only when configured, agree with the check chain over the stdout checks and end with "DONE" |
| Verifier.ChainAt | src/agent_core/verify/verifier.py:86-143 | one step of the chain: at the end it continues with the messages so far; a pass appends and moves on; a failure halts with its hint |
| Verifier.BothOutcomes | src/agent_core/verify/verifier.py:123-141 | with an exact target set, the stdout checks are the exact check followed by the numeric check, each run on the same state |
| Verifier.OneOutcome | src/agent_core/verify/verifier.py:123-141 | a single stdout check yields exactly its own outcome |
| Verifier.StdoutOutcomesShape | src/agent_core/verify/verifier.py:123-141 | the exact check's outcome comes first when configured, the numeric check's after it when configured, and nothing else |
| Verifier.CheckArtifacts | src/agent_core/verify/verifier.py:85-116 | checks 1-3 in order (files, columns, rows) agree with the chain over all artifact checks |
| Verifier.VerifySpec | src/agent_core/verify/verifier.py:82-143 | the reference meaning of `verify`: the first-failure chain over the configured checks in their fixed order; `Verifier.Verify` is proved equal to it, and `Verifier.VerifyOkIff` and `Verifier.VerifyFirstFailure` tie it to the constraints |
| Verifier.Verify | src/agent_core/verify/verifier.py:82-143 | `verify` as written (loops with early return, stdout "" when there is no last result) equals the reference check chain over the configured checks |
| Verifier.AllPassedAppend | src/agent_core/verify/verifier.py:86-141 | every check of two groups passes exactly when every check of each group passes |
| Verifier.ArtifactOutcomesPass | src/agent_core/verify/verifier.py:85-116 | the file checks all pass iff every required file exists; the column checks iff every column constraint holds; the row checks iff every row constraint holds |
| Verifier.StdoutOutcomesPass | src/agent_core/verify/verifier.py:123-141 | the stdout checks all pass iff the exact match holds (when configured) and the numeric test holds (when configured) |
| Verifier.StdoutShapePasses | src/agent_core/verify/verifier.py:123-141 | the outcomes of the stdout checks all pass exactly when each configured stdout constraint holds |
| Verifier.OutcomesPassIff | src/agent_core/verify/verifier.py:85-141 | every configured check passes exactly when the artifact constraints and the stdout constraints hold |
| Verifier.VerdictOkIff | src/agent_core/verify/verifier.py:89-143 | the verdict is ok exactly when every check passes; an ok verdict has hint "DONE" and one message per check; a failed one never has "DONE" |
| Verifier.FailedHintsNotDone | src/agent_core/verify/verifier.py:93-140 | no failing check's hint is "DONE" |
| Verifier.VerifyOkIff | src/agent_core/verify/verifier.py:82-143 | `verify` returns ok exactly when every configured constraint holds on the workspace and on the last output; then the hint is "DONE" with one message per check; a failure never carries "DONE" |
| Verifier.VerifyFirstFailure | src/agent_core/verify/verifier.py:86-141 | with the checks before `j` passing and check `j` failing, `verify` fails with check `j`'s hint and exactly the messages of checks 0 to `j`; if check `j` raises, `verify` raises |
| Verifier.FailedHint | src/agent_core/verify/verifier.py:90-141 | each kind of check fails with its own hint (missing file, header, rows, exact text, number) |
| Verifier.ItemsLayout | src/agent_core/verify/verifier.py:85-141 | the fixed order of checks: required files in list order, then column constraints, then row constraints, then the stdout checks |
| Verifier.VerifyFirstMissingFile | src/agent_core/verify/verifier.py:86-94 | the first missing required file is the one the hint names, with one message for each file up to it |
| Verifier.VerifyExactBeforeNumber | src/agent_core/verify/verifier.py:123-131 | with the artifacts in place, a failed exact match returns the exact-text hint and the numeric check never runs |
| Verifier.ExactItemFails | src/agent_core/verify/verifier.py:44-131 | a mismatching stdout fails the exact check with the stripped text, the expected text and the exact-text hint |
| Verifier.ExactFollowsArtifacts | src/agent_core/verify/verifier.py:118-124 | the exact check, when configured, is the first check after the artifact checks |
| Verifier.ArtifactPrefixPasses | src/agent_core/verify/verifier.py:85-116 | when the artifact constraints hold, every check before the stdout checks passes |
| Verifier.VerdictAtFailure | src/agent_core/verify/verifier.py:89-141 | with every earlier check passing, a failing check gives ok=false with its hint and one message per check so far |
| Verifier.DefaultSpecAcceptsAll | src/agent_core/verify/verifier.py:82-143 | a default spec configures no check, so `verify` returns ok, no messages and "DONE" for any workspace and any last result |
| Verifier.ArtifactCheck | src/agent_core/verify/verifier.py:86-116 | "artifacts ok" as the loops use it: checks 1-3 of the chain alone, raising where the chain raises; `Verifier.ArtifactCheckIff` proves it true exactly when every file, column and row constraint holds |
| Verifier.ArtifactCheckIff | src/agent_core/verify/verifier.py:86-116 | "artifacts ok" (checks 1-3 alone) is true exactly when every file, column and row constraint holds |
| Verifier.VerifyOkNeedsArtifacts | src/agent_core/verify/verifier.py:86-143 | `verify` passes only if the artifact checks alone pass |
| Verifier.MissingFiles | src/agent_core/search/beam.py:207 | the gap report's missing files are exactly the required files absent from the workspace |
| Verifier.ColumnGaps | src/agent_core/search/beam.py:208 | the gap report's column entries are exactly the column constraints that fail |
| Verifier.RowGaps | src/agent_core/search/beam.py:209 | the gap report's row entries are exactly the row constraints that fail |
| Verifier.StdoutError | src/agent_core/verify/verifier.py:123-141 | there is a stdout error exactly when a configured stdout constraint fails |
| Verifier.ArtifactGaps | src/agent_core/verify/verifier.py:86-116 | the gap report of checks 1-3, every constraint evaluated with no short circuit and an unreadable CSV counted as a gap; `Verifier.ArtifactGapsEmptyIff` proves it empty exactly when checks 1-3 pass |
| Verifier.ArtifactGapsEmptyIff | src/agent_core/verify/verifier.py:86-116 | the artifact gap report is empty exactly when the artifact constraints hold, that is exactly when checks 1-3 pass |
| Verifier.FullGaps | src/agent_core/verify/verifier.py:82-143 | the artifact gaps plus the first failing stdout check, reported only once the artifacts are in place; `Verifier.FullGapsEmptyIff` proves it empty exactly when `verify` passes |
| Verifier.FullGapsEmptyIff | src/agent_core/verify/verifier.py:82-143 | the full gap report is empty exactly when `verify` passes |
| RequireFile.RequireFile | src/agent_core/runtime/verifier.py:3-7 | true exactly when the path exists, is a regular file and has size > 0, with the OK line carrying the size; otherwise the FAIL line |
| RequireFile.RequireFileRejects | src/agent_core/runtime/verifier.py:5-7 | a missing path, a directory and an empty file are all rejected |
| RequireFile.RequireFileStricter | src/agent_core/runtime/verifier.py:5-7 | whatever `require_file` accepts the chain's existence check accepts; an existing empty file or directory passes only the latter |
| BenchTasks.TaskLibrary | src/agent_core/bench/tasks.py:22-63 | the library holds exactly three tasks |
| BenchTasks.LibraryContents | src/agent_core/bench/tasks.py:23-62 | the tasks are `users_events_v1`, `mean_csv_v1`, `report_md_v1` in that order; their required files, the columns and row minimums of `users.csv`, `events.csv` and `data.csv`, and the expected outputs "2", "20.0" and "3"; the report task has no CSV constraints |
| BenchTasks.LibraryConstraintsOnRequiredFiles | src/agent_core/bench/tasks.py:33-50 | in every task each CSV column or row constraint names a file the task also requires |
| Beam.ScoreByGaps | src/agent_core/search/beam.py:205-211 | `score_by_gaps` with weights 5, 3, 2 and 1, counting the keys of the two CSV maps; `Beam.ScoreByGapsBounds` proves it never positive and 0 exactly on an empty report |
| Beam.ScoreByGapsBounds | src/agent_core/search/beam.py:205-211 | the score is never positive, and it is 0 exactly when all four gap entries are empty or absent |
| Beam.ScoreZeroIffVerified | src/agent_core/search/beam.py:205-211 | a full gap report scores 0 exactly when `verify` passes |
| Beam.ScoreZeroIffArtifacts | src/agent_core/search/beam.py:205-211 | an artifact-only gap report scores 0 exactly when the artifact checks pass |
| Beam.ScoreByGapsFloor | src/agent_core/search/beam.py:207-211 | the score never falls below minus the weight of every constraint of the spec failing (5 per file, 3 per column path, 2 per row path, 1 for stdout) |
| Beam.MissingFilesLength | src/agent_core/search/beam.py:207 | no more files are missing than are required |
| Beam.ColumnGapsLength | src/agent_core/search/beam.py:208 | no more column paths fail than are constrained |
| Beam.RowGapsLength | src/agent_core/search/beam.py:209 | no more row paths fail than are constrained |
| Beam.ExtractFirstJsonArray | src/agent_core/search/beam.py:40-53 | `_extract_first_json_array` after the fence stripping; `Beam.ExtractFirstJsonArrayIff` proves it succeeds exactly when some '[' precedes some ']' and then returns the slice from the first '[' to the last ']' |
| Beam.ExtractFirstJsonArrayIff | src/agent_core/search/beam.py:40-53 | succeeds exactly when some '[' precedes some ']', then returns the slice from the first '[' through the last ']'; otherwise raises the no-delimiters ValueError |
| Beam.FindAtMost | src/agent_core/search/beam.py:49 | `find` returns a position no later than any occurrence |
| Beam.RFindAtLeast | src/agent_core/search/beam.py:50 | `rfind` returns a position no earlier than any occurrence |
| Beam.DepthSnoc | src/agent_core/search/beam.py:76-79 | one more character changes the brace balance by +1 for '{', -1 for '}', 0 otherwise |
| Beam.SplitTopLevelObjects | src/agent_core/search/beam.py:59-82 | the objects sit in the text in input order without overlap, each starting with '{', ending with '}', balanced and closing only at its end; no '{' lies outside them, except an unclosed trailing object, which is dropped |
| Beam.ScanOpens | src/agent_core/search/beam.py:69-73 | a '{' at depth 0 starts a new object at depth 1 |
| Beam.ScanOutside | src/agent_core/search/beam.py:68-75 | any other character at depth 0 is ignored |
| Beam.ScanInside | src/agent_core/search/beam.py:74-79 | inside an object every character is collected and the depth follows the braces |
| Beam.ScanCloses | src/agent_core/search/beam.py:78-81 | the '}' that brings the depth to 0 completes the object, which is recorded |
| Beam.OpenedSnoc | src/agent_core/search/beam.py:74-79 | an open object that takes a character and stays above depth 0 is still open |
| Beam.ClosedSnoc | src/agent_core/search/beam.py:78-81 | an open object that reaches depth 0 is a whole balanced object |
| Beam.LaidSnoc | src/agent_core/search/beam.py:81 | a whole object after the last one extends the in-order layout |
| Beam.FixBraces | src/agent_core/search/beam.py:94-95 | the brace fix of `_clean_object`; `Beam.FixBracesFacts` proves it appends one '}' exactly when '{' outnumber '}' and otherwise changes nothing |
| Beam.FixBracesFacts | src/agent_core/search/beam.py:94-95 | exactly one '}' is appended iff '{' outnumber '}', nothing changes otherwise, and an object one brace short comes out balanced |
| Beam.PyTake | src/agent_core/search/beam.py:199 | Python's `out[:k]` is a prefix of at most `k` elements, and drops `-k` from the end for negative `k` |
| Beam.FilterCandidates | src/agent_core/search/beam.py:190-199 | a non-list proposal gives no candidates; otherwise the kept entries in proposal order, capped by `out[:k]`, and a raising normalisation propagates |
| Beam.KeptStaysRaised | src/agent_core/search/beam.py:192-197 | once normalising an entry raised, the filter's outcome stays that exception |
| Beam.KeepsCallShape | src/agent_core/search/beam.py:196 | a normal form passes the filter exactly when it is a call naming an allowed tool |
| Beam.KeptAreAllowedCalls | src/agent_core/search/beam.py:192-197 | every kept candidate is a `{"name", "args"}` call with a name in `ALLOWED` and dict args |
| Beam.KeptFromSnoc | src/agent_core/search/beam.py:192-197 | keeping the next proposal's normal form keeps the chosen positions increasing |
| Beam.KeptInOrder | src/agent_core/search/beam.py:192-197 | the candidates are normal forms of dict proposals taken at increasing positions, that is in proposal order |
| Beam.CandidatesFacts | src/agent_core/search/beam.py:190-199 | at most `k` candidates, a prefix of the kept entries, each an allowed call |
| Normalize.AllowedAreToolNames | src/agent_core/llm/normalize.py:6 | `ALLOWED` is exactly the set of names a `ToolCall` accepts |
| Normalize.NormalizeCall | src/agent_core/llm/normalize.py:9-42 | a non-dict gives `{}`; any returned value is `{}` or a dict with exactly the keys `name` (a string) and `args` (a dict) |
| Normalize.Finish | src/agent_core/llm/normalize.py:37-42 | the final shape check yields `{}` or a `{"name", "args"}` call, dropping every other key |
| Normalize.NormalizeKeepsPlainCall | src/agent_core/llm/normalize.py:18-42 | a call with an allowed string name and dict args holding no nested call comes back unchanged apart from dropped extra keys |
| Normalize.NormalizeUnwrapsToolCall | src/agent_core/llm/normalize.py:21-25 | `{"name":"tool_call","args":{"name":N,"args":A}}` unwraps to `{"name":N,"args":A}` |
| Normalize.NormalizeUnwrapsPythonExec | src/agent_core/llm/normalize.py:27-31 | a `python_exec` call whose args hold `name` and `args` unwraps to the inner call |
| Normalize.NormalizeContractExamples | tests/test_normalize_contract.py:22-33 | the two contract examples: the `tool_call` wrapper and the `python_exec` nesting both unwrap to the inner call |
| Normalize.NormalizeThirdUnwrap | src/agent_core/llm/normalize.py:33-35 | under a name outside `ALLOWED` (not the wrapper), nested args replace the call |
| Normalize.NormalizeNoThirdUnwrap | src/agent_core/llm/normalize.py:33-35 | under an allowed name other than `python_exec`, nested args stay where they are |
| Normalize.NormalizeRaisesOnlyTypeError | src/agent_core/llm/normalize.py:34 | the only exception is the TypeError of an unhashable name reaching the `not in ALLOWED` test |
| Normalize.NormalizedValidates | src/agent_core/llm/normalize.py:38-42 | a non-empty normal form naming an allowed tool validates as a `ToolCall` with the same name and args |
| RobustAction.RobustNextAction | src/agent_core/llm/robust_action.py:13-58 | an admitted routed action is returned unchanged with no repair; a result without repair is always that case; after the single repair the action is the fallback or a call whose name is in `ALLOWED` and in the whitelist |
| RobustAction.RepairInputIsRejectedAction | src/agent_core/llm/robust_action.py:35-47 | the repair input is the rejected action's dump, or the empty string when the router raised |
| RobustAction.FallbackIgnoresWhitelist | src/agent_core/llm/robust_action.py:53-56 | the `shell_exec "pwd && ls -l"` fallback is returned even under a `["python_exec"]` whitelist that does not admit it |
| RobustAction.RepairedCallKept | src/agent_core/llm/robust_action.py:47-58 | an admitted repaired call keeps the repaired name and arguments |
| ValidateArgs.IsTypeFacts | src/agent_core/tools/validate_args.py:6-19 | "integer" excludes booleans, "number" admits ints, floats and booleans, and an unknown type name admits every value |
| ValidateArgs.Iterate | src/agent_core/tools/validate_args.py:37 | `for k in required` visits a list's items in order |
| ValidateArgs.FirstMissing | src/agent_core/tools/validate_args.py:37-39 | no key is reported missing exactly when every required key is present; a reported key is required and absent, and is the first one when the first is absent |
| ValidateArgs.CheckProperty | src/agent_core/tools/validate_args.py:42-45 | an argument without a property entry is not checked; a mismatch reports the declared type |
| ValidateArgs.FirstMismatch | src/agent_core/tools/validate_args.py:41-45 | a reported mismatch is an argument actually given, with its declared string type |
| ValidateArgs.Validate | src/agent_core/tools/validate_args.py:22-32 | a schema whose type is not "object" accepts anything with "OK"; under an object schema non-dict args fail with the type message |
| ValidateArgs.FirstMismatchNoneIff | src/agent_core/tools/validate_args.py:41-46 | the type loop finds no mismatch exactly when every typed, present argument has its declared type |
| ValidateArgs.ValidateOkIff | src/agent_core/tools/validate_args.py:34-46 | on a well-formed object schema validation never raises, and gives (True, "OK") exactly when all required keys are present and every typed argument matches |
| ValidateArgs.FirstMissingIff | src/agent_core/tools/validate_args.py:37-39 | with string keys the required loop never raises and finds nothing missing exactly when every required key is present |
| ValidateArgs.ValidateNamesFirstMissing | src/agent_core/tools/validate_args.py:37-45 | the first absent key in `required` order is named, before any type check |
| ValidateArgs.FirstMissingAt | src/agent_core/tools/validate_args.py:37-39 | with the keys before `i` present and key `i` hashable and absent, key `i` is the one reported |
| ValidateArgs.KeyText | src/agent_core/tools/validate_args.py:39 | `str(k)` of a required key: a string as itself, a natural number in decimal, a float through the float-text parameter |
| ValidateArgs.ValidateNamesNonStringKey | src/agent_core/tools/validate_args.py:37-39 | a hashable non-string required key is never among the string-keyed args, so after the present keys before it the message names it with `str(k)`, a float with its float text |
| ValidateArgs.ValidateFloatKeyExample | src/agent_core/tools/validate_args.py:37-39 | `{"type": "object", "required": [1.5]}` with `{}` gives `(False, "missing required arg: " + str(1.5))`, and `[7]` gives "missing required arg: 7" |
| ValidateArgs.ExtraArgsIgnored | src/agent_core/tools/validate_args.py:41-45 | an argument the schema does not describe never affects the type check |
| RegistryV2.Registered | src/agent_core/tools/registry_v2.py:20-23 | registering raises exactly when the name is already present |
| RegistryV2.RegisteredGet | src/agent_core/tools/registry_v2.py:20-26 | after registering a fresh name, `get` of it returns the new spec, every other lookup is unchanged, and the name joins the key order at the end |
| RegistryV2.RegisteredWellKeyed | src/agent_core/tools/registry_v2.py:20-23 | registration keeps each entry under its own name with no name twice |
| RegistryV2.Card | src/agent_core/tools/registry_v2.py:35-39 | a tool card is the description line and the schema line, plus a safety line exactly when the notes are non-empty |
| RegistryV2.CardsLength | src/agent_core/tools/registry_v2.py:33-39 | the prompt has two lines per tool plus one per tool with safety notes |
| RegistryV2.ToolRegistry.constructor | src/agent_core/tools/registry_v2.py:17-18 | a new registry is empty |
| RegistryV2.ToolRegistry.Register | src/agent_core/tools/registry_v2.py:20-23 | a taken name raises and leaves the table unchanged; otherwise the table gains the new entry and keeps the others |
| RegistryV2.ToolRegistry.GetTool | src/agent_core/tools/registry_v2.py:25-26 | `get` returns a spec exactly when the name is registered, and that spec carries the name; otherwise None |
| RegistryV2.ToolRegistry.Names | src/agent_core/tools/registry_v2.py:28-29 | the names are the registered keys, each once, strictly ascending |
| RegistryV2.ToolRegistry.ToPrompt | src/agent_core/tools/registry_v2.py:31-40 | the loop joins, with newlines, the cards of all tools in ascending name order |
| RegistryV2.CardsStep | src/agent_core/tools/registry_v2.py:34-39 | each loop iteration appends exactly that tool's card |
| RegistryV2.NamesDistinct | src/agent_core/tools/registry_v2.py:29 | sorting the distinct keys gives distinct names |
| RegistryV2.TwoOccurrences | src/agent_core/tools/registry_v2.py:28-29 | a name at two positions of a list occurs at least twice in it, which is what rules out repeated names in `names()` |
| RegistryV2.DistinctCount | src/agent_core/tools/registry_v2.py:20-23 | in a table with distinct keys each name occurs at most once among the keys |
| RegistryV2.EmptyPrompt | src/agent_core/tools/registry_v2.py:31-40 | an empty registry renders as "" |
| ToolExecutorV2.ExecuteToolV2 | src/agent_core/tool_executor_v2.py:10-23 | the result always names `call.name`; an unregistered name gives ok=false, output "" and "Unknown tool" without calling the tool |
| ToolExecutorV2.ExecuteRegistered | src/agent_core/tool_executor_v2.py:15-23 | for a registered tool: failing validation gives "Bad args: " plus the message with no call; a string return gives ok=true and that output with no error; any other return fails the result's own validation and gives ok=false, "" and that error's text; an exception gives ok=false, "" and its text |
| Executor.ExecuteTool | src/agent_core/runtime/executor.py:4-13 | the result always names `call.name`; a name absent from `TOOLS` gives ok=false, "" and "Unknown tool" |
| Executor.OnlyPythonExecRuns | src/agent_core/runtime/executor.py:5-7 | `shell_exec`, `file_write` and `pip_install` always fail as unknown; any success is a `python_exec` call with no error |
| Executor.PythonExecDispatch | src/agent_core/runtime/executor.py:9-13 | a `python_exec` call succeeds exactly when the tool returns, with its output; otherwise the error is the exception's text |
| PythonExec.WrapCode | src/agent_core/tools/python_exec.py:5-13 | the code is stripped first; stripped code containing "print(", a newline or ";" runs as is, anything else becomes "print(" + code + ")" |
| PythonExec.WrapCodeIdempotent | src/agent_core/tools/python_exec.py:5-13 | every wrapped program is stripped and already passes the no-wrap test, so wrapping twice equals wrapping once |
| PythonExec.WrappedIsStripped | src/agent_core/tools/python_exec.py:13 | a `print(...)` wrapping has no edge whitespace and contains "print(" |
| PythonExec.PythonExecTool | src/agent_core/tools/python_exec.py:15-23 | missing, non-string or blank code raises the ValueError |
| PythonExec.PythonExecExitContract | src/agent_core/tools/python_exec.py:33-38 | exit 0 returns stripped stdout; a nonzero exit raises with stripped stderr, or "python exited with code N" when stderr is blank |
| PythonExec.PythonExecRejectsBeforeRunning | src/agent_core/tools/python_exec.py:21-25 | rejected code never reaches the interpreter: the outcome does not depend on the subprocess |
| Guardrails.RunLengthBound | src/agent_core/runtime/guardrails.py:14-20 | a repeat count never exceeds the number of tracks before the last |
| Guardrails.RunLengthRun | src/agent_core/runtime/guardrails.py:14-20 | the repeat count is exactly the number of immediately preceding tracks with the same signature: those are all equal, and the one before them differs |
| Guardrails.RunLengthSnoc | src/agent_core/runtime/guardrails.py:16-20 | one more track adds 1 to the count when it repeats the last signature and resets it to 0 otherwise |
| Guardrails.FirstQuoted | src/agent_core/runtime/guardrails.py:62 | a found text is the leftmost non-empty, quote-free text between single quotes, as `re.search` returns it; when nothing is found no quoted text exists |
| Guardrails.QuotedAtEnds | src/agent_core/runtime/guardrails.py:62 | a match starts and ends with a quote and its first character follows the opening quote |
| Guardrails.NoQuoteNoMatch | src/agent_core/runtime/guardrails.py:62-63 | text without a quote has no match, so the path falls back to "unknown_file.txt" |
| Guardrails.OneQuoteNoMatch | src/agent_core/runtime/guardrails.py:62-63 | text with a single quote has no match |
| Guardrails.QuotedShift | src/agent_core/runtime/guardrails.py:62 | a match after position `p` is a match of the text after `p` |
| Guardrails.ShiftQuoted | src/agent_core/runtime/guardrails.py:62 | an empty pair of quotes is skipped: the search goes on from the second quote |
| Guardrails.InferMissingPath | src/agent_core/runtime/guardrails.py:58-63 | `_infer_missing_path`: the leftmost single-quoted text, else "unknown_file.txt"; `Guardrails.FirstQuoted` proves the match is the leftmost one and `Guardrails.NoQuoteNoMatch` the fallback |
| Guardrails.Override | src/agent_core/runtime/guardrails.py:22-56 | `intervene` on a given count: the missing-file rule, then the shell repeat rule, else None; `Guardrails.OverrideFacts` proves that order and that an override is always the sample write |
| Guardrails.OverrideFacts | src/agent_core/runtime/guardrails.py:33-63 | a "no such file or directory" error (any case) always gets a `file_write` of the quoted path of the lowercased error, taking precedence; otherwise a `shell_exec` is overridden exactly from the second repeat on and nothing else is; every override writes "__LLM_GENERATE_SAMPLE__" |
| Guardrails.Guardrails.constructor | src/agent_core/runtime/guardrails.py:7-9 | a new guard has no last signature and a count of 0 |
| Guardrails.Guardrails.Track | src/agent_core/runtime/guardrails.py:14-20 | the same signature as last increments the count, a new one is recorded with the count reset; the count stays the length of the trailing run of identical signatures among all tracks |
| Guardrails.Guardrails.Intervene | src/agent_core/runtime/guardrails.py:22-56 | the override rule on the guard's current count; it reads the guard and changes neither field |
| StateMachine.PhaseTable | src/agent_core/loop/state_machine.py:16 | the comprehension's table holds each name at most once |
| StateMachine.StateMachine.Get | src/agent_core/loop/state_machine.py:18-19 | `get` raises KeyError(name) exactly when no phase has that name |
| StateMachine.NewStateMachine | src/agent_core/loop/state_machine.py:15-16 | the constructed machine's table has distinct names |
| StateMachine.PhaseTableGet | src/agent_core/loop/state_machine.py:16 | the table holds a name exactly when some phase in the list has it, and then holds the last phase of that name |
| StateMachine.PhaseTableHas | src/agent_core/loop/state_machine.py:16 | a name is in the table exactly when some phase has it |
| StateMachine.PhaseTableLast | src/agent_core/loop/state_machine.py:16 | with duplicate names, the last phase in the list wins |
| StateMachine.NamedSnoc | src/agent_core/loop/state_machine.py:16 | a name occurs in a list exactly when it occurs before the last phase or is the last phase's |
| StateMachine.LastNamedSnoc | src/agent_core/loop/state_machine.py:16 | a later phase with another name does not change which phase is the last one called `n` |
| StateMachine.GetLastNamed | src/agent_core/loop/state_machine.py:15-19 | `get(name)` on a machine built from a list returns the last phase of that name, and raises KeyError when no phase has it |
| StateMachine.PhaseTableKeys | src/agent_core/loop/state_machine.py:16 | the table's key set is exactly the set of names in the list |
| RuleStore.CleanAll | src/agent_core/learning/rule_store.py:28-29 | each incoming rule is stripped, a missing one read as "" |
| RuleStore.FirstAt | src/agent_core/learning/rule_store.py:28-31 | the first position of a rule in the input, or past the end when absent |
| RuleStore.RuleStore.constructor | src/agent_core/learning/rule_store.py:9-12 | a new store has the default path and no rules |
| RuleStore.RuleStore.Add | src/agent_core/learning/rule_store.py:26-32 | the loop with its mirror set leaves exactly the reference list: old rules, then each new non-blank stripped rule not seen before; the path is untouched |
| RuleStore.AddedPrefix | src/agent_core/learning/rule_store.py:26-32 | existing rules stay an unchanged prefix, in their order |
| RuleStore.AddedFresh | src/agent_core/learning/rule_store.py:29-31 | every appended rule is non-blank, came from the input, and was not already held |
| RuleStore.AddedContainsAll | src/agent_core/learning/rule_store.py:29-32 | every non-blank stripped input rule is in the list afterwards |
| RuleStore.AddedNoDuplicates | src/agent_core/learning/rule_store.py:27-32 | a duplicate-free list stays duplicate-free, even when the input repeats a rule |
| RuleStore.AddedInInputOrder | src/agent_core/learning/rule_store.py:28-31 | appended rules come in the order of their first appearance in the input |
| RuleStore.AddedCovered | src/agent_core/learning/rule_store.py:30 | adding rules the list already holds changes nothing |
| RuleStore.AddedIdempotent | src/agent_core/learning/rule_store.py:26-32 | `add(xs)` twice leaves the same list as `add(xs)` once |
| Bandit.MeanFacts | src/agent_core/learning/bandit.py:13-15 | the mean times the pull count is the total reward when pulled, and 0.0 before the first pull |
| Bandit.Scores | src/agent_core/learning/bandit.py:33-37 | one UCB score per arm, in insertion order, each against the total pull count |
| Bandit.Best | src/agent_core/learning/bandit.py:34-40 | a position among the arms scanned, or -1 |
| Bandit.BestIsFirstMax | src/agent_core/learning/bandit.py:34-41 | the chosen arm has a score above -1e9, no lower than any other and strictly above every earlier one (strict `>` keeps the first of equals); -1 means no score beats -1e9 |
| Bandit.BestStep | src/agent_core/learning/bandit.py:38-40 | one more arm becomes the best exactly when its score beats the best so far |
| Bandit.FirstUnexplored | src/agent_core/learning/bandit.py:29-31 | the first arm in insertion order with n == 0, or -1 exactly when every arm has been pulled |
| Bandit.UCB1.constructor | src/agent_core/learning/bandit.py:18-21 | a new bandit has no arms and c = 1.0 |
| Bandit.UCB1.AddArm | src/agent_core/learning/bandit.py:23-25 | a new name gets a zeroed arm at the end; an existing arm's stats are untouched |
| Bandit.UCB1.Update | src/agent_core/learning/bandit.py:44-47 | the named arm gains one pull and the reward; an unknown arm raises KeyError and changes nothing; no other arm changes |
| Bandit.UCB1.Select | src/agent_core/learning/bandit.py:27-42 | the first unpulled arm if any; otherwise the first arm of highest score; the result is always a registered arm, and with no arms the assertion fails |
| Bandit.FindUnexplored | src/agent_core/learning/bandit.py:29-31 | the exploration loop returns the first arm never pulled |
| Bandit.TotalPulls | src/agent_core/learning/bandit.py:33 | `t` is the sum of all pull counts |
| Bandit.BestArm | src/agent_core/learning/bandit.py:34-42 | the scoring loop picks the first arm of highest score above -1e9, or none |
| Metrics.NameOf | src/agent_core/eval/metrics.py:15 | `action.get("name")` is None both for a missing name and for JSON null, and is the stored name otherwise |
| Metrics.PyKey | src/agent_core/eval/metrics.py:16 | a name's class under Python `==`: None and null are one, `True`/`False` equal 1/0, an integral float equals its int, and a string equals only itself |
| Metrics.NameCount | src/agent_core/eval/metrics.py:15-16 | no tool is counted more often than there are entries |
| Metrics.Errors | src/agent_core/eval/metrics.py:18-19 | at most one error per entry |
| Metrics.Repeats | src/agent_core/eval/metrics.py:21-24 | the first entry never repeats, so repeats are at most one less than the entries |
| Metrics.BumpGet | agent_day8.py:134 | `tool_counts[k] = tool_counts.get(k, 0) + 1` on string keys raises that key's count by one and leaves every other lookup alone |
| Metrics.BumpDistinct | agent_day8.py:134 | the string-keyed counter keeps one entry per key |
| Metrics.BumpSum | agent_day8.py:134 | each bump adds one to the total count |
| Metrics.PyBumpClasses | src/agent_core/eval/metrics.py:16 | `tool_counts[name] += 1` on a `Counter` acts on the classes of `==` names exactly as a bump of the class, so it raises the count of every name `==` to `name` by one, leaves every other name's count alone, and keeps no two keys `==` |
| Metrics.PyBumpKeys | src/agent_core/eval/metrics.py:16 | every existing key stays in place, so the key kept for a class is the first one seen; a name `==` to no key is appended |
| Metrics.PyBumpSum | src/agent_core/eval/metrics.py:16 | each bump adds one to the total count |
| Metrics.CountedCons | src/agent_core/eval/metrics.py:16 | `name in counter` holds exactly when the first key is `==` to the name or the name is in the rest |
| Metrics.CountOfStr | src/agent_core/eval/scoring.py:8 | looking a string up by Python `==` finds the count that a lookup of that exact key finds |
| Metrics.CounterKeys | src/agent_core/eval/metrics.py:11-16 | every key of the counter is the name of one of the counted entries |
| Metrics.CounterClasses | src/agent_core/eval/metrics.py:11-16 | no two keys are `==`; every name's count is the number of entries whose name is `==` to it, and a name is a key exactly when that number is positive |
| Metrics.CounterSum | src/agent_core/eval/metrics.py:11-16 | the counts add up to the number of entries |
| Metrics.CounterCounts | src/agent_core/eval/metrics.py:11-16 | the counter holds one key per class of `==` tool names used, that key being a name some entry calls, with the number of entries whose name is `==` to it, and the counts add up to the number of entries |
| Metrics.Tally | src/agent_core/eval/metrics.py:12-24 | one pass of the loop body keeps the counter, the error count, the repeat count and the last signature equal to their values over the entries seen |
| Metrics.ComputeMetrics | src/agent_core/eval/metrics.py:4-35 | raises exactly when some name cannot be a counter key; otherwise `steps` is the history length, the counts are those of the history's names grouped by Python `==`, errors and repeats are those of the history, and overrides are 0 |
| Metrics.CounterMergesEqualNames | src/agent_core/eval/metrics.py:15-16 | a missing and a null name count as one key None; `1`, `True` and `1.0` count as one key, the `1` seen first |
| Metrics.MetricsFacts | src/agent_core/eval/metrics.py:15-35 | the tool counts are exact and sum to the number of steps; errors are at most the steps; repeats are fewer than the steps; an empty history gives all zeros and no counts |
| Scoring.ScoreRun | src/agent_core/eval/scoring.py:3-18 | `score_run` as successive updates of one running score, missing counts read as 0; `Scoring.ScoreIsLinear` proves it the closed linear formula |
| Scoring.ScoreIsLinear | src/agent_core/eval/scoring.py:11-17 | the score is 130 (success) or 70 (failure) less 3 per step, 10 per error, 2 per repeat, 15 per `pip_install` and 5 per override |
| Scoring.ScoreSuccessGap | src/agent_core/eval/scoring.py:17 | for equal metrics, success scores exactly 60 more than failure |
| Scoring.ScoreMonotone | src/agent_core/eval/scoring.py:12-16 | raising any counted quantity, lowering none, strictly lowers the score; changing none keeps it |
| Scoring.ScoreMissingAsZero | src/agent_core/eval/scoring.py:8-9 | a missing `pip_install` count and a missing `guardrail_overrides` key score as recorded zeros |
| Scoring.ScoreOfHistoryBounds | src/agent_core/eval/scoring.py:11-17 | a recorded history scores at most 130 or 70 less 3 per step, and at least that base less 30 per step |
| Reflection.SlimStepsStayRaised | src/agent_core/llm/reflection.py:32-42 | once a step raises, the inner loop's outcome stays that exception |
| Reflection.SlimStepsPointwise | src/agent_core/llm/reflection.py:31-42 | the inner loop succeeds exactly when every step slims down, giving one slim step per step, in order |
| Reflection.SliceStart | src/agent_core/llm/reflection.py:30 | Python's `hist[-n:]` starts within the list |
| Reflection.Chars | src/agent_core/llm/reflection.py:30-32 | a string history is walked as its one-character strings, none of them a dict |
| Reflection.SummariesStayRaised | src/agent_core/llm/reflection.py:28-43 | once an episode raises, the outer loop's outcome stays that exception |
| Reflection.SlimHistory | src/agent_core/llm/reflection.py:31-42 | the inner loop appends the slim form of each step to `slim` in order, or raises with the first failing step |
| Reflection.SummarizeEpisode | src/agent_core/llm/reflection.py:29-43 | the digest of one episode: its task (default "") and its slimmed last steps; `Reflection.KeepsLastSteps` and `Reflection.MissingTaskIsEmpty` prove what survives, `Reflection.SummarizeOne` that the loop computes it |
| Reflection.SummarizeOne | src/agent_core/llm/reflection.py:29-43 | one outer pass slices the history, runs the inner loop and builds the digest with its task |
| Reflection.SummarizeEpisodes | src/agent_core/llm/reflection.py:23-44 | the outer loop appends one digest per episode to `out` in order, or raises with the first failing episode |
| Reflection.SummariesPerEpisode | src/agent_core/llm/reflection.py:27-44 | when no episode raises, exactly one digest per input episode, in order |
| Reflection.SummariesFirstFailure | src/agent_core/llm/reflection.py:28-43 | otherwise the result is the exception of the first failing episode |
| Reflection.KeepsLastSteps | src/agent_core/llm/reflection.py:29-30 | a digest keeps the last min(len, n) steps in order for positive n (Python's slice rules for 0 and negative n) |
| Reflection.DefaultKeepsEight | src/agent_core/llm/reflection.py:23-30 | with the default cap at most 8 steps survive per episode |
| Reflection.CutTextFacts | src/agent_core/llm/reflection.py:39-40 | a falsy output or error becomes ""; text is cut to its first 300 characters and left alone when shorter |
| Reflection.SlimStepShape | src/agent_core/llm/reflection.py:33-42 | only `step`, `action` and `result{name, ok, output, error}` survive; a missing action becomes `{}` and a missing output "" |
| Reflection.MissingTaskIsEmpty | src/agent_core/llm/reflection.py:43 | a missing task becomes "" |
| Day3Done.DataCsvIsCsv | agent_day3.py:49 | the `"data.csv" in t` alternative adds nothing: it implies `".csv" in t` |
| Day3Done.InferDoneSpec | agent_day3.py:31-53 | `infer_done_spec` on the lowercased task; `Day3Done.InferDoneSpecRules` proves its four rules and their order |
| Day3Done.InferDoneSpecRules | agent_day3.py:31-53 | on the lowercased task: a "save (it) as" name gives a file criterion; else `plot.png`; else a number criterion iff mean/average and ".csv" are mentioned; else the regex ".+"; exactly one criterion is set |
| Day3Done.InferredFileName | agent_day3.py:38-47 | an inferred file name is non-empty, made of path characters, has no capital letter, and occurs in the lowercased task |
| Day3Done.CheckDone | agent_day3.py:56-71 | `check_done` on a result; `Day3Done.CheckDoneRules` proves the numeric rule first, then the regex rule, and never done on a file-only criterion |
| Day3Done.CheckDoneRules | agent_day3.py:56-71 | the numeric rule wins over the regex and holds exactly when the output holds a Unicode decimal digit (what `\d` matches) anywhere; the regex rule is the search on the stripped output; a file-only criterion never holds here |
| Day3Done.StripKeepsDigits | agent_day3.py:57-60 | stripping the output neither adds nor removes a digit |
| Day3Done.DigitSurvives | agent_day3.py:57-60 | a digit of the raw output is still in the stripped output |
| Day3Done.DigitFromStrip | agent_day3.py:57-60 | a digit of the stripped output comes from the raw output |
| Day3Done.CheckDoneUnicodeDigits | agent_day3.py:59-63 | an Arabic-Indic, a fullwidth or a mathematical digit makes the output numeric; a Roman numeral, which is no decimal digit, does not |
| Day3Done.CheckDoneDefault | agent_day3.py:52-68 | under the default ".+" criterion a step is done exactly when the stripped output is not blank |
| Day3Done.Judge | agent_day3.py:194-211 | the loop's done decision after a tool result, through `verify_file_exists` or `check_done`; `Day3Done.JudgeFacts` proves that a failed result is never judged done |
| Day3Done.JudgeFacts | agent_day3.py:74-211 | a failed tool result skips the done check; a file criterion holds only for a successful, non-blank listing without "No such file"; a stdout criterion runs nothing and is `check_done` on the result |
| Day3Rules.KeptShape | agent_day3.py:127 | the comprehension keeps at most the given rules, at increasing positions |
| Day3Rules.KeptValues | agent_day3.py:127 | each kept rule is the non-empty image of the rule at its position |
| Day3Rules.KeptComplete | agent_day3.py:127 | every rule whose image is non-empty is kept |
| Day3Rules.ExtrasFacts | agent_day3.py:127 | the learned rules are stripped with blanks dropped, in order, and every non-blank one is kept |
| Day3Rules.ExtrasTrimmed | agent_day3.py:127 | every kept learned rule has no edge whitespace |
| Day3Rules.CappedParts | agent_day3.py:129 | `(base + extras)[:10]` keeps the base whole, then as many extras as fit, all when they fit |
| Day3Rules.BaseRulesSize | agent_day3.py:110-125 | five base rules for a CSV mean or average task and four otherwise |
| Day3Rules.CompileRules | agent_day3.py:107-130 | `compile_rules`; `Day3Rules.CompileRulesFacts` proves base rules first, then the stripped learned rules, at most ten |
| Day3Rules.CompileRulesFacts | agent_day3.py:107-130 | the base rules come first (5 or 4), then the kept learned rules in order, at most ten entries in all |
| Day3Text.PathRun | agent_day3.py:41-43 | the greedy `[\w\-.\/]+` run at a position: within the text, all path characters, and stopped by a non-path character or the end |
| Day3Text.PathRunCovers | agent_day3.py:41-43 | any run of path characters at a position is no longer than the greedy one |
| Day3Text.FirstSaveAs | agent_day3.py:41-43 | `re.search` scans left to right: the first position where the "save as" pattern matches, and no match before it, or none anywhere |
| Day3Text.SaveAsNameFacts | agent_day3.py:41-43 | a name is captured exactly when "save as " or "save it as " is followed by a path character; it is then a non-empty run of path characters right after those words |
| Day3Text.SaveAsAtStart | agent_day3.py:41-43 | the pattern matches at a position exactly when one of its two forms starts there |
| Day3Text.SaveAsAtFacts | agent_day3.py:41-43 | a match at a position captures a non-empty run of path characters following its introducing words |
| Day3Text.RunIsPiece | agent_day3.py:41-43 | the greedy run is a piece of the text made of path characters |
| Day3Text.LastCsv | agent_day3.py:92 | the last `.csv` in a window, with none after it, or none at all |
| Day3Text.FirstCsv | agent_day3.py:92 | the first position from which `[\w\-.\/]+\.csv` matches, or none anywhere |
| Day3Text.CsvMentionFacts | agent_day3.py:92 | a `.csv` name is found exactly when `.csv` follows a path character; it has at least five path characters, ends in `.csv` and is taken from the text |
| Day3Text.CsvAtFacts | agent_day3.py:92 | a match ends with a `.csv` that follows a path character, and is a run of path characters from the text |
| Day3Text.CsvAtEnd | agent_day3.py:92 | `.csv` right after a path character makes the pattern match one character earlier |
| Day3Text.LoweredPiece | agent_day3.py:38-91 | a piece taken from lowered text has no capital letter |
| Day3.MaybeAddFilePreview | agent_day3.py:85-103 | the file preview of the observation; `Day3.PreviewFacts` proves it only appends and runs nothing when the task names no `.csv` file |
| Day3.PreviewFacts | agent_day3.py:85-103 | the preview only appends to the observation; a task naming no `.csv` file runs nothing; otherwise the `head -n 5` of a lowercase `.csv` path from the task runs |
| Day3.Sigs | agent_day3.py:163 | one signature per proposal, in order |
| Day3.SignatureIgnoresOrder | agent_day3.py:163 | two calls that differ only in argument order are different actions with equal sorted-key signatures |
| Day3.SigOfPair | agent_day3.py:163 | the signature of a two-argument call holds exactly its two pairs |
| Day3.GuardCountsNoMore | agent_day3.py:163-168 | the guardrail's repeat run on whole calls is never longer than the soft counter's run on signatures |
| Day3.RepeatedTwice | agent_day3.py:164-170 | the repeat count reaches the limit of two exactly when the last three signatures are equal |
| Day3.EpisodeStepKeeps | agent_day3.py:152-211 | one step keeps the episode record: numbered history entries, each action the proposal or the sample write, done only after a successful tool result |
| Day3.EpisodeRunInvariant | agent_day3.py:152-211 | the episode record holds after every number of steps |
| Day3.RunEpisodeOutcome | agent_day3.py:134-214 | unless the model raises: at most twelve history entries numbered from one, all twelve when not done; done only on a step whose tool succeeded; every executed action the model's proposal or the guardrail's sample write |
| Day3.Step | agent_day3.py:152-211 | a pass of the loop body computes the step of the functional model, and the guardrail and the soft counter have then seen every proposal |
| Day3.CountRepeat | agent_day3.py:163-177 | the soft counter keeps counting consecutive like signatures, and the notice is due exactly when the last three signatures are equal |
| Day3.Guard | agent_day3.py:180-184 | the guardrail tracks the proposal and what runs is its override, or the proposal when it has none |
| Day3.Execute | agent_day3.py:186-211 | the rest of a pass: tool, history entry, new observation, and the done check unless the tool failed |
| Day3.RunEpisode | agent_day3.py:134-214 | `run_episode` returns what the functional model of twelve steps reports |
| Day3.Loop | agent_day3.py:152-214 | the loop returns at the first done step, or after twelve, with the functional model's report |
| Day2.ObservationTells | agent_day2.py:26-29 | the observation starts with "SUCCESS:" exactly when the tool succeeded, and then carries its output; otherwise "ERROR:" and the error |
| Day2.GoalCheckedAfterFailure | agent_day2.py:23-39 | the goal check ignores the tool result: a failed call that leaves a non-empty `plot.png` ends the loop |
| Day2.Day2StepKeeps | agent_day2.py:17-39 | one step keeps the record: one workspace per step, and the loop stopped exactly when the newest holds the goal and no earlier one did |
| Day2.Day2RunInvariant | agent_day2.py:17-39 | the record holds after every number of steps |
| Day2.AgentLoopOutcome | agent_day2.py:7-41 | unless the model raises: the loop returns at the first of at most twelve steps whose workspace has a non-empty `plot.png`, and raises `RuntimeError` after twelve steps without one |
| Day2.Step | agent_day2.py:18-39 | a pass of the loop body computes the functional model's step |
| Day2.AgentLoop | agent_day2.py:9-41 | `agent_loop` returns or raises as the functional model of twelve steps reports |
| Agent.AllowedForPhasePartition | agent_day12.py:40-41 | the two phases split the four tools: `python_exec` is admitted exactly once the artifacts are in place, every other tool exactly before; the directory listing is admitted only before |
| Agent.EnforceFacts | agent_day5.py:122-125 | an admitted action is kept and any other becomes the `pwd && ls -l` listing; with all four tools admitted nothing is replaced |
| Agent.ToSpecFacts | agent_day6.py:24-36 | copying only the non-empty bench fields loses nothing: the spec carries the task's constraints (missing ones empty), a numeric stdout, the exact stdout exactly when given, and all four tools |
| Agent.StepsInduct | agent_day5.py:114-144 | what holds at the start and is kept by each iteration of a step loop holds after any number of iterations that returned |
| Agent.StepsNext | agent_day5.py:114-144 | an iteration from a state that has not stopped runs the loop body |
| Agent.StepsStay | agent_day5.py:138-142 | a loop that returned or raised takes no further step |
| Agent.RecordStep | agent_day5.py:123-138 | a step that appends one numbered entry with an admitted tool and verifies the workspace it left keeps the run record |
| Agent.GatedRunInvariant | agent_day5.py:114-144 | after any number of iterations: numbered entries, admitted tools, a passing run stopped at a passing verification, a failing one took every step and carries the failed verification's hint |
| Agent.GatedStepKeeps | agent_day5.py:115-144 | a step of a run that has not passed keeps the record and the hint |
| Agent.RunGated | agent_day5.py:110-149 | the whitelist-and-verify loop returns the functional model's report: at most the step limit of numbered entries, every tool admitted or the listing, all steps taken on failure, and success only after a passing verification of the last result and workspace |
| Agent.RunStep | agent_day5.py:115-144 | a pass of the body computes the functional model's step: route, whitelist, execute, record, verify |
| Day5.BuildTaskSpec | agent_day5.py:25-66 | the spec built by appends and assignments equals the field-by-field description of `build_task_spec` |
| Day5.AddMentionedFiles | agent_day5.py:34-36 | the loop appends the known files the task mentions, in list order, and changes nothing else |
| Day5.PutAppends | agent_day5.py:41-55 | assigning a key a dict lacks appends the pair at the end |
| Day5.Day5SpecFacts | agent_day5.py:25-66 | required files are the mentioned ones among users, events, data in that order; each CSV constraint is present exactly when its file is mentioned, the row minimum three or two only on the task's wording; stdout numeric, and exactly "2" exactly when the task asks for unique users with two events; all four tools |
| Day5.MentionedKnown | agent_day5.py:34-36 | the mentioned known files, in their fixed order |
| Day5.StepHintFacts | agent_day5.py:115 | the step hint follows the plan one entry per step and then stays on its last entry |
| Day5.RunDay5 | agent_day5.py:99-149 | `run_day5` runs at most 20 steps of the shared loop with the built spec and plan hints; it fails only after all 20, and succeeds only after a passing verification |
| Day6.TaskToSpec | agent_day6.py:24-36 | the spec assigned field by field is the shared bench-task spec |
| Day6.RunTask | agent_day6.py:54-98 | `run_task` runs at most 25 steps of the shared loop; it fails only after all 25, and succeeds only after a passing verification |
| Day6.RunTaskKeepsProposals | agent_day6.py:72-93 | with all four tools admitted, each step executes exactly the router's action, keeps earlier entries, and carries the failed verification's hint forward |
| Day8.Override | agent_day8.py:104-132 | the phase whitelist override; `Day8.OverrideAdmitted` proves its result always admitted by the phase and admitted proposals kept |
| Day8.OverrideAdmitted | agent_day8.py:88-131 | the phase override always yields a call the phase admits, keeps exactly the admitted proposals, and is `python_exec` exactly in the compute phase |
| Day8.Choose | agent_day8.py:104-149 | the override, the count, the streak and the forced `print(0)`; `Day8.ChooseFacts` proves the executed call admitted by the phase |
| Day8.ChooseFacts | agent_day8.py:104-149 | the executed call is admitted by the phase, `python_exec` exactly once the artifacts are in place; the overridden call is counted and compared with the previous tool; `print(0)` replaces it in the compute phase once the streak reaches 5 |
| Day8.Failures | agent_day8.py:154-155 | the failed results are at most the recorded steps |
| Day8.Streak | agent_day8.py:136-141 | the trailing repeat count is less than the number of recorded steps |
| Day8.TallySum | agent_day8.py:134 | the per-tool counts add up to the number of recorded steps |
| Day8.OnceStepAdmits | agent_day8.py:80-169 | one step appends one numbered entry whose tool the phase of the current workspace admits, `python_exec` exactly when the artifacts hold, `print(0)` on a long compute streak; `ok` is the full verification's verdict and a failure keeps its hint |
| Day8.OnceStepCounts | agent_day8.py:81-155 | a step keeps `steps`, `errors`, `tool_counts`, the streak and the previous tool in step with the recorded history |
| Day8.CountedStep | agent_day8.py:134-155 | appending an entry and counting it as the loop does keeps the counters equal to those of the history |
| Day8.OnceStepKeeps | agent_day8.py:80-169 | a step of a run that has not passed keeps the run record and the counters |
| Day8.OnceStepperKeeps | agent_day8.py:80-169 | every step the loop can take keeps the invariant |
| Day8.OnceRunInvariant | agent_day8.py:80-169 | after any number of iterations the run record and the counters hold |
| Day8.OutcomeFacts | agent_day8.py:60-176 | the reported counts add up to the steps; between one and 25 steps, all 25 on failure; `errors` counts the failed results; the score is 100 on success, less three per error and one per step, so 0..99 on success and -100..-25 on failure |
| Day8.BuildSpec | agent_day8.py:29-41 | `to_spec(bt)` is the shared bench-task spec |
| Day8.ChooseCall | agent_day8.py:104-149 | the override, count, streak and forced call computed step by step equal the functional choice |
| Day8.Step | agent_day8.py:81-169 | a pass of the body computes the functional model's step |
| Day8.FinishStep | agent_day8.py:151-169 | executing the chosen call and verifying computes the functional model's rest of the step |
| Day8.Loop | agent_day8.py:80-169 | the loop computes the functional model's run of at most the step limit |
| Day8.RunOnce | agent_day8.py:60-176 | `run_once` returns the report of the functional model's 25-step run with the bench spec and the rules given or none |
| Day9.PlannerPost | agent_day9.py:50-56 | the plan has one to six entries, each stripped |
| Day9.PlannerPostFallback | agent_day9.py:50-56 | a reply that does not parse, is not a dict, has a non-iterable `plan`, or only blank items yields the two-line fallback plan |
| Day9.PlannerPostKeeps | agent_day9.py:52-54 | a dict reply whose `plan` is a non-empty list of clean strings yields its first six entries unchanged |
| Day9.Run | agent_day9.py:40-105 | a raising chat call propagates; otherwise `run` returns the success of the shared whitelist-and-verify loop of at most 30 steps with the plan in every observation |
| PlanText.CharItems | agent_day9.py:53-54 | iterating a string yields one one-character string per character |
| PlanText.KeyItems | agent_day9.py:53-54 | iterating a dict yields its keys in order |
| PlanText.Item | agent_day9.py:54 | `str(x).strip()` is stripped, and a stripped string stays as it is |
| PlanText.Items | agent_day9.py:54 | one stripped text per item, in order |
| PlanText.NonBlank | agent_day9.py:54 | the filter keeps only non-blank texts that came from the input |
| PlanText.Cleaned | agent_day9.py:54 | the cleaned plan is no longer than the items and every entry is stripped |
| PlanText.NonBlankEmptyIff | agent_day9.py:54 | the filter yields nothing exactly when every text is blank |
| PlanText.NonBlankKeepsAll | agent_day9.py:54 | non-blank texts all pass the filter in order |
| PlanText.CleanedEmptyIff | agent_day9.py:54 | the cleaned plan is empty exactly when every item strips to nothing, the case the fallback covers |
| PlanText.CleanedKeepsCleanPlan | agent_day9.py:54 | a plan of clean strings is kept item for item |
| PlanText.PlanOf | agent_day9.py:54 | at most six stripped entries, no more than the items, and empty exactly when every item is blank |
| PlanText.PlanOfCleanPlan | agent_day9.py:54 | a list of clean strings is kept, cut to six entries |
| Day11.Day11SpecFacts | agent_day11.py:18-34 | all four tools, a numeric stdout, no exact stdout, no CSV constraints, and the given required files or none |
| Day11.RobustStepKeeps | agent_day11.py:46-75 | a step of a run that has not passed keeps the record (numbered entries, admitted tools or the listing, verdict of the full verification) and the hint made of the failed verification's hint and first message |
| Day11.RobustRunInvariant | agent_day11.py:45-75 | the record and the composed hint hold after any number of iterations |
| Day11.RobustInduct | agent_day11.py:45-75 | the same invariant, for any stepper that takes `run_one`'s steps |
| Day11.Step | agent_day11.py:46-75 | a pass of the body computes the functional model's step: cascade, tool, verification, composed hint |
| Day11.RunOne | agent_day11.py:31-79 | `run_one` returns True or False as the functional model's run of at most 30 steps reports |
| Day11.Loop | agent_day11.py:45-79 | the loop computes the functional model's run of at most the step limit |
| Day12.ProposalsAtMost | src/agent_core/search/beam.py:190-199 | at most `k` candidates are proposed |
| Day12.AdmittedAllowed | agent_day12.py:79-82 | every candidate let through names a tool of the step's phase |
| Day12.ProposalsAdmit | src/agent_core/search/beam.py:190-199 | every proposal is a name-and-args dict naming one of the four tools, so the name test and `model_validate` never raise |
| Day12.Actions | agent_day12.py:79-104 | one call per recorded entry |
| Day12.ArgBest | agent_day12.py:101-104 | the scan's choice, if any, is an index of the scores |
| Day12.ArgBestFacts | agent_day12.py:75-104 | `if s > best_score` picks nothing exactly when no score beats the floor, and otherwise the earliest of the highest scores |
| Day12.AdmittedSnoc | agent_day12.py:79-82 | one more candidate extends the admitted list by its call, if the phase admits it |
| Day12.ActionsSnoc | agent_day12.py:79-104 | recording one more entry appends its call |
| Day12.ArgBestSnoc | agent_day12.py:101-104 | the strict comparison keeps the best equal to the scan's choice after one more failing candidate |
| Day12.Try | agent_day12.py:79-104 | one candidate: skipped when not allowed, otherwise executed, verified and scored with the best kept by strict `>`; `Day12.TryKeeps` proves it keeps the lookahead invariant |
| Day12.TryKeeps | agent_day12.py:79-104 | trying one candidate keeps the lookahead invariant: executed calls are the admitted ones in order, each scored no lower than the spec's weight, the best is the scan's, a stop means a pass |
| Day12.ScoredKeeps | agent_day12.py:83-104 | recording an executed candidate keeps the lookahead invariant |
| Day12.WonStays | agent_day12.py:96-99 | a lookahead that passed keeps its invariant over the remaining candidates |
| Day12.LookRunInvariant | agent_day12.py:79-104 | the lookahead invariant holds after all candidates |
| Day12.LookaheadOrder | agent_day12.py:79-104 | every admitted candidate runs in proposal order up to the first that passes, recorded under the step; the run stops only on a passing verification of the live workspace |
| Day12.InvOrder | agent_day12.py:79-104 | the invariant gives the order, step numbers and admitted tools of the executed candidates |
| Day12.LookaheadShaped | agent_day12.py:78-104 | with at most four candidates the lookahead has the shape the commit relies on |
| Day12.LookaheadBest | agent_day12.py:74-108 | without a pass the best is the candidate the scan picks from the scores; when the spec's weight is under the floor there is no best exactly when no candidate ran |
| Day12.AdmittedLength | agent_day12.py:79-82 | no more calls are admitted than candidates proposed |
| Day12.Decide | agent_day12.py:96-116 | after the lookahead: a passing candidate ends the run, otherwise the commit; `Day12.DecideFacts` proves which entries the step adds |
| Day12.DecideFacts | agent_day12.py:96-116 | after the lookahead the step's new entries are the candidates' and, unless one passed, the commit's |
| Day12.WonExtends | agent_day12.py:96-99 | a passing candidate ends the step with the run passed |
| Day12.Commit | agent_day12.py:106-116 | the committed action, the best candidate or the listing, executed again with its verification giving the hint; `Day12.CommitExtends` proves it extends the record without ending the run |
| Day12.CommitExtends | agent_day12.py:106-116 | the commit re-executes the best or the directory listing, its result is `last` and its verification gives the hint, without ending the run |
| Day12.BeamStepAdmits | agent_day12.py:57-116 | a step executes at most five calls under its number, candidates the phase admits then the commit, ending on a pass or with the commit's hint |
| Day12.ProposeFacts | agent_day12.py:71-116 | the proposal's candidates, their lookahead and the decision extend the record as a step must |
| Day12.ExtendsRecord | agent_day12.py:56-116 | a step that extends the run as described keeps the run record |
| Day12.ExtendsNumbers | agent_day12.py:56-116 | the new entries carry the new step's number, keeping steps numbered in order |
| Day12.BeamStepKeeps | agent_day12.py:56-116 | one step of a run that has not passed keeps the record |
| Day12.PassedRecord | agent_day12.py:96-99 | a passed run keeps its record while the loop has stopped |
| Day12.BeamRunInvariant | agent_day12.py:56-116 | the record holds after any number of iterations that returned |
| Day12.BeamInduct | agent_day12.py:56-116 | the same record, for any stepper that takes `run`'s steps |
| Day12.DrivenKeeps | agent_day12.py:56-116 | a step taken through such a stepper keeps the record |
| Day12.RunOutcome | agent_day12.py:44-120 | at most 150 executions in 30 steps; a failed run committed in each of the 30; a successful run ended on a candidate whose verification passed on the workspace it left |
| Day12.TryCandidate | agent_day12.py:80-104 | a pass of the candidate loop computes the functional lookahead step |
| Day12.LookNext | agent_day12.py:79-104 | the next candidate iteration extends the functional lookahead |
| Day12.Lookahead | agent_day12.py:79-104 | the candidate loop computes the functional lookahead over all candidates |
| Day12.LookRunNext | agent_day12.py:79-104 | an iteration that has not stopped tries the next candidate |
| Day12.LookRunStops | agent_day12.py:96-99 | a stopped candidate loop keeps its final state |
| Day12.CommitStep | agent_day12.py:106-116 | the commit computes the functional commit |
| Day12.Step | agent_day12.py:57-116 | a pass of the step loop's body computes the functional step |
| Day12.ProposeStep | agent_day12.py:71-116 | proposal, lookahead and decision compute the functional model |
| Day12.Loop | agent_day12.py:56-120 | the step loop computes the functional run of at most the step limit |
| Day12.Run | agent_day12.py:44-120 | `run` returns True or False as the functional 30-step run reports |
| Day13.CriticStepAdmits | agent_day13.py:76-117 | a step appends one numbered entry whose tool the phase of the current workspace admits or the listing; `python_exec` never before the artifacts are in place, only it or the listing after; `ok` is the full verification's verdict and a failure keeps its hint |
| Day13.CriticStepKeeps | agent_day13.py:75-117 | one step of a run that has not passed keeps the record and the hint |
| Day13.CriticRunInvariant | agent_day13.py:75-117 | after any number of iterations the record and the hint hold |
| Day13.Step | agent_day13.py:76-117 | a pass of the loop body computes the functional model's step, critic call included |
| Day13.Loop | agent_day13.py:75-121 | the loop computes the functional run of at most the step limit |
| Day13.Run | agent_day13.py:41-121 | a raising planner propagates; otherwise `run` returns True or False as the functional 30-step critic run reports |
| Day17.Day17SpecFacts | agent_day17.py:20-41 | the spec asks for a numeric stdout and never an exact one whatever the bench task expects, carries the task's artifact constraints (missing ones empty), and admits all four tools |
| Day17.BuildSpec | agent_day17.py:35-41 | the conditional assignments build that spec |
| Day17.MachinePhases | agent_day17.py:45-61 | both phase names the checks select are found in the script's machine, so `sm.get` never raises, and each phase admits the tools of `allowed_for_phase` |
| Day17.PhasedStepAdmits | agent_day17.py:59-86 | with the script's phases a step appends one numbered entry whose tool the phase admits or the listing; `python_exec` never before the artifacts are in place; `ok` is the full verification's verdict and a failure keeps its hint |
| Day17.PhasedStepKeeps | agent_day17.py:58-86 | one step of a run that has not passed keeps the record and the hint |
| Day17.PhasedStepperKeeps | agent_day17.py:58-86 | every step the loop can take keeps the record and the hint |
| Day17.PhasedRunInvariant | agent_day17.py:58-86 | the record and the hint hold after any number of iterations |
| Day17.Step | agent_day17.py:59-86 | a pass of the loop body computes the functional model's step |
| Day17.Loop | agent_day17.py:58-86 | the loop, breaking at the first pass, computes the functional run of at most the step limit |
| Day17.RunScript | agent_day17.py:33-86 | the script's outcome is the functional 30-step run with the machine of two phases |
| Day17.RunScriptRecord | agent_day17.py:58-86 | at most 30 numbered steps, all 30 without a pass; a pass only at a passing full verification of the last result and workspace |
| Day18.Day18SpecFacts | agent_day18.py:19-34 | the spec never asks for an exact stdout, carries the task's artifact constraints, and admits all four tools |
| Day18.EpisodeStore.constructor | src/agent_core/memory/sqlite_store.py:39-47 | a new store holds no episode |
| Day18.EpisodeStore.AddEpisode | src/agent_core/memory/sqlite_store.py:39-47 | adding an episode appends it after those already stored |
| Day18.PhaseStepAdmits | agent_day18.py:47-65 | a step appends one numbered entry whose tool the phase admits or the listing, `python_exec` never before the artifacts are in place; `ok` is the full verification's verdict and the hint is that verification's, passed or not |
| Day18.PhaseStepKeeps | agent_day18.py:46-65 | one step of a run that has not passed keeps the invariant |
| Day18.PhaseStepperKeeps | agent_day18.py:46-65 | every step the loop can take keeps the invariant |
| Day18.PhaseRunInvariant | agent_day18.py:46-65 | the invariant holds after any number of iterations |
| Day18.Step | agent_day18.py:47-65 | a pass of the loop body computes the functional model's step |
| Day18.Loop | agent_day18.py:46-65 | the loop, breaking at the first pass, computes the functional run |
| Day18.RunScript | agent_day18.py:26-68 | the loop's outcome is the functional 25-step run; a run that returns adds exactly one episode with its outcome and history, one that raises adds none |
| Day18.RunScriptRecord | agent_day18.py:43-67 | the stored `ok` holds exactly when the last step's full verification passed; at most 25 numbered entries, all 25 when it did not pass |
| Dicts.Keys | src/agent_core/specs/task_spec.py:21-22 | the keys of a dict, one per entry in insertion order |
| Dicts.IndexOf | src/agent_core/verify/verifier.py:99-116 | the first position holding the key, with none before it, or -1 exactly when the key is absent |
| Dicts.Get | src/agent_core/search/beam.py:207-210 | `d.get(k)` finds a value exactly when the key is present, and it is the one stored under it |
| Dicts.Put | agent_day5.py:41-55 | `d[k] = v` stores the value under the key, keeps the key order when the key was present and appends it otherwise |
| Dicts.PutDistinct | agent_day5.py:41-55 | assigning keeps the keys distinct |
| Dicts.PutOther | agent_day5.py:41-55 | assigning one key leaves every other key's lookup alone |
| Dicts.GetCons | src/agent_core/search/beam.py:207-210 | a lookup in a dict with one more entry in front finds that entry first |
| StringOrder.LessIrreflexive | src/agent_core/tools/registry_v2.py:29 | no string sorts before itself |
| StringOrder.LessTotal | src/agent_core/tools/registry_v2.py:29 | of two different strings one sorts before the other |
| StringOrder.LessAsymmetric | src/agent_core/tools/registry_v2.py:29 | two strings never sort before each other |
| StringOrder.LessTransitive | src/agent_core/tools/registry_v2.py:29 | the string order is transitive |
| StringOrder.LessEqTransitive | src/agent_core/tools/registry_v2.py:29 | the non-strict order is transitive |
| StringOrder.Insert | src/agent_core/tools/registry_v2.py:29 | inserting adds exactly the element and keeps a sorted list sorted |
| StringOrder.InsertFirstSorted | src/agent_core/tools/registry_v2.py:29 | an element not above the head goes in front of a sorted list and keeps it sorted |
| StringOrder.InsertRestSorted | src/agent_core/tools/registry_v2.py:29 | inserting behind the head keeps a sorted list sorted |
| StringOrder.SortStrings | src/agent_core/tools/registry_v2.py:29 | `sorted` yields an ascending permutation of its input |
| StringOrder.SortedDistinctAscending | src/agent_core/tools/registry_v2.py:29 | a sorted list without repeats is strictly ascending |
| Strings.TrimLeft | src/agent_core/verify/verifier.py:34 | the left strip is no longer than the input |
| Strings.TrimLeftFacts | src/agent_core/verify/verifier.py:34 | the left strip is a suffix of the input after a prefix of whitespace only, and starts with a non-space character unless empty |
| Strings.TrimRight | src/agent_core/verify/verifier.py:34 | the right strip is no longer than the input |
| Strings.TrimRightFacts | src/agent_core/verify/verifier.py:34 | the right strip is a prefix of the input before a suffix of whitespace only, and ends with a non-space character unless empty |
| Strings.StripNoEdgeSpace | src/agent_core/verify/verifier.py:45-46 | a string with non-space ends strips to itself |
| Strings.Strip | src/agent_core/verify/verifier.py:45-46 | `s.strip()`; `Strings.TrimLeftFacts` and `Strings.TrimRightFacts` prove it removes exactly the leading and trailing whitespace, and `Strings.StripIdempotent` that a second strip changes nothing |
| Strings.StripIdempotent | src/agent_core/verify/verifier.py:45-46 | stripping twice is stripping once |
| Strings.StripTrimmed | src/agent_core/verify/verifier.py:34 | a non-blank strip has non-space ends, and such a string strips to itself |
| Strings.StripEmptyIff | src/agent_core/tools/python_exec.py:22 | a string strips to the empty string exactly when all its characters are whitespace |
| Strings.OccursThen | src/agent_core/runtime/guardrails.py:58-63 | adjacent occurrences of two strings are an occurrence of their concatenation |
| Strings.StripKeepsNonSpace | src/agent_core/verify/verifier.py:34 | a non-space character survives the strip, shifted left by the whitespace removed in front |
| Strings.StripWithin | src/agent_core/verify/verifier.py:34 | every character of the strip is a character of the input at the shifted position |
| Strings.ContainsPrefix | src/agent_core/runtime/guardrails.py:58-63 | a string contains its prefix |
| Strings.ContainsChar | src/agent_core/runtime/guardrails.py:35-56 | a string contains each of its characters |
| Strings.IsDecimalDigit | agent_day3.py:60 | `\d` on a `str`: every ASCII digit matches, and no matching character is whitespace, so stripping cannot remove one |
| Strings.Lower | src/agent_core/runtime/guardrails.py:35 | `lower()` keeps the length and lowers each character on its own |
| Strings.Find | src/agent_core/search/beam.py:49 | `find` gives the first position of the character, or -1 exactly when it is absent |
| Strings.RFind | src/agent_core/search/beam.py:50 | `rfind` gives the last position of the character, or -1 exactly when it is absent |
| Strings.CountCharAppend | src/agent_core/search/beam.py:94 | the count of a character in a concatenation is the sum of the counts |
| Strings.Take | src/agent_core/llm/reflection.py:39-40 | `s[:n]` is the prefix of length `n`, or the whole string when shorter |
| Strings.NatToString | src/agent_core/runtime/verifier.py:6 | `str(n)` of a natural number: decimal digits with no leading zero that denote `n` |

## Left out

- Language-model calls and prompt text. `next_action`, the beam proposer's chat call, `_repair_with_llm`, the critic, the planners' chat calls and `reflect` are function-typed parameters, and the model's reply is an oracle value. The `build_obs`/`build_observation` string formatting is not modelled: an observation is a structured value.
- `json.loads`: where a proposal or plan is parsed, the parse is a parameter, and its error messages are not modelled; only "it raised" is.
- `repr`: the text of an action's `repr` is a parameter. Repeat detection compares those texts.
- Message and hint texts that the source builds with f-strings around `repr` output are kept as structured values rather than rendered strings.
- Regular expressions. The day-3 "save as" regex and the `.csv` test read `\w` as ASCII letters, digits and `_`. `lower()` folds ASCII only. `strip()` removes exactly the characters of Python's `str.isspace()`. The day-3 number regex `[-+]?\d+(\.\d+)?` is modelled as "some character `\d` matches occurs in the text", which is what a match anywhere means. `\d` is Unicode category Nd as in the Unicode 15.0 tables of Python 3.12; a Python with other tables may differ in the newest scripts.
- `_infer_path_from_action` (the guardrails' file-name regex over a shell command) is the parameter `pathOfCommand`, with the source's fallback names kept.
- The markdown-fence stripping in the beam proposer and the quote-escaping regex of `_clean_object` are the parameters `stripFences` and `escapeQuotes`. The brace fix that follows them is modelled.
- The wording of pydantic's validation error, raised when a registered tool returns something other than a string, is the parameter `rejection` of `ToolExecutorV2.ExecuteToolV2`.
- Float parsing: whether stripped stdout parses with `float()` is the parameter `FloatSyntax`, and a JSON float is a `real`. The digits `str()` prints for a float, which the missing-key message of `validate_args` shows, are the parameter `floatText` of `ValidateArgs.Validate`.
- Floating point: the UCB exploration term `sqrt(2 ln t / n)` is the parameter `explore`. Rewards, means and scores are exact `real`s, not IEEE doubles. The `mean`/`median` summaries of the experiment harnesses are not modelled.
- CSV parsing: a file's rows are the lists of cells `csv.reader` yields, already parsed. Text encoding and the reader's dialect are not modelled.
- Subprocesses: `python_exec`'s child process is the parameter `run`, which returns an exit code and the two output streams. `shell_exec`, `pip_install` and `file_write` are not part of this model: inside the loops every tool runs through the abstract executor `(ToolCall, Workspace) -> (ToolResult, Workspace)`.
- Logging and persistence: `RunManager` logging, run ids, per-step JSON saves, `print`, `RuleStore.load/save`, `write_markdown_report`, `load_success_histories` and the episodic and SQLite memory. The one exception is `add_episode`, modelled as appending to a list of episodes.
- The `reset*` helpers that call `os.remove`: a loop starts from whatever workspace it is given, which covers the one a reset leaves.
- The experiment harnesses and entry points that only call the loops repeatedly: `agent_day4/7/14/15/16.py`, `auto_demo.py`, `runtime/auto_loop.py`, `agent_min.py`, `run_plan.py`, `check_llm.py`, `learning/curriculum.py`, `schemas/plan.py` and every `__main__` block.
- `TaskSpec`'s `default_factory` fresh-collection guarantee: Dafny sequences and maps are values, so two specs can never share a mutable list. The property holds by construction and has no member of its own.
- `BenchTask`'s `frozen=True`: a Dafny datatype is immutable, so this holds by construction.
- The `verify` signature mismatch. In the loops of days 8, 11, 12, 13, 17 and 18, every `verify(..., check_stdout=...)` call and every `.gaps` read would raise `TypeError` or `AttributeError` against the `verify` of src/agent_core/verify/verifier.py. The model does not raise there. It reads `check_stdout=False` calls as artifact checks 1-3 (`Verifier.ArtifactCheck`) and `check_stdout=True` calls as `Verifier.Verify(spec, last)`. It reads their `.gaps` as `Verifier.ArtifactGaps` and `Verifier.FullGaps`.
- The `execute_tool` signature mismatch. The loops pass `task=` to a one-argument function. Inside the loops the executor stays abstract, and `Executor.ExecuteTool` models the function as written.
- Bookkeeping that the model adds. Some loops keep no record of what they did before: the workspaces seen in day 2, the history in day 9, and the executed actions elsewhere. The model's loop states carry such lists so that the lemmas can talk about past steps. The scripts' own variables are kept unchanged beside them.
- Day 3's anti-stuck notice is appended to the observation after the model's call for that step, and the next step overwrites it before the model sees it. The model keeps that order.
- Day3.SigOf: `json.dumps(action, sort_keys=True)` sorts nested keys too. The signature here sorts only the top-level argument keys. Two actions that differ only in the key order of a nested argument object therefore get different signatures here, where the source gives them the same one.
- Concurrency: the source has none.
