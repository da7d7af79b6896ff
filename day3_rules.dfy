/** The day-3 policy: the base rules the task calls for, then the learnt
    rules, at most ten in all. */
module Day3Rules {
  import opened Strings


  const CSV_RULES: seq<string> := [
    "If the required CSV file is missing, create a minimal valid sample using file_write.",
    "Preview the CSV (head -n 5) before choosing parsing logic; do not assume columns.",
    "Prefer Python standard library (csv) over pandas unless required.",
    "When using python_exec, ALWAYS print the final numeric mean to stdout.",
    "Avoid repeating the same shell command; if stuck, change strategy."
  ]

  const GENERIC_RULES: seq<string> := [
    "If a required file is missing, create a minimal valid sample using file_write.",
    "If a Python module is missing, use pip_install for that module.",
    "When using python_exec, print the final answer to stdout.",
    "Avoid repeating the same tool call; change strategy if stuck."
  ]

  const MAX_RULES: nat := 10

  predicate CsvMeanTask(t: string) {
    Contains(t, ".csv") && (Contains(t, "mean") || Contains(t, "average"))
  }

  function BaseRules(task: string): seq<string> {
    if CsvMeanTask(Lower(task)) then CSV_RULES else GENERIC_RULES
  }

  /** `[f(r) for r in xs if f(r)]`: the images under `f` that are not
      empty, in order. */
  function KeepImages(xs: seq<string>, f: string -> string): seq<string>
    decreases |xs|
  {
    if xs == [] then []
    else
      var y := f(xs[|xs| - 1]);
      KeepImages(xs[..|xs| - 1], f) + (if y != [] then [y] else [])
  }

  /** The position in `xs` of each image `KeepImages` keeps. */
  function KeptAt(xs: seq<string>, f: string -> string): seq<nat>
    decreases |xs|
  {
    if xs == [] then []
    else KeptAt(xs[..|xs| - 1], f) + (if f(xs[|xs| - 1]) != [] then [|xs| - 1] else [])
  }

  lemma {:induction false} KeptShape(xs: seq<string>, f: string -> string)
    ensures |KeepImages(xs, f)| == |KeptAt(xs, f)| <= |xs|
    ensures forall i | 0 <= i < |KeptAt(xs, f)| :: KeptAt(xs, f)[i] < |xs|
    ensures forall i, j | 0 <= i < j < |KeptAt(xs, f)| :: KeptAt(xs, f)[i] < KeptAt(xs, f)[j]
    decreases |xs|
  {
    if xs != [] {
      KeptShape(xs[..|xs| - 1], f);
    }
  }

  lemma {:induction false} KeptValues(xs: seq<string>, f: string -> string)
    requires |KeepImages(xs, f)| == |KeptAt(xs, f)|
    requires forall i | 0 <= i < |KeptAt(xs, f)| :: KeptAt(xs, f)[i] < |xs|
    ensures forall i | 0 <= i < |KeepImages(xs, f)| ::
      KeepImages(xs, f)[i] == f(xs[KeptAt(xs, f)[i]]) && KeepImages(xs, f)[i] != []
    decreases |xs|
  {
    if xs != [] {
      var init := xs[..|xs| - 1];
      KeptShape(init, f);
      KeptValues(init, f);
      forall i | 0 <= i < |KeepImages(init, f)|
        ensures KeepImages(xs, f)[i] == f(xs[KeptAt(xs, f)[i]])
      {
        assert KeepImages(xs, f)[i] == KeepImages(init, f)[i];
        assert KeptAt(xs, f)[i] == KeptAt(init, f)[i];
        assert xs[KeptAt(init, f)[i]] == init[KeptAt(init, f)[i]];
      }
    }
  }

  lemma {:induction false} KeptComplete(xs: seq<string>, f: string -> string)
    ensures forall k | 0 <= k < |xs| && f(xs[k]) != [] :: k in KeptAt(xs, f)
    decreases |xs|
  {
    if xs != [] {
      var init := xs[..|xs| - 1];
      KeptComplete(init, f);
      forall k | 0 <= k < |xs| - 1 && f(xs[k]) != []
        ensures k in KeptAt(xs, f)
      {
        assert xs[k] == init[k];
      }
    }
  }

  /** `[r.strip() for r in learned_rules if r and r.strip()]` */
  function Extras(learned: seq<string>): seq<string> {
    KeepImages(learned, Strip)
  }

  /** The position in `learned` of each rule `Extras` keeps. */
  function Origins(learned: seq<string>): seq<nat> {
    KeptAt(learned, Strip)
  }

  /** Each kept rule is the non-blank strip of the learned rule at its
      origin, the origins increase, and every learned rule that is not
      blank after stripping is among them. */
  lemma ExtrasFacts(learned: seq<string>)
    ensures |Extras(learned)| == |Origins(learned)| <= |learned|
    ensures forall i | 0 <= i < |Extras(learned)| ::
      && Origins(learned)[i] < |learned|
      && Extras(learned)[i] == Strip(learned[Origins(learned)[i]]) && Extras(learned)[i] != []
    ensures forall i, j | 0 <= i < j < |Origins(learned)| :: Origins(learned)[i] < Origins(learned)[j]
    ensures forall k | 0 <= k < |learned| && Strip(learned[k]) != [] :: k in Origins(learned)
  {
    KeptShape(learned, Strip);
    KeptValues(learned, Strip);
    KeptComplete(learned, Strip);
  }

  /** Every kept rule is trimmed. */
  lemma ExtrasTrimmed(learned: seq<string>)
    ensures forall i | 0 <= i < |Extras(learned)| :: Trimmed(Extras(learned)[i])
  {
    ExtrasFacts(learned);
    forall i | 0 <= i < |Extras(learned)|
      ensures Trimmed(Extras(learned)[i])
    {
      StripTrimmed(learned[Origins(learned)[i]]);
    }
  }

  /** `(base + extras)[:n]` */
  function Capped<T>(base: seq<T>, extras: seq<T>, n: nat): seq<T> {
    var all := base + extras;
    if |all| <= n then all else all[..n]
  }

  /** With room for the base, the cap keeps the base whole and then a
      prefix of the extras, all of them when they fit. */
  lemma CappedParts<T>(base: seq<T>, extras: seq<T>, n: nat)
    requires |base| <= n
    ensures var r := Capped(base, extras, n);
      && |base| <= |r| <= n && |r| == (if |base| + |extras| <= n then |base| + |extras| else n)
      && r[..|base|] == base && r[|base|..] == extras[..|r| - |base|]
  {
    var r := Capped(base, extras, n);
    assert r == (base + extras)[..|r|];
    assert r[|base|..] == (base + extras)[|base|..|r|];
    assert (base + extras)[|base|..] == extras;
  }

  /** `compile_rules(task, learned_rules)` */
  function CompileRules(task: string, learned: seq<string>): seq<string> {
    Capped(BaseRules(task), Extras(learned), MAX_RULES)
  }

  lemma BaseRulesSize(task: string)
    ensures CsvMeanTask(Lower(task)) ==> |BaseRules(task)| == 5
    ensures !CsvMeanTask(Lower(task)) ==> |BaseRules(task)| == 4
  {
  }

  /** Five base rules for a CSV mean or average task and four otherwise,
      first; then the kept learned rules in order, as many as fit in ten,
      and all of them when they do. */
  lemma CompileRulesFacts(task: string, learned: seq<string>)
    ensures var r := CompileRules(task, learned); var base := BaseRules(task);
      && (CsvMeanTask(Lower(task)) ==> |base| == 5) && (!CsvMeanTask(Lower(task)) ==> |base| == 4)
      && |r| == (if |base| + |Extras(learned)| <= MAX_RULES then |base| + |Extras(learned)| else MAX_RULES)
      && r[..|base|] == base && r[|base|..] == Extras(learned)[..|r| - |base|]
  {
    BaseRulesSize(task);
    CappedParts(BaseRules(task), Extras(learned), MAX_RULES);
  }
}
