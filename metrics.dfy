/** Run metrics computed from a recorded history: steps, per-tool counts,
    failed results and immediately repeated actions. */
module Metrics {
  import opened Wrappers
  import opened Dicts
  import opened Values

  /** A history entry: the dumps of the action and of the result. A missing
      `action` or `result` key reads as the empty dict. */
  datatype Entry = Entry(action: Dict<string, Value>, result: Dict<string, Value>)

  datatype Metrics = Metrics(
    steps: nat,
    toolCounts: Dict<Option<Value>, int>,
    errors: nat,
    repeats: nat,
    guardrailOverrides: nat)

  /** `action.get("name")`: Python's None both when the key is missing and
      when it holds JSON null. */
  function NameOf(e: Entry): (n: Option<Value>)
    ensures n.Some? ==> n.value != Null && Get(e.action, "name") == n
    ensures n.None? ==> Get(e.action, "name") == None || Get(e.action, "name") == Some(Null)
  {
    var v := Get(e.action, "name");
    if v == Some(Null) then None else v
  }

  /** The representative of a name's class under Python's `==`, which is
      what a `Counter` compares keys by: None and null are one value,
      `True` and `False` equal 1 and 0, and a float with no fractional part
      equals the int of the same value. Every other hashable value equals
      only itself. */
  function PyKey(n: Option<Value>): (c: Option<Value>)
    ensures c.None? <==> n.None? || n.value.Null?
    ensures c.Some? ==> !c.value.Bool? && !c.value.Null?
    ensures c.Some? && c.value.Float? ==> c.value.r != c.value.r.Floor as real
    ensures n.Some? && n.value.Str? ==> c == n
    ensures c.Some? && c.value.Str? ==> c == n
  {
    match n
    case None => None
    case Some(Null) => None
    case Some(Bool(b)) => Some(Int(if b then 1 else 0))
    case Some(Float(r)) => if r == r.Floor as real then Some(Int(r.Floor)) else n
    case Some(_) => n
  }

  /** `not result.get("ok", False)` */
  predicate Failed(e: Entry) {
    !Truthy(Get(e.result, "ok").GetOr(Bool(false)))
  }

  /** A `Counter` key must be hashable. */
  predicate CountableName(n: Option<Value>) {
    n.None? || Hashable(n.value)
  }

  predicate AllCountable(h: seq<Entry>) {
    forall i | 0 <= i < |h| :: CountableName(NameOf(h[i]))
  }

  /** How many of the first `n` entries call a tool whose name is `==` to
      `k`. */
  function NameCount(h: seq<Entry>, n: nat, k: Option<Value>): (c: nat)
    requires n <= |h|
    ensures c <= n
  {
    if n == 0 then 0 else NameCount(h, n - 1, k) + (if PyKey(NameOf(h[n - 1])) == PyKey(k) then 1 else 0)
  }

  /** How many of the first `n` entries failed. */
  function Errors(h: seq<Entry>, n: nat): (c: nat)
    requires n <= |h|
    ensures c <= n
  {
    if n == 0 then 0 else Errors(h, n - 1) + (if Failed(h[n - 1]) then 1 else 0)
  }

  /** How many of the first `n` entries repeat the previous entry's action
      exactly (`str` of two dumps agrees exactly when the dumps do); the
      first entry never counts. */
  function Repeats(h: seq<Entry>, n: nat): (c: nat)
    requires n <= |h|
    ensures n > 0 ==> c <= n - 1
  {
    if n <= 1 then 0 else Repeats(h, n - 1) + (if h[n - 1].action == h[n - 2].action then 1 else 0)
  }

  /** The sum of a counter's counts. */
  function SumCounts<K>(d: Dict<K, int>): int {
    if d == [] then 0 else d[0].1 + SumCounts(d[1..])
  }

  /** `counter[k]`: the count stored for `k`, 0 when absent. */
  function Count<K(==)>(tc: Dict<K, int>, k: K): int {
    Get(tc, k).GetOr(0)
  }

  /** `counts[k] = counts.get(k, 0) + 1` on keys that are equal under `==`
      exactly when they are the same value, such as strings: the count is
      raised where the key stands, or the key is appended with count 1. */
  function Bump<K(==)>(tc: Dict<K, int>, name: K): Dict<K, int> {
    if tc == [] then [(name, 1)]
    else if tc[0].0 == name then [(name, tc[0].1 + 1)] + tc[1..]
    else [tc[0]] + Bump(tc[1..], name)
  }

  /** Bumping raises `name`'s count by one and leaves every other lookup
      alone. */
  lemma {:induction false} BumpGet<K>(tc: Dict<K, int>, name: K, k: K)
    ensures Get(Bump(tc, name), k) == if k == name then Some(Count(tc, name) + 1) else Get(tc, k)
    decreases |tc|
  {
    if tc == [] {
      GetCons((name, 1), [], k);
    } else if tc[0].0 == name {
      GetCons((name, tc[0].1 + 1), tc[1..], k);
      GetCons(tc[0], tc[1..], k);
      GetCons(tc[0], tc[1..], name);
      assert [tc[0]] + tc[1..] == tc;
    } else {
      BumpGet(tc[1..], name, k);
      GetCons(tc[0], Bump(tc[1..], name), k);
      GetCons(tc[0], tc[1..], k);
      GetCons(tc[0], tc[1..], name);
      assert [tc[0]] + tc[1..] == tc;
    }
  }

  /** Bumping keeps the keys distinct. */
  lemma {:induction false} BumpDistinct<K>(tc: Dict<K, int>, name: K)
    requires DistinctKeys(tc)
    ensures DistinctKeys(Bump(tc, name))
    decreases |tc|
  {
    if tc != [] && tc[0].0 != name {
      var rest := Bump(tc[1..], name);
      BumpDistinct(tc[1..], name);
      BumpGet(tc[1..], name, tc[0].0);
      assert !HasKey(tc[1..], tc[0].0) by {
        forall i | 0 <= i < |tc[1..]|
          ensures tc[1..][i].0 != tc[0].0
        {
          assert tc[1..][i] == tc[i + 1];
        }
      }
      assert !HasKey(rest, tc[0].0);
      var r := [tc[0]] + rest;
      forall i, j | 0 <= i < j < |r|
        ensures r[i].0 != r[j].0
      {
        if i == 0 {
          assert r[j] == rest[j - 1];
        } else {
          assert r[i] == rest[i - 1] && r[j] == rest[j - 1];
        }
      }
    } else if tc != [] {
      var r := [(name, tc[0].1 + 1)] + tc[1..];
      forall i, j | 0 <= i < j < |r|
        ensures r[i].0 != r[j].0
      {
        assert r[j] == tc[j];
        assert i > 0 ==> r[i] == tc[i];
      }
    }
  }

  /** Bumping adds one to the total. */
  lemma {:induction false} BumpSum<K>(tc: Dict<K, int>, name: K)
    ensures SumCounts(Bump(tc, name)) == SumCounts(tc) + 1
    decreases |tc|
  {
    if tc == [] {
      assert SumCounts([(name, 1)]) == 1 + SumCounts([(name, 1)][1..]);
    } else if tc[0].0 == name {
      var r := [(name, tc[0].1 + 1)] + tc[1..];
      assert r[1..] == tc[1..];
    } else {
      var r := [tc[0]] + Bump(tc[1..], name);
      assert r[1..] == Bump(tc[1..], name);
      BumpSum(tc[1..], name);
    }
  }

  /** A counter with every key replaced by its class under `==`. */
  function Classes(tc: Dict<Option<Value>, int>): (cs: Dict<Option<Value>, int>)
    ensures |cs| == |tc|
    ensures forall i | 0 <= i < |tc| :: cs[i] == (PyKey(tc[i].0), tc[i].1)
  {
    seq(|tc|, i requires 0 <= i < |tc| => (PyKey(tc[i].0), tc[i].1))
  }

  /** `counter[k]` on a `Counter` keyed by names: the count stored under the
      key that is `==` to `k`, 0 when there is none. */
  function CountOf(tc: Dict<Option<Value>, int>, k: Option<Value>): int {
    Count(Classes(tc), PyKey(k))
  }

  /** `name in counter` */
  predicate Counted(tc: Dict<Option<Value>, int>, k: Option<Value>) {
    HasKey(Classes(tc), PyKey(k))
  }

  /** `counter[name] += 1` on a `Counter` keyed by names: the count is
      raised where a key `==` to `name` stands, and that key, the one seen
      first, is kept; otherwise `name` is appended with count 1. */
  function PyBump(tc: Dict<Option<Value>, int>, name: Option<Value>): Dict<Option<Value>, int> {
    if tc == [] then [(name, 1)]
    else if PyKey(tc[0].0) == PyKey(name) then [(tc[0].0, tc[0].1 + 1)] + tc[1..]
    else [tc[0]] + PyBump(tc[1..], name)
  }

  /** Bumping a name, seen through `==`, is bumping its class. */
  lemma {:induction false} PyBumpClasses(tc: Dict<Option<Value>, int>, name: Option<Value>)
    ensures Classes(PyBump(tc, name)) == Bump(Classes(tc), PyKey(name))
    decreases |tc|
  {
    if tc != [] {
      assert Classes(tc)[1..] == Classes(tc[1..]);
      if PyKey(tc[0].0) != PyKey(name) {
        PyBumpClasses(tc[1..], name);
        assert Classes(PyBump(tc, name))[1..] == Classes(PyBump(tc[1..], name));
      } else {
        assert Classes(PyBump(tc, name))[1..] == Classes(tc)[1..];
      }
    }
  }

  /** A name is counted in a counter exactly when it is `==` to its first
      key or is counted in the rest. */
  lemma CountedCons(tc: Dict<Option<Value>, int>, k: Option<Value>)
    requires tc != []
    ensures Counted(tc, k) <==> PyKey(tc[0].0) == PyKey(k) || Counted(tc[1..], k)
  {
    assert Classes(tc)[1..] == Classes(tc[1..]);
    assert [Classes(tc)[0]] + Classes(tc[1..]) == Classes(tc);
    GetCons(Classes(tc)[0], Classes(tc[1..]), PyKey(k));
  }

  /** Bumping keeps every key in place, so the key that stays is the first
      one seen; a name `==` to none of them is appended. */
  lemma {:induction false} PyBumpKeys(tc: Dict<Option<Value>, int>, name: Option<Value>)
    ensures |PyBump(tc, name)| == |tc| + (if Counted(tc, name) then 0 else 1)
    ensures forall i | 0 <= i < |tc| :: PyBump(tc, name)[i].0 == tc[i].0
    ensures !Counted(tc, name) ==> PyBump(tc, name)[|tc|].0 == name
    decreases |tc|
  {
    if tc == [] {
      assert Classes(tc) == [];
    } else if PyKey(tc[0].0) == PyKey(name) {
      CountedCons(tc, name);
      var r := [(tc[0].0, tc[0].1 + 1)] + tc[1..];
      assert PyBump(tc, name) == r;
      forall i | 0 <= i < |tc|
        ensures r[i].0 == tc[i].0
      {
        if i > 0 {
          assert r[i] == tc[i];
        }
      }
    } else {
      CountedCons(tc, name);
      var rest := PyBump(tc[1..], name);
      PyBumpKeys(tc[1..], name);
      var r := [tc[0]] + rest;
      assert PyBump(tc, name) == r;
      forall i | 0 <= i < |tc|
        ensures r[i].0 == tc[i].0
      {
        if i > 0 {
          assert r[i] == rest[i - 1];
          assert tc[i] == tc[1..][i - 1];
        }
      }
      if !Counted(tc, name) {
        assert r[|tc|] == rest[|tc| - 1];
      }
    }
  }

  /** Bumping adds one to the total. */
  lemma {:induction false} PyBumpSum(tc: Dict<Option<Value>, int>, name: Option<Value>)
    ensures SumCounts(PyBump(tc, name)) == SumCounts(tc) + 1
    decreases |tc|
  {
    if tc == [] {
      assert SumCounts([(name, 1)]) == 1 + SumCounts([(name, 1)][1..]);
    } else if PyKey(tc[0].0) == PyKey(name) {
      var r := [(tc[0].0, tc[0].1 + 1)] + tc[1..];
      assert r[1..] == tc[1..];
    } else {
      var r := [tc[0]] + PyBump(tc[1..], name);
      assert r[1..] == PyBump(tc[1..], name);
      PyBumpSum(tc[1..], name);
    }
  }

  /** A string equals only itself, so looking a string up in the counter
      finds it where a plain lookup of that exact key does. */
  lemma {:induction false} CountOfStr(tc: Dict<Option<Value>, int>, s: string)
    ensures CountOf(tc, Some(Str(s))) == Count(tc, Some(Str(s)))
    decreases |tc|
  {
    if tc != [] {
      assert Classes(tc)[1..] == Classes(tc[1..]);
      GetCons(Classes(tc)[0], Classes(tc[1..]), Some(Str(s)));
      assert [Classes(tc)[0]] + Classes(tc[1..]) == Classes(tc);
      GetCons(tc[0], tc[1..], Some(Str(s)));
      assert [tc[0]] + tc[1..] == tc;
      CountOfStr(tc[1..], s);
    }
  }

  /** `Counter(names)` over the first `n` entries, keyed in order of first
      appearance. */
  function Counter(h: seq<Entry>, n: nat): Dict<Option<Value>, int>
    requires n <= |h|
  {
    if n == 0 then [] else PyBump(Counter(h, n - 1), NameOf(h[n - 1]))
  }

  /** `tc` counts exactly the tool names among the first `n` entries: no
      two of its keys are `==`, each key is the name of one of those
      entries, and every name's count is the number of entries whose name
      is `==` to it. */
  ghost predicate CountsOf(tc: Dict<Option<Value>, int>, h: seq<Entry>, n: nat)
    requires n <= |h|
  {
    && DistinctKeys(Classes(tc))
    && SumCounts(tc) == n
    && (forall i | 0 <= i < |tc| :: exists j | 0 <= j < n :: tc[i].0 == NameOf(h[j]))
    && (forall k :: CountOf(tc, k) == NameCount(h, n, k))
    && (forall k :: Counted(tc, k) <==> NameCount(h, n, k) > 0)
  }

  /** Every key of the counter is the name of one of the counted entries. */
  lemma {:induction false} CounterKeys(h: seq<Entry>, n: nat)
    requires n <= |h|
    ensures forall i | 0 <= i < |Counter(h, n)| :: exists j | 0 <= j < n :: Counter(h, n)[i].0 == NameOf(h[j])
  {
    if n > 0 {
      CounterKeys(h, n - 1);
      var tc := Counter(h, n - 1);
      var tc' := Counter(h, n);
      PyBumpKeys(tc, NameOf(h[n - 1]));
      forall i | 0 <= i < |tc'|
        ensures exists j | 0 <= j < n :: tc'[i].0 == NameOf(h[j])
      {
        if i < |tc| {
          var j :| 0 <= j < n - 1 && tc[i].0 == NameOf(h[j]);
          assert tc'[i].0 == NameOf(h[j]);
        } else {
          assert tc'[i].0 == NameOf(h[n - 1]);
        }
      }
    } else {
      assert Counter(h, n) == [];
    }
  }

  /** Every name's count in the counter is the number of counted entries
      whose name is `==` to it, and no two keys are `==`. */
  lemma {:induction false} CounterClasses(h: seq<Entry>, n: nat)
    requires n <= |h|
    ensures DistinctKeys(Classes(Counter(h, n)))
    ensures forall k :: CountOf(Counter(h, n), k) == NameCount(h, n, k)
    ensures forall k :: Counted(Counter(h, n), k) <==> NameCount(h, n, k) > 0
  {
    if n > 0 {
      CounterClasses(h, n - 1);
      var tc := Counter(h, n - 1);
      var name := NameOf(h[n - 1]);
      PyBumpClasses(tc, name);
      BumpDistinct(Classes(tc), PyKey(name));
      forall k
        ensures CountOf(Counter(h, n), k) == NameCount(h, n, k)
        ensures Counted(Counter(h, n), k) <==> NameCount(h, n, k) > 0
      {
        BumpGet(Classes(tc), PyKey(name), PyKey(k));
      }
    }
  }

  /** The counter's counts add up to the number of entries. */
  lemma {:induction false} CounterSum(h: seq<Entry>, n: nat)
    requires n <= |h|
    ensures SumCounts(Counter(h, n)) == n
  {
    if n > 0 {
      CounterSum(h, n - 1);
      PyBumpSum(Counter(h, n - 1), NameOf(h[n - 1]));
    }
  }

  /** The counter holds one key per class of tool names used, each with the
      number of entries calling a tool of that name, and the counts add up
      to the number of entries. */
  lemma CounterCounts(h: seq<Entry>, n: nat)
    requires n <= |h|
    ensures CountsOf(Counter(h, n), h, n)
  {
    CounterKeys(h, n);
    CounterClasses(h, n);
    CounterSum(h, n);
  }

  /** A missing name and a null name are one key, None; `1`, `True` and
      `1.0` are one key too, the `1` seen first, counted three times. */
  lemma CounterMergesEqualNames()
    ensures Counter([Entry([], []), Entry([("name", Null)], [])], 2) == [(None, 2)]
    ensures Counter([Entry([("name", Int(1))], []), Entry([("name", Bool(true))], []),
      Entry([("name", Float(1.0))], [])], 3) == [(Some(Int(1)), 3)]
  {
  }

  /** The loop state after the first `i` entries. */
  ghost predicate Tallied(history: seq<Entry>, i: nat, toolCounts: Dict<Option<Value>, int>,
    errors: int, repeats: int, lastSig: Option<Dict<string, Value>>)
  {
    && i <= |history|
    && toolCounts == Counter(history, i)
    && errors == Errors(history, i) && repeats == Repeats(history, i)
    && (i == 0 ==> lastSig.None?)
    && (i > 0 ==> lastSig == Some(history[i - 1].action))
  }

  /** One pass of the loop body of `compute_metrics` over `history[i]`. */
  method Tally(history: seq<Entry>, i: nat, toolCounts: Dict<Option<Value>, int>,
    errors: int, repeats: int, lastSig: Option<Dict<string, Value>>)
    returns (toolCounts': Dict<Option<Value>, int>, errors': int, repeats': int, lastSig': Option<Dict<string, Value>>)
    requires i < |history| && Tallied(history, i, toolCounts, errors, repeats, lastSig)
    ensures Tallied(history, i + 1, toolCounts', errors', repeats', lastSig')
  {
    var h := history[i];
    toolCounts' := PyBump(toolCounts, NameOf(h));
    errors' := errors;
    if !Truthy(Get(h.result, "ok").GetOr(Bool(false))) {
      errors' := errors + 1;
    }
    var sig := h.action;
    repeats' := repeats;
    if lastSig == Some(sig) {
      repeats' := repeats + 1;
    }
    lastSig' := Some(sig);
  }

  /** `compute_metrics(history)`. A `Counter` raises TypeError on a name
      that cannot be a dict key. */
  method ComputeMetrics(history: seq<Entry>) returns (r: Raising<Metrics>)
    ensures r.Raised? <==> !AllCountable(history)
    ensures r.Raised? ==> r.exc == TypeError("unhashable type")
    ensures r.Returned? ==> r.value == Metrics(|history|, Counter(history, |history|),
      Errors(history, |history|), Repeats(history, |history|), 0)
  {
    var toolCounts: Dict<Option<Value>, int> := [];
    var errors := 0;
    var repeats := 0;
    var lastSig: Option<Dict<string, Value>> := None;
    var i := 0;
    while i < |history|
      invariant 0 <= i <= |history|
      invariant forall j | 0 <= j < i :: CountableName(NameOf(history[j]))
      invariant Tallied(history, i, toolCounts, errors, repeats, lastSig)
    {
      if !CountableName(NameOf(history[i])) {
        return Raised(TypeError("unhashable type"));
      }
      toolCounts, errors, repeats, lastSig := Tally(history, i, toolCounts, errors, repeats, lastSig);
      i := i + 1;
    }
    r := Returned(Metrics(|history|, toolCounts, errors, repeats, 0));
  }

  /** The metrics of a history a `Counter` accepts: one step per entry, the
      tool counts are exact and add up to the steps, errors and repeats are
      bounded by the steps. */
  lemma MetricsFacts(history: seq<Entry>)
    ensures var m := Metrics(|history|, Counter(history, |history|),
      Errors(history, |history|), Repeats(history, |history|), 0);
      && CountsOf(m.toolCounts, history, |history|)
      && m.errors <= m.steps
      && (m.steps == 0 ==> m.repeats == 0)
      && (m.steps > 0 ==> m.repeats < m.steps)
      && (history == [] ==> m.toolCounts == [] && m.errors == 0 && m.repeats == 0)
  {
    CounterCounts(history, |history|);
  }
}
