/** Repair of the common wrapper and nesting mistakes in a tool call that a
    language model returned as a JSON object. */
module Normalize {
  import opened Wrappers
  import opened Dicts
  import opened Values
  import opened ToolSchema

  /** `ALLOWED`: the tool names a normalised call may carry. */
  const ALLOWED: set<string> := {"shell_exec", "python_exec", "file_write", "pip_install"}

  lemma AllowedAreToolNames()
    ensures ALLOWED == TOOL_NAMES
  {
  }

  /** `x in d` for a value already known to be a dict. */
  predicate IsDictWith(v: Option<Value>, k1: string, k2: string) {
    v.Some? && v.value.Object? && HasKey(v.value.fields, k1) && HasKey(v.value.fields, k2)
  }

  /** `x == s` for a string literal `s`: only a `str` equal to `s` compares equal. */
  predicate IsText(v: Option<Value>, s: string) {
    v == Some(Str(s))
  }

  /** `obj.get(k)` on a dict, with Python's `None` for a missing key. */
  function GetField(obj: Value, k: string): Option<Value>
    requires obj.Object?
  {
    Field(obj, k)
  }

  /** The empty dict, which the normaliser returns for anything malformed. */
  const EMPTY: Value := Object([])

  /** `{"name": n, "args": a}`: the only shape a non-empty result has. */
  predicate IsCallShape(v: Value) {
    v.Object? && |v.fields| == 2 && v.fields[0].0 == "name" && v.fields[1].0 == "args"
    && v.fields[0].1.Str? && v.fields[1].1.Object?
  }

  /** `normalize_toolcall_obj(obj)`. The third unwrap evaluates
      `name not in ALLOWED`, which raises TypeError when `name` is a list or
      a dict (unhashable); it is reached only when `args` holds both `name`
      and `args`. */
  function NormalizeCall(obj: Value): (r: Raising<Value>)
    ensures !obj.Object? ==> r == Returned(EMPTY)
    ensures r.Returned? ==> r.value == EMPTY || IsCallShape(r.value)
  {
    if !obj.Object? then Returned(EMPTY)
    else
      var name0, args0 := GetField(obj, "name"), GetField(obj, "args");
      // unwrap a `tool_call` wrapper
      var (obj1, name1, args1) :=
        if IsText(name0, "tool_call") && IsDictWith(args0, "name", "args") then
          (args0.value, GetField(args0.value, "name"), GetField(args0.value, "args"))
        else (obj, name0, args0);
      // unwrap a call nested inside `python_exec` arguments
      var (obj2, name2, args2) :=
        if IsText(name1, "python_exec") && IsDictWith(args1, "name", "args") then
          (args1.value, GetField(args1.value, "name"), GetField(args1.value, "args"))
        else (obj1, name1, args1);
      if IsDictWith(args2, "name", "args") && name2.Some? && !Hashable(name2.value) then
        Raised(TypeError("unhashable type"))
      else
        // a third unwrap when the outer name is not a tool name
        var obj3 :=
          if IsDictWith(args2, "name", "args") && !(name2.Some? && name2.value.Str? && name2.value.s in ALLOWED) then
            args2.value
          else obj2;
        Returned(Finish(obj3))
  }

  /** The final shape check and the key filter. */
  function Finish(obj: Value): (r: Value)
    requires obj.Object?
    ensures r == EMPTY || IsCallShape(r)
  {
    var n, a := GetField(obj, "name"), GetField(obj, "args");
    if n.Some? && n.value.Str? && a.Some? && a.value.Object? then
      Object([("name", n.value), ("args", a.value)])
    else EMPTY
  }

  /** A dict holding a nested call: both `name` and `args` keys. */
  predicate Nested(a: Dict<string, Value>) {
    HasKey(a, "name") && HasKey(a, "args")
  }

  /** A well-formed call (a tool name and plain dict arguments) keeps its
      name and arguments, and every other key is dropped. */
  lemma NormalizeKeepsPlainCall(fields: Dict<string, Value>, n: string, a: Dict<string, Value>)
    requires Get(fields, "name") == Some(Str(n)) && Get(fields, "args") == Some(Object(a))
    requires n in ALLOWED && !Nested(a)
    ensures NormalizeCall(Object(fields)) == Returned(Object([("name", Str(n)), ("args", Object(a))]))
  {
  }

  /** `{"name": "tool_call", "args": {"name": N, "args": A}}` unwraps to
      `{"name": N, "args": A}` when `A` holds no further nested call. */
  lemma NormalizeUnwrapsToolCall(n: string, a: Dict<string, Value>)
    requires n in ALLOWED && !Nested(a)
    ensures NormalizeCall(Object([("name", Str("tool_call")), ("args", Object([("name", Str(n)), ("args", Object(a))]))]))
      == Returned(Object([("name", Str(n)), ("args", Object(a))]))
  {
    var inner: Dict<string, Value> := [("name", Str(n)), ("args", Object(a))];
    assert IndexOf(inner, "args") == 1 by {
      assert IndexOf(inner[1..], "args") == 0;
    }
    var outer: Dict<string, Value> := [("name", Str("tool_call")), ("args", Object(inner))];
    assert IndexOf(outer, "args") == 1 by {
      assert IndexOf(outer[1..], "args") == 0;
    }
    assert Nested(inner) by {
      assert inner[0].0 == "name" && inner[1].0 == "args";
    }
  }

  /** A `python_exec` call whose arguments are themselves a call unwraps to
      that inner call. */
  lemma NormalizeUnwrapsPythonExec(n: string, a: Dict<string, Value>)
    requires n in ALLOWED && !Nested(a)
    ensures NormalizeCall(Object([("name", Str("python_exec")), ("args", Object([("name", Str(n)), ("args", Object(a))]))]))
      == Returned(Object([("name", Str(n)), ("args", Object(a))]))
  {
    var inner: Dict<string, Value> := [("name", Str(n)), ("args", Object(a))];
    assert IndexOf(inner, "args") == 1 by {
      assert IndexOf(inner[1..], "args") == 0;
    }
    var outer: Dict<string, Value> := [("name", Str("python_exec")), ("args", Object(inner))];
    assert IndexOf(outer, "args") == 1 by {
      assert IndexOf(outer[1..], "args") == 0;
    }
    assert Nested(inner) by {
      assert inner[0].0 == "name" && inner[1].0 == "args";
    }
  }

  /** The two concrete cases of the normaliser's contract tests. */
  lemma NormalizeContractExamples()
    ensures NormalizeCall(Object([("name", Str("tool_call")), ("args", Object([("name", Str("shell_exec")), ("args", Object([("cmd", Str("ls"))]))]))]))
      == Returned(Object([("name", Str("shell_exec")), ("args", Object([("cmd", Str("ls"))]))]))
    ensures NormalizeCall(Object([("name", Str("python_exec")), ("args", Object([("name", Str("file_write")), ("args", Object([("path", Str("a.txt")), ("content", Str("hi"))]))]))]))
      == Returned(Object([("name", Str("file_write")), ("args", Object([("path", Str("a.txt")), ("content", Str("hi"))]))]))
  {
    var cmd: Dict<string, Value> := [("cmd", Str("ls"))];
    assert !Nested(cmd);
    NormalizeUnwrapsToolCall("shell_exec", cmd);
    var fw: Dict<string, Value> := [("path", Str("a.txt")), ("content", Str("hi"))];
    assert !Nested(fw);
    NormalizeUnwrapsPythonExec("file_write", fw);
  }

  /** The third unwrap: under a name outside `ALLOWED` that is not the
      `tool_call` wrapper, nested arguments replace the outer call. */
  lemma NormalizeThirdUnwrap(fields: Dict<string, Value>, n: string, inner: Dict<string, Value>)
    requires Get(fields, "name") == Some(Str(n)) && Get(fields, "args") == Some(Object(inner))
    requires n !in ALLOWED && n != "tool_call" && Nested(inner)
    ensures NormalizeCall(Object(fields)) == Returned(Finish(Object(inner)))
  {
  }

  /** ... and only then: under a tool name other than `python_exec`, nested
      arguments stay where they are. */
  lemma NormalizeNoThirdUnwrap(fields: Dict<string, Value>, n: string, inner: Dict<string, Value>)
    requires Get(fields, "name") == Some(Str(n)) && Get(fields, "args") == Some(Object(inner))
    requires n in ALLOWED && n != "python_exec"
    ensures NormalizeCall(Object(fields)) == Returned(Object([("name", Str(n)), ("args", Object(inner))]))
  {
  }

  /** The only exception: the unhashable name reaching the third test. */
  lemma NormalizeRaisesOnlyTypeError(obj: Value)
    ensures NormalizeCall(obj).Raised? ==> obj.Object? && NormalizeCall(obj).exc == TypeError("unhashable type")
  {
  }

  /** A normalised, non-empty result whose name is a tool name is a valid
      `ToolCall`. */
  lemma NormalizedValidates(obj: Value)
    requires NormalizeCall(obj).Returned?
    ensures var r := NormalizeCall(obj).value;
      r != EMPTY && r.fields[0].1.s in ALLOWED ==>
        ValidateCall(r).Some? && ValidateCall(r).value.Name() == r.fields[0].1.s
        && ValidateCall(r).value.args == r.fields[1].1.fields
  {
    var r := NormalizeCall(obj).value;
    if r != EMPTY && r.fields[0].1.s in ALLOWED {
      var d := r.fields;
      assert IndexOf(d, "name") == 0;
      assert IndexOf(d, "args") == 1 by {
        assert IndexOf(d[1..], "args") == 0;
      }
    }
  }
}
