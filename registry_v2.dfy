/** The second-generation tool registry: a name-keyed table of tool
    descriptions that rejects duplicate registrations. */
module RegistryV2 {
  import opened Wrappers
  import opened Dicts
  import opened Values
  import opened StringOrder

  /** What a tool function does with its arguments: returns a value (its
      output text, or any other value, since the function is untyped), or
      raises. */
  datatype FnOutcome = Output(value: Value) | Threw(exc: Exception)

  datatype ToolSpec = ToolSpec(
    name: string,
    description: string,
    argsSchema: Dict<string, Value>,
    fn: Dict<string, Value> -> FnOutcome,
    safetyNotes: string)

  /** Each entry is stored under its own name, and no name occurs twice. */
  ghost predicate WellKeyed(tools: Dict<string, ToolSpec>) {
    DistinctKeys(tools) && forall i | 0 <= i < |tools| :: tools[i].1.name == tools[i].0
  }

  /** `register(spec)` on the table's contents. */
  function Registered(tools: Dict<string, ToolSpec>, spec: ToolSpec): (r: Raising<Dict<string, ToolSpec>>)
    ensures HasKey(tools, spec.name) <==> r.Raised?
  {
    if HasKey(tools, spec.name) then Raised(ValueError("Tool already registered: " + spec.name))
    else Returned(tools + [(spec.name, spec)])
  }

  /** A fresh name is added, after which it looks up to the new spec; no
      other lookup changes. */
  lemma RegisteredGet(tools: Dict<string, ToolSpec>, spec: ToolSpec, other: string)
    requires !HasKey(tools, spec.name)
    ensures Get(Registered(tools, spec).value, spec.name) == Some(spec)
    ensures other != spec.name ==> Get(Registered(tools, spec).value, other) == Get(tools, other)
    ensures Keys(Registered(tools, spec).value) == Keys(tools) + [spec.name]
  {
    var r := tools + [(spec.name, spec)];
    assert r == Put(tools, spec.name, spec);
    if other != spec.name {
      PutOther(tools, spec.name, spec, other);
    }
  }

  lemma RegisteredWellKeyed(tools: Dict<string, ToolSpec>, spec: ToolSpec)
    requires WellKeyed(tools) && !HasKey(tools, spec.name)
    ensures WellKeyed(Registered(tools, spec).value)
  {
    var r := tools + [(spec.name, spec)];
    assert r == Put(tools, spec.name, spec);
    PutDistinct(tools, spec.name, spec);
  }

  /** One tool card: the description line, the schema line, and a safety
      line when the tool has safety notes. `schemaRepr` renders the schema
      dict as Python's `str` would. */
  function Card(t: ToolSpec, schemaRepr: Dict<string, Value> -> string): (lines: seq<string>)
    ensures |lines| == if t.safetyNotes == "" then 2 else 3
    ensures lines[0] == "- " + t.name + ": " + t.description
  {
    ["- " + t.name + ": " + t.description, "  args_schema: " + schemaRepr(t.argsSchema)]
    + (if t.safetyNotes != "" then ["  safety: " + t.safetyNotes] else [])
  }

  /** The cards of `names`, in that order. */
  function Cards(tools: Dict<string, ToolSpec>, names: seq<string>, schemaRepr: Dict<string, Value> -> string): seq<string>
    requires forall i | 0 <= i < |names| :: HasKey(tools, names[i])
  {
    if names == [] then []
    else Cards(tools, names[..|names| - 1], schemaRepr) + Card(Get(tools, names[|names| - 1]).value, schemaRepr)
  }

  /** How many tools carry safety notes. */
  function SafetyCount(tools: Dict<string, ToolSpec>, names: seq<string>): nat
    requires forall i | 0 <= i < |names| :: HasKey(tools, names[i])
  {
    if names == [] then 0
    else SafetyCount(tools, names[..|names| - 1]) + (if Get(tools, names[|names| - 1]).value.safetyNotes != "" then 1 else 0)
  }

  lemma {:induction false} CardsLength(tools: Dict<string, ToolSpec>, names: seq<string>, schemaRepr: Dict<string, Value> -> string)
    requires forall i | 0 <= i < |names| :: HasKey(tools, names[i])
    ensures |Cards(tools, names, schemaRepr)| == 2 * |names| + SafetyCount(tools, names)
  {
    if names != [] {
      CardsLength(tools, names[..|names| - 1], schemaRepr);
    }
  }

  /** `"\n".join(lines)` */
  function Join(lines: seq<string>): string {
    if lines == [] then ""
    else if |lines| == 1 then lines[0]
    else Join(lines[..|lines| - 1]) + "\n" + lines[|lines| - 1]
  }

  class ToolRegistry {
    var tools: Dict<string, ToolSpec>

    ghost predicate Valid()
      reads this
    {
      WellKeyed(tools)
    }

    constructor()
      ensures Valid() && tools == []
    {
      tools := [];
    }

    /** `register(spec)`: raises, changing nothing, when the name is taken. */
    method Register(spec: ToolSpec) returns (r: Raising<()>)
      requires Valid()
      modifies this
      ensures Valid()
      ensures var expected := Registered(old(tools), spec);
        if expected.Raised? then r == Raised(expected.exc) && tools == old(tools)
        else r == Returned(()) && tools == expected.value
    {
      if HasKey(tools, spec.name) {
        r := Raised(ValueError("Tool already registered: " + spec.name));
      } else {
        RegisteredWellKeyed(tools, spec);
        tools := tools + [(spec.name, spec)];
        r := Returned(());
      }
    }

    /** `get(name)`: the registered spec, or None. */
    function GetTool(name: string): (r: Option<ToolSpec>)
      reads this
      requires Valid()
      ensures r.Some? <==> HasKey(tools, name)
      ensures r.Some? ==> r.value.name == name
    {
      Get(tools, name)
    }

    /** `names()`: every registered name once, ascending. */
    function Names(): (ns: seq<string>)
      reads this
      requires Valid()
      ensures Sorted(ns) && multiset(ns) == multiset(Keys(tools))
      ensures forall i | 0 <= i < |ns| :: HasKey(tools, ns[i])
      ensures forall i, j | 0 <= i < j < |ns| :: Less(ns[i], ns[j])
    {
      var ns := SortStrings(Keys(tools));
      forall i | 0 <= i < |ns| ensures HasKey(tools, ns[i]) {
        assert ns[i] in multiset(Keys(tools));
      }
      NamesDistinct(tools, ns);
      SortedDistinctAscending(ns);
      ns
    }

    /** `to_prompt()`: the cards of all tools in name order, one per line. */
    method ToPrompt(schemaRepr: Dict<string, Value> -> string) returns (text: string)
      requires Valid()
      ensures text == Join(Cards(tools, Names(), schemaRepr))
    {
      var names := Names();
      var lines: seq<string> := [];
      var i := 0;
      while i < |names|
        invariant 0 <= i <= |names|
        invariant lines == Cards(tools, names[..i], schemaRepr)
      {
        CardsStep(tools, names, i, schemaRepr);
        ghost var before := lines;
        var t := Get(tools, names[i]).value;
        lines := lines + ["- " + t.name + ": " + t.description];
        lines := lines + ["  args_schema: " + schemaRepr(t.argsSchema)];
        if t.safetyNotes != "" {
          lines := lines + ["  safety: " + t.safetyNotes];
        }
        assert lines == before + Card(t, schemaRepr);
        i := i + 1;
      }
      assert names[..i] == names;
      text := Join(lines);
    }
  }

  lemma CardsStep(tools: Dict<string, ToolSpec>, names: seq<string>, i: nat, schemaRepr: Dict<string, Value> -> string)
    requires i < |names| && forall k | 0 <= k < |names| :: HasKey(tools, names[k])
    ensures Cards(tools, names[..i + 1], schemaRepr) == Cards(tools, names[..i], schemaRepr) + Card(Get(tools, names[i]).value, schemaRepr)
  {
    assert names[..i + 1][..i] == names[..i];
  }

  /** Sorting distinct keys gives distinct names. */
  lemma NamesDistinct(tools: Dict<string, ToolSpec>, ns: seq<string>)
    requires WellKeyed(tools) && multiset(ns) == multiset(Keys(tools))
    ensures forall i, j | 0 <= i < j < |ns| :: ns[i] != ns[j]
  {
    var ks := Keys(tools);
    forall x ensures multiset(ks)[x] <= 1 {
      DistinctCount(tools, x);
    }
    forall i, j | 0 <= i < j < |ns| ensures ns[i] != ns[j] {
      if ns[i] == ns[j] {
        assert multiset(ns)[ns[i]] >= 2 by {
          TwoOccurrences(ns, i, j);
        }
      }
    }
  }

  lemma {:induction false} DistinctCount(tools: Dict<string, ToolSpec>, x: string)
    requires DistinctKeys(tools)
    ensures multiset(Keys(tools))[x] <= 1
  {
    if tools != [] {
      var rest := tools[1..];
      assert DistinctKeys(rest);
      DistinctCount(rest, x);
      assert Keys(tools) == [tools[0].0] + Keys(rest);
      if tools[0].0 == x {
        assert x !in Keys(rest);
      }
    }
  }

  lemma TwoOccurrences(s: seq<string>, i: nat, j: nat)
    requires i < j < |s| && s[i] == s[j]
    ensures multiset(s)[s[i]] >= 2
  {
    assert s == s[..i] + [s[i]] + s[i + 1..j] + [s[j]] + s[j + 1..];
  }

  /** An empty registry renders as the empty string. */
  lemma EmptyPrompt(schemaRepr: Dict<string, Value> -> string)
    ensures Join(Cards([], SortStrings(Keys<string, ToolSpec>([])), schemaRepr)) == ""
  {
  }
}
