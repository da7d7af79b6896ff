/** The minimal JSON-schema check applied to a tool call's arguments before
    the tool runs. Schemas and arguments are dynamic Python values, so every
    place where the checker would raise on an ill-typed schema is modelled. */
module ValidateArgs {
  import opened Wrappers
  import opened Strings
  import opened Dicts
  import opened Values

  /** `_is_type(x, t)`. A `bool` is an `int` in Python, so "number" admits
      booleans while "integer" excludes them; a type name the checker does
      not know admits anything. */
  predicate IsType(x: Value, t: Value) {
    if t == Str("string") then x.Str?
    else if t == Str("number") then x.Int? || x.Float? || x.Bool?
    else if t == Str("integer") then x.Int?
    else if t == Str("boolean") then x.Bool?
    else if t == Str("object") then x.Object?
    else if t == Str("array") then x.List?
    else true
  }

  /** Booleans pass "number" and "boolean" but not "integer"; integers pass
      "number" and "integer"; a type name outside the six known ones, or a
      non-string type, admits every value. */
  lemma IsTypeFacts(x: Value, t: Value)
    ensures x.Bool? ==> IsType(x, Str("number")) && IsType(x, Str("boolean")) && !IsType(x, Str("integer"))
    ensures x.Int? ==> IsType(x, Str("number")) && IsType(x, Str("integer")) && !IsType(x, Str("boolean"))
    ensures x.Float? ==> IsType(x, Str("number")) && !IsType(x, Str("integer"))
    ensures !(t.Str? && t.s in {"string", "number", "integer", "boolean", "object", "array"}) ==> IsType(x, t)
  {
  }

  /** `str(type(v))` */
  function TypeRepr(v: Value): string {
    match v
    case Null => "<class 'NoneType'>"
    case Bool(_) => "<class 'bool'>"
    case Int(_) => "<class 'int'>"
    case Float(_) => "<class 'float'>"
    case Str(_) => "<class 'str'>"
    case List(_) => "<class 'list'>"
    case Object(_) => "<class 'dict'>"
  }

  /** `str(x)` of a float, Python's shortest round-tripping `repr`
      (`1.5`, `2.0`, `1e-07`); its digits are a parameter. */
  type FloatText = real -> string

  /** `str(k)` for a hashable value taken from a schema's `required` list
      (a list or dict there raises before it is named). */
  function KeyText(k: Value, floatText: FloatText): (r: string)
    ensures k.Str? ==> r == k.s
    ensures k.Float? ==> r == floatText(k.r)
    ensures k.Int? && k.i >= 0 ==> r == NatToString(k.i)
  {
    match k
    case Str(s) => s
    case Int(i) => IntToString(i)
    case Float(x) => floatText(x)
    case Bool(b) => if b then "True" else "False"
    case Null => "None"
    case _ => "<unhashable>"
  }

  /** The items `for k in x` visits: a list's items, a string's characters,
      a dict's keys; anything else is not iterable. */
  function Iterate(x: Value): (r: Raising<seq<Value>>)
    ensures x.List? ==> r == Returned(x.items)
  {
    match x
    case List(items) => Returned(items)
    case Str(s) => Returned(seq(|s|, i requires 0 <= i < |s| => Str([s[i]])))
    case Object(fields) => Returned(seq(|fields|, i requires 0 <= i < |fields| => Str(fields[i].0)))
    case _ => Raised(TypeError("object is not iterable"))
  }

  /** `k in args` for a dict `args` with string keys. */
  predicate KeyIn(k: Value, args: Dict<string, Value>) {
    k.Str? && HasKey(args, k.s)
  }

  /** The loop over `required`: the first absent key, if any; an unhashable
      key raises. */
  function FirstMissing(required: seq<Value>, args: Dict<string, Value>): (r: Raising<Option<Value>>)
    ensures r == Returned(None) <==> forall k | 0 <= k < |required| :: Hashable(required[k]) && KeyIn(required[k], args)
    ensures r.Returned? && r.value.Some? ==> r.value.value in required && !KeyIn(r.value.value, args)
    ensures r.Returned? && r.value.Some? && |required| > 0 && Hashable(required[0]) && !KeyIn(required[0], args) ==> r.value.value == required[0]
  {
    if required == [] then Returned(None)
    else if !Hashable(required[0]) then Raised(TypeError("unhashable type"))
    else if !KeyIn(required[0], args) then Returned(Some(required[0]))
    else FirstMissing(required[1..], args)
  }

  /** The type check of one argument against `properties`: None when it
      passes, the declared type when it fails. */
  function CheckProperty(k: string, v: Value, props: Value): (r: Raising<Option<Value>>)
    ensures props.Object? && !HasKey(props.fields, k) ==> r == Returned(None)
    ensures r.Returned? && r.value.Some? ==> r.value.value.Str?
  {
    match props
    case Object(p) =>
      (match Get(p, k)
       case None => Returned(None)
       case Some(decl) =>
         if !decl.Object? then Raised(AttributeError("object has no attribute 'get'"))
         else
           (match Get(decl.fields, "type")
            case None => Returned(None)
            case Some(t) => if Truthy(t) && !IsType(v, t) then Returned(Some(t)) else Returned(None)))
    case List(items) =>
      if Str(k) in items then Raised(TypeError("list indices must be integers or slices, not str")) else Returned(None)
    case Str(s) =>
      if Contains(s, k) then Raised(TypeError("string indices must be integers, not 'str'")) else Returned(None)
    case _ => Raised(TypeError("argument of type is not iterable"))
  }

  /** The loop over `args.items()`: the first mismatching argument and the
      type it should have had. */
  function FirstMismatch(args: Dict<string, Value>, props: Value): (r: Raising<Option<(string, Value, Value)>>)
    ensures r.Returned? && r.value.Some? ==> (r.value.value.0, r.value.value.1) in args && r.value.value.2.Str?
  {
    if args == [] then Returned(None)
    else
      match CheckProperty(args[0].0, args[0].1, props)
      case Raised(e) => Raised(e)
      case Returned(Some(t)) => Returned(Some((args[0].0, args[0].1, t)))
      case Returned(None) =>
        assert forall p | p in args[1..] :: p in args;
        FirstMismatch(args[1..], props)
  }

  /** `schema.get(k, default)` */
  function SchemaGet(schema: Dict<string, Value>, k: string, default: Value): Value {
    Get(schema, k).GetOr(default)
  }

  const OK: (bool, string) := (true, "OK")

  /** `validate_args(schema, args)` */
  function Validate(schema: Dict<string, Value>, args: Value, floatText: FloatText): (r: Raising<(bool, string)>)
    ensures Get(schema, "type") != Some(Str("object")) ==> r == Returned(OK)
    ensures Get(schema, "type") == Some(Str("object")) && !args.Object? ==>
      r == Returned((false, "args must be object, got " + TypeRepr(args)))
  {
    if Get(schema, "type") != Some(Str("object")) then Returned(OK)
    else if !args.Object? then Returned((false, "args must be object, got " + TypeRepr(args)))
    else
      match Iterate(SchemaGet(schema, "required", List([])))
      case Raised(e) => Raised(e)
      case Returned(required) =>
        match FirstMissing(required, args.fields)
        case Raised(e) => Raised(e)
        case Returned(Some(k)) => Returned((false, "missing required arg: " + KeyText(k, floatText)))
        case Returned(None) =>
          match FirstMismatch(args.fields, SchemaGet(schema, "properties", Object([])))
          case Raised(e) => Raised(e)
          case Returned(Some((k, v, t))) =>
            Returned((false, "arg " + k + " type mismatch: expected " + t.s + ", got " + TypeRepr(v)))
          case Returned(None) => Returned(OK)
  }

  /** A schema of the documented shape: `required` a list of strings,
      `properties` a dict of dicts. */
  predicate WellFormed(schema: Dict<string, Value>) {
    var req := SchemaGet(schema, "required", List([]));
    var props := SchemaGet(schema, "properties", Object([]));
    req.List? && (forall k | 0 <= k < |req.items| :: req.items[k].Str?)
    && props.Object? && forall k | 0 <= k < |props.fields| :: props.fields[k].1.Object?
  }

  /** The type a well-formed schema declares for `k`, if any. */
  function DeclaredType(props: Dict<string, Value>, k: string): Option<Value>
    requires forall i | 0 <= i < |props| :: props[i].1.Object?
  {
    match Get(props, k)
    case None => None
    case Some(decl) => Get(decl.fields, "type")
  }

  /** Every argument with a declared, truthy type has that type. */
  predicate TypesMatch(args: Dict<string, Value>, props: Dict<string, Value>)
    requires forall i | 0 <= i < |props| :: props[i].1.Object?
  {
    forall i | 0 <= i < |args| ::
      var t := DeclaredType(props, args[i].0);
      t.Some? && Truthy(t.value) ==> IsType(args[i].1, t.value)
  }

  lemma {:induction false} FirstMismatchNoneIff(args: Dict<string, Value>, props: Dict<string, Value>)
    requires forall i | 0 <= i < |props| :: props[i].1.Object?
    ensures FirstMismatch(args, Object(props)).Returned?
    ensures FirstMismatch(args, Object(props)) == Returned(None) <==> TypesMatch(args, props)
  {
    if args != [] {
      FirstMismatchNoneIff(args[1..], props);
      assert forall i | 1 <= i < |args| :: args[i] == args[1..][i - 1];
    }
  }

  /** On a well-formed object schema and dict arguments, validation passes
      exactly when every required key is present and every typed argument
      has its declared type; it never raises. */
  lemma ValidateOkIff(schema: Dict<string, Value>, args: Dict<string, Value>, floatText: FloatText)
    requires Get(schema, "type") == Some(Str("object")) && WellFormed(schema)
    ensures Validate(schema, Object(args), floatText).Returned?
    ensures var req := SchemaGet(schema, "required", List([])).items;
      var props := SchemaGet(schema, "properties", Object([])).fields;
      Validate(schema, Object(args), floatText) == Returned(OK)
      <==> (forall k | 0 <= k < |req| :: HasKey(args, req[k].s)) && TypesMatch(args, props)
  {
    var req := SchemaGet(schema, "required", List([])).items;
    var props := SchemaGet(schema, "properties", Object([])).fields;
    assert Iterate(SchemaGet(schema, "required", List([]))) == Returned(req);
    FirstMismatchNoneIff(args, props);
    FirstMissingIff(req, args);
  }

  lemma {:induction false} FirstMissingIff(req: seq<Value>, args: Dict<string, Value>)
    requires forall k | 0 <= k < |req| :: req[k].Str?
    ensures FirstMissing(req, args).Returned?
    ensures FirstMissing(req, args) == Returned(None) <==> forall k | 0 <= k < |req| :: HasKey(args, req[k].s)
  {
    if req != [] {
      assert forall k | 0 <= k < |req| - 1 :: req[1..][k] == req[k + 1];
      FirstMissingIff(req[1..], args);
    }
  }

  /** Required keys are checked before types, in the order `required`
      lists them: the first absent one is named even when some argument also
      has the wrong type. */
  lemma ValidateNamesFirstMissing(schema: Dict<string, Value>, args: Dict<string, Value>, i: nat, floatText: FloatText)
    requires Get(schema, "type") == Some(Str("object")) && WellFormed(schema)
    requires var req := SchemaGet(schema, "required", List([])).items;
      i < |req| && !HasKey(args, req[i].s) && forall k | 0 <= k < i :: HasKey(args, req[k].s)
    ensures Validate(schema, Object(args), floatText) == Returned((false, "missing required arg: " + SchemaGet(schema, "required", List([])).items[i].s))
  {
    var req := SchemaGet(schema, "required", List([])).items;
    FirstMissingAt(req, args, i);
  }

  /** The arguments are a dict with string keys, so a required key that is
      not a string is always missing: after the present string keys before
      it, it is named with `str(k)`, for a float the float's text. */
  lemma ValidateNamesNonStringKey(schema: Dict<string, Value>, args: Dict<string, Value>, i: nat, floatText: FloatText)
    requires Get(schema, "type") == Some(Str("object"))
    requires var req := SchemaGet(schema, "required", List([]));
      req.List? && i < |req.items| && Hashable(req.items[i]) && !req.items[i].Str?
      && forall k | 0 <= k < i :: req.items[k].Str? && HasKey(args, req.items[k].s)
    ensures var k := SchemaGet(schema, "required", List([])).items[i];
      && Validate(schema, Object(args), floatText) == Returned((false, "missing required arg: " + KeyText(k, floatText)))
      && (k.Float? ==> Validate(schema, Object(args), floatText) == Returned((false, "missing required arg: " + floatText(k.r))))
  {
    var req := SchemaGet(schema, "required", List([])).items;
    FirstMissingAt(req, args, i);
  }

  /** `{"type": "object", "required": [1.5]}` with no arguments names the
      key as `str(1.5)`, and `[7]` as "7". */
  lemma ValidateFloatKeyExample(floatText: FloatText)
    ensures Validate([("type", Str("object")), ("required", List([Float(1.5)]))], Object([]), floatText)
      == Returned((false, "missing required arg: " + floatText(1.5)))
    ensures Validate([("type", Str("object")), ("required", List([Int(7)]))], Object([]), floatText)
      == Returned((false, "missing required arg: 7"))
  {
    ValidateNamesNonStringKey([("type", Str("object")), ("required", List([Float(1.5)]))], [], 0, floatText);
    var schema := [("type", Str("object")), ("required", List([Int(7)]))];
    assert SchemaGet(schema, "required", List([])) == List([Int(7)]);
    ValidateNamesNonStringKey(schema, [], 0, floatText);
    assert DigitChar(7) == '7';
    assert KeyText(Int(7), floatText) == "7";
    assert "missing required arg: " + "7" == "missing required arg: 7";
  }

  /** With the keys before `i` present and key `i` hashable and absent,
      key `i` is the one reported. */
  lemma {:induction false} FirstMissingAt(req: seq<Value>, args: Dict<string, Value>, i: nat)
    requires i < |req| && Hashable(req[i]) && !KeyIn(req[i], args)
    requires forall k | 0 <= k < i :: KeyIn(req[k], args)
    ensures FirstMissing(req, args) == Returned(Some(req[i]))
  {
    if i > 0 {
      assert forall k | 0 <= k < |req| - 1 :: req[1..][k] == req[k + 1];
      FirstMissingAt(req[1..], args, i - 1);
    } else {
      assert !KeyIn(req[0], args);
    }
  }

  /** Arguments the schema does not describe are never checked. */
  lemma ExtraArgsIgnored(args: Dict<string, Value>, props: Dict<string, Value>, k: string, v: Value)
    requires forall i | 0 <= i < |props| :: props[i].1.Object?
    requires !HasKey(props, k)
    ensures TypesMatch(args + [(k, v)], props) <==> TypesMatch(args, props)
  {
    var a := args + [(k, v)];
    assert forall i | 0 <= i < |args| :: a[i] == args[i];
  }
}
