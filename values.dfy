/** JSON-like Python values: what a parsed model reply, a tool-call's
    arguments and a history entry are made of. */
module Values {
  import opened Wrappers
  import opened Dicts

  datatype Value =
    | Null
    | Bool(b: bool)
    | Int(i: int)
    | Float(r: real)
    | Str(s: string)
    | List(items: seq<Value>)
    | Object(fields: Dict<string, Value>)

  /** Python truthiness. */
  predicate Truthy(v: Value) {
    match v
    case Null => false
    case Bool(b) => b
    case Int(i) => i != 0
    case Float(r) => r != 0.0
    case Str(s) => s != []
    case List(items) => items != []
    case Object(fields) => fields != []
  }

  /** `v.get(k)` on a dict value; None when the key is absent. */
  function Field(v: Value, k: string): Option<Value>
    requires v.Object?
  {
    Get(v.fields, k)
  }

  /** `k in v` for a dict value. */
  predicate HasField(v: Value, k: string)
    requires v.Object?
  {
    HasKey(v.fields, k)
  }

  /** Whether a value can be a set member or dict key (lists and dicts cannot). */
  predicate Hashable(v: Value) {
    !v.List? && !v.Object?
  }
}
