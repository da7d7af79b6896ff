/** Turning the model's JSON plan reply into plan lines:
    `[str(x).strip() for x in obj.get("plan", []) if str(x).strip()][:6]`. */
module PlanText {
  import opened Wrappers
  import opened Dicts
  import opened Values
  import opened Strings

  /** At most this many plan lines are kept. */
  const MAX_PLAN: nat := 6

  /** `for x in plan`: a list yields its items, a string its characters,
      a dict its keys; anything else raises TypeError (None). */
  function Iterated(v: Value): Option<seq<Value>> {
    match v
    case List(items) => Some(items)
    case Str(s) => Some(CharItems(s))
    case Object(fields) => Some(KeyItems(fields))
    case _ => None
  }

  function CharItems(s: string): (r: seq<Value>)
    ensures |r| == |s| && forall i | 0 <= i < |s| :: r[i] == Str([s[i]])
  {
    if s == [] then [] else [Str([s[0]])] + CharItems(s[1..])
  }

  function KeyItems(d: Dict<string, Value>): (r: seq<Value>)
    ensures |r| == |d| && forall i | 0 <= i < |d| :: r[i] == Str(d[i].0)
  {
    if d == [] then [] else [Str(d[0].0)] + KeyItems(d[1..])
  }

  /** `str(x)`: a string is itself; any other value is rendered by
      `repr`, whose text is not modelled. */
  function Text(v: Value, repr: Value -> string): string {
    if v.Str? then v.s else repr(v)
  }

  /** `str(x).strip()` */
  function Item(v: Value, repr: Value -> string): (t: string)
    ensures t != [] ==> Trimmed(t)
    ensures v.Str? && Trimmed(v.s) ==> t == v.s
  {
    StripTrimmed(Text(v, repr));
    Strip(Text(v, repr))
  }

  /** `str(x).strip()` of each item. */
  function Items(items: seq<Value>, repr: Value -> string): (ts: seq<string>)
    ensures |ts| == |items| && forall i | 0 <= i < |items| :: ts[i] == Item(items[i], repr)
    ensures forall t | t in ts && t != [] :: Trimmed(t)
  {
    seq(|items|, i requires 0 <= i < |items| => Item(items[i], repr))
  }

  /** The non-blank texts, in order. */
  function NonBlank(ts: seq<string>): (r: seq<string>)
    ensures |r| <= |ts|
    ensures forall t | t in r :: t in ts && t != []
  {
    if ts == [] then []
    else if ts[0] == [] then NonBlank(ts[1..])
    else [ts[0]] + NonBlank(ts[1..])
  }

  /** `[str(x).strip() for x in plan if str(x).strip()]`: the stripped
      texts, blanks dropped, in order. */
  function Cleaned(items: seq<Value>, repr: Value -> string): (r: seq<string>)
    ensures |r| <= |items|
    ensures forall i | 0 <= i < |r| :: Trimmed(r[i])
  {
    var r := NonBlank(Items(items, repr));
    assert forall i | 0 <= i < |r| :: r[i] in r;
    r
  }

  /** Nothing but blanks is dropped: the filtered list is empty exactly
      when every text is blank. */
  lemma {:induction false} NonBlankEmptyIff(ts: seq<string>)
    ensures NonBlank(ts) == [] <==> forall i | 0 <= i < |ts| :: ts[i] == []
  {
    if ts != [] {
      NonBlankEmptyIff(ts[1..]);
      assert forall i | 1 <= i < |ts| :: ts[i] == ts[1..][i - 1];
    }
  }

  /** Texts that are all non-blank are kept as they are. */
  lemma {:induction false} NonBlankKeepsAll(ts: seq<string>)
    requires forall i | 0 <= i < |ts| :: ts[i] != []
    ensures NonBlank(ts) == ts
  {
    if ts != [] {
      NonBlankKeepsAll(ts[1..]);
    }
  }

  /** The cleaned plan is empty exactly when every item's text strips to
      nothing. */
  lemma CleanedEmptyIff(items: seq<Value>, repr: Value -> string)
    ensures Cleaned(items, repr) == [] <==> forall i | 0 <= i < |items| :: Item(items[i], repr) == []
  {
    NonBlankEmptyIff(Items(items, repr));
  }

  /** The texts of a list of strings. */
  function Strs(items: seq<Value>): (ts: seq<string>)
    requires forall i | 0 <= i < |items| :: items[i].Str?
  {
    seq(|items|, i requires 0 <= i < |items| => items[i].s)
  }

  /** A plan of strings that are already stripped and non-blank is kept
      item for item. */
  lemma CleanedKeepsCleanPlan(items: seq<Value>, repr: Value -> string)
    requires forall i | 0 <= i < |items| :: items[i].Str? && Trimmed(items[i].s)
    ensures Cleaned(items, repr) == Strs(items)
  {
    NonBlankKeepsAll(Items(items, repr));
    assert Items(items, repr) == Strs(items);
  }

  /** `obj = json.loads(raw); plan = obj.get("plan", [])` and iterating
      over it: `parse` is `json.loads`, whose errors are not modelled; a
      reply that is not a dict has no `get`, and a `plan` entry that is not
      iterable raises TypeError. */
  function PlanItems(reply: string, parse: string -> Raising<Value>): Raising<seq<Value>> {
    match parse(reply)
    case Raised(e) => Raised(e)
    case Returned(obj) =>
      if !obj.Object? then Raised(AttributeError("object has no attribute 'get'"))
      else
        match Iterated(Field(obj, "plan").GetOr(List([])))
        case None => Raised(TypeError("object is not iterable"))
        case Some(items) => Returned(items)
  }

  /** The cleaned items, cut to the first six. */
  function PlanOf(items: seq<Value>, repr: Value -> string): (plan: seq<string>)
    ensures |plan| <= MAX_PLAN && |plan| <= |items|
    ensures forall i | 0 <= i < |plan| :: Trimmed(plan[i])
    ensures plan == [] <==> forall i | 0 <= i < |items| :: Item(items[i], repr) == []
  {
    var c := Cleaned(items, repr);
    CleanedEmptyIff(items, repr);
    if |c| <= MAX_PLAN then c else c[..MAX_PLAN]
  }

  /** A list of clean strings is kept as it is, up to six entries. */
  lemma PlanOfCleanPlan(items: seq<Value>, repr: Value -> string)
    requires forall i | 0 <= i < |items| :: items[i].Str? && Trimmed(items[i].s)
    ensures PlanOf(items, repr) == if |items| <= MAX_PLAN then Strs(items) else Strs(items)[..MAX_PLAN]
  {
    CleanedKeepsCleanPlan(items, repr);
  }
}
