/** The day-9 driver: a plan asked of the model once, cleaned up or
    replaced by a fixed fallback, shown in every observation of a
    whitelist-and-verify loop of at most 30 steps. */
module Day9 {
  import opened Wrappers
  import opened Dicts
  import opened Values
  import opened Strings
  import opened PlanText
  import opened Workspaces
  import opened TaskSpecs
  import opened Verifier
  import opened BenchTasks
  import opened Agent

  const MAX_STEPS: nat := 30
  const START_HINT: string := "Start."
  const FALLBACK_PLAN: seq<string> := ["Create required files", "Compute answer"]

  /** The reply turned into the plan; whatever goes wrong on the way, or a
      plan with no non-blank item, gives the fallback. */
  function PlannerPost(reply: string, parse: string -> Raising<Value>, repr: Value -> string): (plan: seq<string>)
    ensures 1 <= |plan| <= MAX_PLAN
    ensures forall i | 0 <= i < |plan| :: Trimmed(plan[i])
  {
    match PlanItems(reply, parse)
    case Raised(_) => FALLBACK_PLAN
    case Returned(items) =>
      var kept := PlanOf(items, repr);
      if kept == [] then FALLBACK_PLAN else kept
  }

  /** `planner_llm(task)`: the chat call may raise, and that is not caught;
      everything after it is. */
  function PlannerLlm(chat: Raising<string>, parse: string -> Raising<Value>, repr: Value -> string): Raising<seq<string>> {
    match chat
    case Raised(e) => Raised(e)
    case Returned(reply) => Returned(PlannerPost(reply, parse, repr))
  }

  /** A reply that does not parse, is not a dict, has a `plan` that cannot
      be iterated, or has only blank items, gives the fallback plan. */
  lemma PlannerPostFallback(reply: string, parse: string -> Raising<Value>, repr: Value -> string)
    requires || PlanItems(reply, parse).Raised?
             || (forall i | 0 <= i < |PlanItems(reply, parse).value| :: Item(PlanItems(reply, parse).value[i], repr) == [])
    ensures PlannerPost(reply, parse, repr) == FALLBACK_PLAN
  {
  }

  /** A dict reply whose `plan` is a non-empty list of clean strings
      yields its first six entries. */
  lemma PlannerPostKeeps(reply: string, parse: string -> Raising<Value>, repr: Value -> string, items: seq<Value>)
    requires parse(reply).Returned? && parse(reply).value.Object?
    requires Field(parse(reply).value, "plan") == Some(List(items))
    requires items != []
    requires forall i | 0 <= i < |items| :: items[i].Str? && Trimmed(items[i].s)
    ensures PlannerPost(reply, parse, repr) == if |items| <= MAX_PLAN then Strs(items) else Strs(items)[..MAX_PLAN]
  {
    assert PlanItems(reply, parse) == Returned(items);
    PlanOfCleanPlan(items, repr);
    assert |Strs(items)| == |items|;
  }

  /** Every observation shows the whole plan. */
  function PlanLines(plan: seq<string>): nat -> seq<string> {
    (step: nat) => plan
  }

  /** `run(bt)` from the workspace the reset leaves: the plan, then at most
      30 whitelisted and verified steps, True at the first pass. */
  method Run(bt: BenchTask, chat: Raising<string>, parse: string -> Raising<Value>, repr: Value -> string,
    exec: Executor, router: Router, isFloat: FloatSyntax, ws: Workspace)
    returns (r: Raising<bool>)
    ensures PlannerLlm(chat, parse, repr).Raised? ==> r == Raised(PlannerLlm(chat, parse, repr).exc)
    ensures PlannerLlm(chat, parse, repr).Returned? ==>
      r == Succeeded(Report(GatedRun(ToSpec(bt), exec, router, isFloat,
        PlanLines(PlannerLlm(chat, parse, repr).value), Start(ws, START_HINT), MAX_STEPS)))
  {
    var spec := ToSpec(bt);
    var plan := PlannerLlm(chat, parse, repr);
    if plan.Raised? {
      return Raised(plan.exc);
    }
    var res := RunGated(spec, exec, router, isFloat, PlanLines(plan.value), ws, START_HINT, MAX_STEPS);
    r := Succeeded(res);
  }
}
