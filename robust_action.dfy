/** The decision cascade that turns the action router's reply into a tool
    call the current phase admits: accept, else repair and normalise, else
    fall back to a directory listing. */
module RobustAction {
  import opened Wrappers
  import opened Dicts
  import opened Values
  import opened ToolSchema
  import opened Normalize

  /** What is sent to the JSON repair step: `json.dumps` of the rejected
      action's dump, or "" when the router raised (the name `action` is then
      unbound, and reading it raises inside the guarded block). */
  datatype RawGuess = EmptyGuess | DumpOf(call: ToolCall)

  /** `ToolCall(name="shell_exec", args={"cmd": "pwd && ls -l"})` */
  const FALLBACK: ToolCall := ToolCall(ShellExec, [("cmd", Str("pwd && ls -l"))])

  /** The chosen call, and the repair request made on the way (at most one). */
  datatype Decision = Decision(action: ToolCall, repaired: Option<RawGuess>)

  /** `robust_next_action`. `routed` is what the action router returned or
      raised; `repair` is the JSON repair step (a language-model call plus
      `json.loads`, which may raise). */
  function RobustNextAction(routed: Raising<ToolCall>, allowedTools: seq<string>, repair: RawGuess -> Raising<Value>): (r: Raising<Decision>)
    ensures routed.Returned? && routed.value.Name() in allowedTools ==> r == Returned(Decision(routed.value, None))
    ensures r.Returned? && r.value.repaired.None? ==> routed.Returned? && r.value.action == routed.value && routed.value.Name() in allowedTools
    ensures r.Returned? && r.value.repaired.Some? ==>
      r.value.action == FALLBACK || (r.value.action.Name() in ALLOWED && r.value.action.Name() in allowedTools)
  {
    if routed.Returned? && routed.value.Name() in allowedTools then Returned(Decision(routed.value, None))
    else
      var guess := if routed.Returned? then DumpOf(routed.value) else EmptyGuess;
      match repair(guess)
      case Raised(e) => Raised(e)
      case Returned(fixed) =>
        match NormalizeCall(fixed)
        case Raised(e) => Raised(e)
        case Returned(obj) =>
          if obj == EMPTY || obj.fields[0].1.s !in ALLOWED || obj.fields[0].1.s !in allowedTools then
            Returned(Decision(FALLBACK, Some(guess)))
          else
            NormalizedValidates(fixed);
            Returned(Decision(ValidateCall(obj).value, Some(guess)))
  }

  /** A rejected action is sent to repair as its own dump; a raising router
      sends the empty string. */
  lemma RepairInputIsRejectedAction(routed: Raising<ToolCall>, allowedTools: seq<string>, repair: RawGuess -> Raising<Value>)
    requires RobustNextAction(routed, allowedTools, repair).Returned?
    requires RobustNextAction(routed, allowedTools, repair).value.repaired.Some?
    ensures var g := RobustNextAction(routed, allowedTools, repair).value.repaired.value;
      (routed.Raised? ==> g == EmptyGuess) && (routed.Returned? ==> g == DumpOf(routed.value))
  {
  }

  /** The fallback is returned even when the phase does not admit
      `shell_exec`: with only `python_exec` allowed and a repair that does
      not produce `python_exec`, the result is the listing command. */
  lemma FallbackIgnoresWhitelist(routed: Raising<ToolCall>, repair: RawGuess -> Raising<Value>)
    requires routed.Returned? && routed.value.name != PythonExec
    requires repair(DumpOf(routed.value)) == Returned(EMPTY)
    ensures RobustNextAction(routed, ["python_exec"], repair) == Returned(Decision(FALLBACK, Some(DumpOf(routed.value))))
    ensures FALLBACK.Name() !in ["python_exec"]
  {
  }

  /** A repaired call that is admitted keeps the repaired name and
      arguments. */
  lemma RepairedCallKept(routed: Raising<ToolCall>, allowedTools: seq<string>, repair: RawGuess -> Raising<Value>, n: ToolName, a: Dict<string, Value>)
    requires !(routed.Returned? && routed.value.Name() in allowedTools)
    requires repair(if routed.Returned? then DumpOf(routed.value) else EmptyGuess) == Returned(Object([("name", Str(n.Text())), ("args", Object(a))]))
    requires !Nested(a) && n.Text() in allowedTools
    ensures RobustNextAction(routed, allowedTools, repair).Returned?
    ensures RobustNextAction(routed, allowedTools, repair).value.action == ToolCall(n, a)
  {
    var fields: Dict<string, Value> := [("name", Str(n.Text())), ("args", Object(a))];
    assert IndexOf(fields, "args") == 1 by {
      assert IndexOf(fields[1..], "args") == 0;
    }
    NormalizeKeepsPlainCall(fields, n.Text(), a);
    ToolNameRoundTrip(n);
    NormalizedValidates(Object(fields));
  }
}
