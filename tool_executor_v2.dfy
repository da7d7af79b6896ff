/** Dispatch of a tool call through the second-generation registry:
    lookup, argument validation, then the tool function. */
module ToolExecutorV2 {
  import opened Wrappers
  import opened Dicts
  import opened Values
  import opened ToolSchema
  import opened ValidateArgs
  import opened RegistryV2

  /** `str(e)` of the validation error that `ToolResult(output=v)` raises
      for a value `v` that is not a string; pydantic's wording is a
      parameter. */
  type RejectionText = Value -> string

  /** `execute_tool_v2(reg, call)`. Only a schema that makes the validator
      itself raise lets an exception escape; everything a tool function
      raises is caught, and so is the validation error of a result whose
      output is not a string. */
  function ExecuteToolV2(reg: ToolRegistry, call: ToolCall, rejection: RejectionText, floatText: FloatText): (r: Raising<ToolResult>)
    reads reg
    requires reg.Valid()
    ensures r.Returned? ==> r.value.name == call.Name()
    ensures reg.GetTool(call.Name()).None? ==> r == Returned(Failure(call.Name(), "Unknown tool"))
  {
    match reg.GetTool(call.Name())
    case None => Returned(Failure(call.Name(), "Unknown tool"))
    case Some(spec) =>
      match Validate(spec.argsSchema, Object(call.args), floatText)
      case Raised(e) => Raised(e)
      case Returned((okArgs, msg)) =>
        if !okArgs then Returned(Failure(call.Name(), "Bad args: " + msg))
        else
          match spec.fn(call.args)
          case Output(out) =>
            if out.Str? then Returned(Success(call.Name(), out.s))
            else Returned(Failure(call.Name(), rejection(out)))
          case Threw(e) => Returned(Failure(call.Name(), e.Text()))
  }

  /** The outcome of a registered tool whose arguments validate: the
      function's output on a string return, the validation error's text on
      any other return, and `str(e)` when it raises. */
  lemma ExecuteRegistered(reg: ToolRegistry, call: ToolCall, rejection: RejectionText, floatText: FloatText)
    requires reg.Valid() && reg.GetTool(call.Name()).Some?
    ensures var spec := reg.GetTool(call.Name()).value;
      var v := Validate(spec.argsSchema, Object(call.args), floatText);
      var r := ExecuteToolV2(reg, call, rejection, floatText);
      var o := spec.fn(call.args);
      && (v.Raised? ==> r == Raised(v.exc))
      && (v.Returned? && !v.value.0 ==> r == Returned(Failure(call.Name(), "Bad args: " + v.value.1)))
      && (v.Returned? && v.value.0 && o.Output? && o.value.Str? ==>
            r == Returned(ToolResult(call.Name(), true, o.value.s, None)))
      && (v.Returned? && v.value.0 && o.Output? && !o.value.Str? ==>
            r == Returned(ToolResult(call.Name(), false, "", Some(rejection(o.value)))))
      && (v.Returned? && v.value.0 && o.Threw? ==>
            r == Returned(Failure(call.Name(), o.exc.Text())))
  {
  }
}
