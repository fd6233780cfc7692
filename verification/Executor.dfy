/** Running the validated calls: one result per call, in the order of the calls. */
module Executor {
  import opened Messages
  import opened Validator

  /** What the tool's own function does with its arguments. */
  datatype Behaviour = Returns(content: string) | Throws(errorType: string, error: string)

  datatype ToolResult =
    | Success(call: ToolCall, content: string)
    | Errored(call: ToolCall, errorType: string, error: string)

  /** `None` stands for an exception that leaves the executor. */
  function RunOne(enabled: set<string>, rules: Rules, call: ToolCall, behaviour: Behaviour): (r: Option<ToolResult>)
    ensures r.Some? ==> r.value.call == call && call.fn.Some?
  {
    if call.fn.None? then None
    else
      var name := call.fn.value.name;
      if name !in enabled then
        Some(Errored(call, "ToolError", "tool " + name + " is not registered or disabled"))
      else if !call.fn.value.arguments.Text? then None
      else
        match rules.parse(call.fn.value.arguments.text)
        case NotJson(why) => Some(Errored(call, "ToolError", "invalid JSON arguments for tool " + name + ": " + why))
        case Unparsable => None
        case NotAnObject => Some(Errored(call, "TypeError", "arguments must be a mapping"))
        case Object =>
          match behaviour
          case Returns(content) => Some(Success(call, content))
          case Throws(errorType, error) => Some(Errored(call, errorType, error))
  }

  /** The gathered results, or `None` when some call raised. */
  function ExecuteCalls(enabled: set<string>, rules: Rules, calls: seq<ToolCall>, behave: nat -> Behaviour)
    : (r: Option<seq<ToolResult>>)
    ensures r.Some? ==> |r.value| == |calls| && forall i | 0 <= i < |calls| :: r.value[i].call == calls[i] && calls[i].fn.Some?
  {
    if calls == [] then Some([])
    else
      var n := |calls| - 1;
      match (ExecuteCalls(enabled, rules, calls[..n], behave), RunOne(enabled, rules, calls[n], behave(n)))
      case (Some(before), Some(last)) => Some(before + [last])
      case _ => None
  }

  /** Calls that passed the validator never make the executor raise, whatever the tools do. */
  lemma {:induction false} ValidatedCallsNeverRaise(
    enabled: set<string>, rules: Rules, calls: seq<ToolCall>, allowed: set<string>, behave: nat -> Behaviour)
    requires forall c | c in calls :: Executable(rules, c, allowed)
    ensures ExecuteCalls(enabled, rules, calls, behave).Some?
  {
    if calls != [] {
      var n := |calls| - 1;
      assert calls[n] in calls;
      ValidatedCallsNeverRaise(enabled, rules, calls[..n], allowed, behave);
    }
  }
}
