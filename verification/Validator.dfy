/** Checking the model's tool calls: an order-preserving split into valid calls and violations. */
module Validator {
  import opened Messages

  /** `Unparsable` is a text on which the parser raises anything but a decode error, such as a number of
      too many digits. */
  datatype Json = NotJson(why: string) | NotAnObject | Object | Unparsable

  /** `CheckRaises` is a schema that cannot be applied, such as one with a broken pattern. */
  datatype SchemaCheck = Meets | Violates(why: string) | CheckRaises

  datatype Reason =
    | MissingFunction
    | MissingName
    | UnknownTool
    | ToolNotRouted
    | ArgumentsNotText
    | ArgumentsNotJson(why: string)
    | ArgumentsNotObject
    | SchemaViolated(why: string)

  datatype Violation = Violation(callId: string, name: string, reason: Reason)

  /** The registered tools, with JSON parsing and JSON Schema checking left as parameters. */
  datatype Rules = Rules(
    registered: set<string>,
    parse: string -> Json,
    schemaCheck: (string, string) -> SchemaCheck)

  /** What a call must satisfy to be executed. */
  predicate Executable(rules: Rules, call: ToolCall, allowed: set<string>) {
    && call.fn.Some?
    && call.fn.value.name != ""
    && call.fn.value.name in rules.registered
    && call.fn.value.name in allowed
    && call.fn.value.arguments.Text?
    && rules.parse(call.fn.value.arguments.text).Object?
    && rules.schemaCheck(call.fn.value.name, call.fn.value.arguments.text).Meets?
  }

  datatype Checked = Passes | Refused(violation: Violation) | Raises

  /** The call names a registered tool that was routed. */
  predicate IsKnown(rules: Rules, call: ToolCall, allowed: set<string>) {
    call.fn.Some? && call.fn.value.name != "" && call.fn.value.name in rules.registered && call.fn.value.name in allowed
  }

  /** The reason is the first thing that is wrong with the call. */
  predicate IsWrong(rules: Rules, call: ToolCall, allowed: set<string>, reason: Reason) {
    match reason
    case MissingFunction => call.fn.None?
    case MissingName => call.fn.Some? && call.fn.value.name == ""
    case UnknownTool => call.fn.Some? && call.fn.value.name != "" && call.fn.value.name !in rules.registered
    case ToolNotRouted =>
      call.fn.Some? && call.fn.value.name != "" && call.fn.value.name in rules.registered && call.fn.value.name !in allowed
    case ArgumentsNotText => IsKnown(rules, call, allowed) && !call.fn.value.arguments.Text?
    case ArgumentsNotJson(why) =>
      IsKnown(rules, call, allowed) && call.fn.value.arguments.Text? && rules.parse(call.fn.value.arguments.text) == NotJson(why)
    case ArgumentsNotObject =>
      IsKnown(rules, call, allowed) && call.fn.value.arguments.Text? && rules.parse(call.fn.value.arguments.text) == NotAnObject
    case SchemaViolated(why) =>
      && IsKnown(rules, call, allowed) && call.fn.value.arguments.Text? && rules.parse(call.fn.value.arguments.text) == Object
      && rules.schemaCheck(call.fn.value.name, call.fn.value.arguments.text) == Violates(why)
  }

  /** The violation names the call, its tool, and what is wrong with it. */
  predicate IsViolationOf(rules: Rules, call: ToolCall, allowed: set<string>, v: Violation) {
    && v.callId == call.id && v.name == (if call.fn.Some? then call.fn.value.name else "")
    && IsWrong(rules, call, allowed, v.reason)
  }

  function ValidateOne(rules: Rules, call: ToolCall, allowed: set<string>): (v: Checked)
    ensures v.Passes? <==> Executable(rules, call, allowed)
    ensures v.Refused? ==> v.violation.callId == call.id && IsViolationOf(rules, call, allowed, v.violation)
  {
    if call.fn.None? then Refused(Violation(call.id, "", MissingFunction))
    else
      var name := call.fn.value.name;
      if name == "" then Refused(Violation(call.id, "", MissingName))
      else if name !in rules.registered then Refused(Violation(call.id, name, UnknownTool))
      else if name !in allowed then Refused(Violation(call.id, name, ToolNotRouted))
      else if !call.fn.value.arguments.Text? then Refused(Violation(call.id, name, ArgumentsNotText))
      else
        match rules.parse(call.fn.value.arguments.text)
        case NotJson(why) => Refused(Violation(call.id, name, ArgumentsNotJson(why)))
        case NotAnObject => Refused(Violation(call.id, name, ArgumentsNotObject))
        case Unparsable => Raises
        case Object =>
          match rules.schemaCheck(name, call.fn.value.arguments.text)
          case Meets => Passes
          case Violates(why) => Refused(Violation(call.id, name, SchemaViolated(why)))
          case CheckRaises => Raises
  }

  /** The validation of some call raises, and with it that of all of them. */
  predicate ValidationRaises(rules: Rules, calls: seq<ToolCall>, allowed: set<string>) {
    exists c | c in calls :: ValidateOne(rules, c, allowed).Raises?
  }

  function ValidCalls(rules: Rules, calls: seq<ToolCall>, allowed: set<string>): (r: seq<ToolCall>)
    ensures forall c | c in r :: c in calls && Executable(rules, c, allowed)
  {
    if calls == [] then []
    else
      var n := |calls| - 1;
      ValidCalls(rules, calls[..n], allowed)
      + if ValidateOne(rules, calls[n], allowed).Passes? then [calls[n]] else []
  }

  function Violations(rules: Rules, calls: seq<ToolCall>, allowed: set<string>): (r: seq<Violation>) {
    if calls == [] then []
    else
      var n := |calls| - 1;
      var checked := ValidateOne(rules, calls[n], allowed);
      Violations(rules, calls[..n], allowed) + if checked.Refused? then [checked.violation] else []
  }

  function ViolationIds(vs: seq<Violation>): (ids: multiset<string>) {
    if vs == [] then multiset{}
    else ViolationIds(vs[..|vs| - 1]) + multiset{vs[|vs| - 1].callId}
  }

  lemma MoveOne(a: multiset<string>, b: multiset<string>, c: multiset<string>, x: string)
    requires a + b == c
    ensures (a + multiset{x}) + b == c + multiset{x} && b + (a + multiset{x}) == c + multiset{x}
  {
  }

  lemma PartitionStep(rules: Rules, calls: seq<ToolCall>, allowed: set<string>)
    requires |calls| > 0 && !ValidationRaises(rules, calls, allowed)
    requires var before := calls[..|calls| - 1];
             CallIds(ValidCalls(rules, before, allowed)) + ViolationIds(Violations(rules, before, allowed)) == CallIds(before)
    ensures CallIds(ValidCalls(rules, calls, allowed)) + ViolationIds(Violations(rules, calls, allowed)) == CallIds(calls)
  {
    var before, c := calls[..|calls| - 1], calls[|calls| - 1];
    var valid, bad := ValidCalls(rules, before, allowed), Violations(rules, before, allowed);
    CallIdsLast(calls);
    var v := ValidateOne(rules, c, allowed);
    assert c in calls && !v.Raises?;
    if v.Passes? {
      assert ValidCalls(rules, calls, allowed) == valid + [c];
      assert Violations(rules, calls, allowed) == bad;
      CallIdsSnoc(valid, c);
      MoveOne(CallIds(valid), ViolationIds(bad), CallIds(before), c.id);
    } else {
      assert ValidCalls(rules, calls, allowed) == valid;
      assert Violations(rules, calls, allowed) == bad + [v.violation];
      assert (bad + [v.violation])[..|bad|] == bad;
      MoveOne(ViolationIds(bad), CallIds(valid), CallIds(before), c.id);
    }
  }

  /** Every call id is accounted for once: by a valid call or by a violation. */
  lemma {:induction false} PartitionKeepsIds(rules: Rules, calls: seq<ToolCall>, allowed: set<string>)
    requires !ValidationRaises(rules, calls, allowed)
    ensures CallIds(ValidCalls(rules, calls, allowed)) + ViolationIds(Violations(rules, calls, allowed))
            == CallIds(calls)
    decreases |calls|
  {
    if |calls| > 0 {
      PartitionKeepsIds(rules, calls[..|calls| - 1], allowed);
      PartitionStep(rules, calls, allowed);
    }
  }

  method Validate(rules: Rules, calls: seq<ToolCall>, allowed: set<string>)
    returns (valid: seq<ToolCall>, violations: seq<Violation>, raised: bool)
    ensures raised <==> ValidationRaises(rules, calls, allowed)
    ensures !raised ==>
      && valid == ValidCalls(rules, calls, allowed) && violations == Violations(rules, calls, allowed)
      && CallIds(valid) + ViolationIds(violations) == CallIds(calls)
  {
    valid, violations, raised := [], [], false;
    for i := 0 to |calls|
      invariant valid == ValidCalls(rules, calls[..i], allowed)
      invariant violations == Violations(rules, calls[..i], allowed)
      invariant !raised && !ValidationRaises(rules, calls[..i], allowed)
    {
      assert calls[..i + 1][..i] == calls[..i] && calls[i] in calls;
      assert calls[..i + 1] == calls[..i] + [calls[i]];
      match ValidateOne(rules, calls[i], allowed)
      case Passes => valid := valid + [calls[i]];
      case Refused(v) => violations := violations + [v];
      case Raises =>
        raised := true;
        return;
    }
    assert calls[..|calls|] == calls;
    PartitionKeepsIds(rules, calls, allowed);
  }

  /** Valid calls keep their order: they stand at strictly increasing positions, and those are
      exactly the positions of the executable calls. */
  lemma {:induction false} ValidCallsKeepOrder(rules: Rules, calls: seq<ToolCall>, allowed: set<string>)
    returns (at: seq<nat>)
    ensures |at| == |ValidCalls(rules, calls, allowed)|
    ensures forall i | 0 <= i < |at| :: at[i] < |calls| && ValidCalls(rules, calls, allowed)[i] == calls[at[i]]
    ensures forall i, j | 0 <= i < j < |at| :: at[i] < at[j]
    ensures forall p: nat | p < |calls| :: p in at <==> Executable(rules, calls[p], allowed)
  {
    if calls == [] {
      at := [];
    } else {
      var n := |calls| - 1;
      var before := ValidCallsKeepOrder(rules, calls[..n], allowed);
      at := before + if Executable(rules, calls[n], allowed) then [n] else [];
      forall p: nat | p < |calls|
        ensures p in at <==> Executable(rules, calls[p], allowed)
      {
        if p < n {
          assert calls[..n][p] == calls[p];
        } else {
          assert p !in before;
        }
      }
    }
  }

  /** So do the violations, and each is about its own call. */
  lemma {:induction false} ViolationsKeepOrder(rules: Rules, calls: seq<ToolCall>, allowed: set<string>)
    returns (at: seq<nat>)
    requires !ValidationRaises(rules, calls, allowed)
    ensures |at| == |Violations(rules, calls, allowed)|
    ensures forall i | 0 <= i < |at| :: at[i] < |calls| && IsViolationOf(rules, calls[at[i]], allowed, Violations(rules, calls, allowed)[i])
    ensures forall i, j | 0 <= i < j < |at| :: at[i] < at[j]
    ensures forall p: nat | p < |calls| :: p in at <==> !Executable(rules, calls[p], allowed)
  {
    if calls == [] {
      at := [];
    } else {
      var n := |calls| - 1;
      var before := ViolationsKeepOrder(rules, calls[..n], allowed);
      assert calls[n] in calls;
      at := before + if Executable(rules, calls[n], allowed) then [] else [n];
      forall p: nat | p < |calls|
        ensures p in at <==> !Executable(rules, calls[p], allowed)
      {
        if p < n {
          assert calls[..n][p] == calls[p];
        } else {
          assert p !in before;
        }
      }
    }
  }
}
