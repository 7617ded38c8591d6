/** `ToolManager` (script.js:602-638): a registry of tools by name, the list
    of their declarations, and the dispatch of one function call to the
    registered tool. A tool's `execute` is the environment: what awaiting
    `execute(args)` yields is given by the tool's `execute` function. */
module Tools {
  import opened Wrappers
  import opened Wire
  import Transport
  import opened JsObject

  /** What a tool throws: an `Error` with its `message` (None when the value
      has no `message`) and what `String(value)` gives; or `null`/`undefined`. */
  datatype Thrown = ThrownValue(message: Option<string>, asString: string) | ThrownNullish

  /** The settled result of awaiting `execute(args)`; `Returns(None)` is a
      tool that resolves to `undefined`. */
  datatype Execution = Returns(output: Option<Json>) | Throws(thrown: Thrown)

  datatype Tool = Tool(declaration: Json, execute: Json -> Execution)

  /** Why `handleToolCall` rejects: reading `message` of a thrown `null` or
      `undefined` inside its `catch` throws a TypeError. */
  datatype Rejection = MessageOfNullish

  function NotFound(name: string): string
  {
    "Tool '" + name + "' not found"
  }

  /** `error.message || String(error)`. */
  function ErrorText(t: Thrown): (r: Result<string, Rejection>)
    ensures r.Err? <==> t == ThrownNullish
    ensures r.Ok? && t.message.Some? && t.message.value != "" ==> r.value == t.message.value
    ensures r.Ok? && (t.message.None? || t.message.value == "") ==> r.value == t.asString
  {
    match t
    case ThrownNullish => Err(MessageOfNullish)
    case ThrownValue(message, asString) =>
      if message.Some? && message.value != "" then Ok(message.value) else Ok(asString)
  }

  /** The result `handleToolCall` resolves to, or its rejection. */
  function ToolCallResult(tools: map<string, Tool>, call: FunctionCall): (r: Result<Transport.ToolResult, Rejection>)
    ensures r.Ok? ==> r.value.id == call.id
    ensures call.name !in tools ==> r == Ok(Transport.ToolResult(call.id, None, Some(JStr(NotFound(call.name)))))
    ensures call.name in tools && tools[call.name].execute(call.args).Returns? ==>
      r == Ok(Transport.ToolResult(call.id, tools[call.name].execute(call.args).output, None))
    ensures r.Err? <==> call.name in tools && tools[call.name].execute(call.args) == Throws(ThrownNullish)
    ensures r.Ok? && r.value.error.Some? ==> r.value.output.None?
  {
    if call.name !in tools then
      Ok(Transport.ToolResult(call.id, None, Some(JStr(NotFound(call.name)))))
    else
      match tools[call.name].execute(call.args)
      case Returns(output) => Ok(Transport.ToolResult(call.id, output, None))
      case Throws(thrown) =>
        match ErrorText(thrown)
        case Err(e) => Err(e)
        case Ok(text) => Ok(Transport.ToolResult(call.id, None, Some(JStr(text))))
  }

  /** A result of `handleToolCall` for a call that carries an id is accepted by
      `sendToolResponse` exactly when it has something to report: an unknown
      tool always has (its error message), a tool that resolved must not have
      resolved to `undefined`, and a tool that threw must have left a non-empty
      error text. The function response carries the call's id. */
  lemma ToolResultIsSendable(tools: map<string, Tool>, call: FunctionCall)
    requires call.id != "" && ToolCallResult(tools, call).Ok?
    ensures var r := ToolCallResult(tools, call).value; var e := Transport.ToolResponseEnvelope(r);
      && (call.name !in tools ==> e.Ok?)
      && (call.name in tools && tools[call.name].execute(call.args).Returns? ==>
            (e.Ok? <==> tools[call.name].execute(call.args).output.Some?))
      && (call.name in tools && tools[call.name].execute(call.args).Throws? ==>
            (e.Ok? <==> ErrorText(tools[call.name].execute(call.args).thrown) != Ok("")))
      && (e.Ok? ==> e.value.functionResponses[0].id == call.id)
  {
    assert NotFound(call.name) != "" by {
      assert NotFound(call.name)[0] == 'T';
    }
  }

  /** The declarations, in registration order. */
  function DeclarationsOf(tools: map<string, Tool>, order: seq<string>): (r: seq<Json>)
    requires forall n :: n in order ==> n in tools
    ensures |r| == |order|
    ensures forall i :: 0 <= i < |order| ==> r[i] == tools[order[i]].declaration
  {
    if order == [] then [] else [tools[order[0]].declaration] + DeclarationsOf(tools, order[1..])
  }

  /** The TypeError text of calling `execute` on an inherited member. */
  function NotAFunction(): string
  {
    "this.tools[name].execute is not a function"
  }

  /** `handleToolCall` as written: the lookup `!this.tools[name]` also finds the
      inherited members of a plain object, whose `execute` is not a function;
      the TypeError is caught and its message becomes the error. */
  function ToolCallResultAsWritten(tools: map<string, Tool>, call: FunctionCall): (r: Result<Transport.ToolResult, Rejection>)
    ensures call.name in tools || call.name !in InheritedNames ==> r == ToolCallResult(tools, call)
    ensures call.name !in tools && call.name in InheritedNames ==>
      r == Ok(Transport.ToolResult(call.id, None, Some(JStr(NotAFunction()))))
    ensures r.Ok? ==> r.value.id == call.id
  {
    if call.name !in tools && call.name in InheritedNames then
      Ok(Transport.ToolResult(call.id, None, Some(JStr(NotAFunction()))))
    else ToolCallResult(tools, call)
  }

  /** A call to a tool named `toString` that nobody registered is not reported
      as an unknown tool by the code as written. */
  lemma InheritedNameIsNotReportedMissing(tools: map<string, Tool>, id: string)
    requires "toString" !in tools
    ensures var call := FunctionCall(id, "toString", JObj([]));
      && ToolCallResultAsWritten(tools, call).Ok?
      && ToolCallResultAsWritten(tools, call).value.error != Some(JStr(NotFound("toString")))
  {
    var call := FunctionCall(id, "toString", JObj([]));
    assert call.name in InheritedNames;
    assert NotAFunction()[0] != NotFound("toString")[0];
  }

  class ToolManager {
    var tools: map<string, Tool>
    /** The names in the order they were first registered: the order in which
        `Object.values` lists them. */
    var order: seq<string>

    ghost predicate Valid()
      reads this
    {
      && (forall n :: n in order <==> n in tools)
      && (forall i, j :: 0 <= i < j < |order| ==> order[i] != order[j])
    }

    constructor ()
      ensures Valid() && tools == map[] && order == []
    {
      tools := map[];
      order := [];
    }

    /** `registerTool`: a new name is appended; an existing one keeps its place
        and its tool is replaced. */
    method RegisterTool(name: string, tool: Tool)
      requires Valid()
      modifies this
      ensures Valid()
      ensures tools == old(tools)[name := tool]
      ensures order == if name in old(tools) then old(order) else old(order) + [name]
    {
      if name !in tools {
        order := order + [name];
      }
      tools := tools[name := tool];
    }

    /** `getToolDeclarations`: one declaration per registered tool. */
    function GetToolDeclarations(): (r: seq<Json>)
      reads this
      requires Valid()
      ensures |r| == |tools| == |order|
      ensures forall i :: 0 <= i < |r| ==> r[i] == tools[order[i]].declaration
    {
      DistinctCovers(order, tools);
      DeclarationsOf(tools, order)
    }

    /** `handleToolCall`, with the lookup as written: an unregistered name that
        `{}` inherits is found, and calling its `execute` throws. It changes nothing. */
    method HandleToolCall(call: FunctionCall) returns (r: Result<Transport.ToolResult, Rejection>)
      requires Valid()
      ensures r == ToolCallResultAsWritten(tools, call)
    {
      if call.name !in tools {
        if call.name in InheritedNames {
          return Ok(Transport.ToolResult(call.id, None, Some(JStr(NotAFunction()))));
        }
        return Ok(Transport.ToolResult(call.id, None, Some(JStr(NotFound(call.name)))));
      }
      var execution := tools[call.name].execute(call.args);
      match execution
      case Returns(output) =>
        r := Ok(Transport.ToolResult(call.id, output, None));
      case Throws(thrown) =>
        var text := ErrorText(thrown);
        if text.Err? {
          return Err(text.error);
        }
        r := Ok(Transport.ToolResult(call.id, None, Some(JStr(text.value))));
    }
  }

  /** A list of distinct names that are exactly a map's keys is as long as the map. */
  lemma DistinctCovers(order: seq<string>, tools: map<string, Tool>)
    requires forall n :: n in order <==> n in tools
    requires forall i, j :: 0 <= i < j < |order| ==> order[i] != order[j]
    ensures |order| == |tools|
  {
    DistinctCount(order);
    assert tools.Keys == (set n | n in order);
  }

  /** A list of distinct names has as many elements as its set of names. */
  lemma {:induction false} DistinctCount(order: seq<string>)
    requires forall i, j :: 0 <= i < j < |order| ==> order[i] != order[j]
    ensures |set n | n in order| == |order|
    decreases |order|
  {
    if order != [] {
      var rest := order[1..];
      forall i, j | 0 <= i < j < |rest|
        ensures rest[i] != rest[j]
      {
        assert rest[i] == order[i + 1] && rest[j] == order[j + 1];
      }
      DistinctCount(rest);
      forall k | 0 <= k < |rest|
        ensures rest[k] != order[0]
      {
        assert rest[k] == order[k + 1];
      }
      assert (set n | n in order) == {order[0]} + (set n | n in rest);
    }
  }
}
