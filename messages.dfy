/** The message records of a conversation (system, user, assistant, tool
    result) and the tool-call records an assistant message carries, with
    their dictionary form (`model_dump(exclude_none=True)`) and the record
    validation that builds an assistant message or a tool call from decoded
    JSON. */
module Messages {
  import opened Wrappers
  import opened Json

  datatype FunctionCall = FunctionCall(name: string, arguments: string)

  /** A tool call; its `type` field always holds "function". */
  datatype ToolCall = ToolCall(id: string, call: FunctionCall)

  datatype Message =
    | SystemMessage(content: string)
    | UserMessage(content: string)
    | AssistantMessage(text: Option<string>, toolCalls: Option<seq<ToolCall>>)
    | ToolCallResult(toolCallId: string, name: string, content: string)

  /** The fixed `role` of each record. */
  function Role(m: Message): string {
    match m
    case SystemMessage(_) => "system"
    case UserMessage(_) => "user"
    case AssistantMessage(_, _) => "assistant"
    case ToolCallResult(_, _, _) => "tool"
  }

  // ---------------------------------------------------------------------
  // Dictionary form

  function DumpFunctionCall(f: FunctionCall): Value {
    Obj([("name", Str(f.name)), ("arguments", Str(f.arguments))])
  }

  function DumpToolCall(t: ToolCall): Value {
    Obj([("id", Str(t.id)), ("type", Str("function")), ("function", DumpFunctionCall(t.call))])
  }

  function DumpToolCalls(ts: seq<ToolCall>): (r: seq<Value>)
    ensures |r| == |ts|
  {
    seq(|ts|, i requires 0 <= i < |ts| => DumpToolCall(ts[i]))
  }

  /** `model_dump(exclude_none=True)`: the fields in declaration order, role
      first, with an assistant's absent content or tool calls left out. */
  function Dump(m: Message): (r: Value)
    ensures r.Obj? && r.fields != [] && r.fields[0] == ("role", Str(Role(m)))
    ensures forall i :: 0 <= i < |r.fields| ==> r.fields[i].1 != Null
    ensures UniqueKeys(r.fields)
    ensures m.AssistantMessage? ==>
              (HasKey(r.fields, "content") <==> m.text.Some?)
              && (HasKey(r.fields, "tool_calls") <==> m.toolCalls.Some?)
  {
    match m
    case SystemMessage(c) => Obj([("role", Str("system")), ("content", Str(c))])
    case UserMessage(c) => Obj([("role", Str("user")), ("content", Str(c))])
    case AssistantMessage(text, calls) => Obj(AssistantFields(text, calls))
    case ToolCallResult(id, name, c) =>
      Obj([("role", Str("tool")), ("tool_call_id", Str(id)), ("name", Str(name)), ("content", Str(c))])
  }

  /** An assistant record's fields: the role, then the content and the
      tool calls that are present. */
  function AssistantFields(text: Option<string>, calls: Option<seq<ToolCall>>): (r: Fields)
    ensures r != [] && r[0] == ("role", Str("assistant"))
    ensures forall i :: 0 <= i < |r| ==> r[i].1 != Null
    ensures UniqueKeys(r)
    ensures HasKey(r, "content") <==> text.Some?
    ensures HasKey(r, "tool_calls") <==> calls.Some?
  {
    var content := if text.Some? then [("content", Str(text.value))] else [];
    var toolCalls := if calls.Some? then [("tool_calls", List(DumpToolCalls(calls.value)))] else [];
    var fields := [("role", Str("assistant"))] + content + toolCalls;
    assert Keys(fields) == ["role"] + Keys(content) + Keys(toolCalls);
    assert Keys(fields) == ["role"] + (if text.Some? then ["content"] else [])
                           + (if calls.Some? then ["tool_calls"] else []);
    fields
  }

  // ---------------------------------------------------------------------
  // Record validation from decoded JSON

  /** A required string field of a record; the message names the field and
      the reason (the field is missing, or holds a non-string). */
  function StrField(fields: Fields, k: string): (r: Result<string>)
    ensures r.Ok? <==> Lookup(fields, k).Some? && Lookup(fields, k).value.Str?
    ensures r.Ok? ==> Lookup(fields, k) == Some(Str(r.value))
    ensures r.Err? ==> r.error.ValidationError?
  {
    match Lookup(fields, k)
    case Some(Str(s)) => Ok(s)
    case Some(_) => Err(ValidationError(k + ": Input should be a valid string"))
    case None => Err(ValidationError(k + ": Field required"))
  }

  /** Validating a `FunctionCall` from a value. */
  function ParseFunctionCall(v: Value): (r: Result<FunctionCall>)
    ensures r.Ok? <==> v.Obj? && StrField(v.fields, "name").Ok? && StrField(v.fields, "arguments").Ok?
    ensures r.Ok? ==> Lookup(v.fields, "name") == Some(Str(r.value.name))
                      && Lookup(v.fields, "arguments") == Some(Str(r.value.arguments))
    ensures r.Err? ==> r.error.ValidationError?
  {
    if !v.Obj? then Err(ValidationError("function: Input should be a valid dictionary"))
    else
      var name :- StrField(v.fields, "name");
      var arguments :- StrField(v.fields, "arguments");
      Ok(FunctionCall(name, arguments))
  }

  /** Validating a `ToolCall`: a string id, a `type` that is "function"
      when given, and a function call; other keys are ignored. */
  function ParseToolCall(v: Value): (r: Result<ToolCall>)
    ensures r.Ok? ==> v.Obj? && Lookup(v.fields, "id") == Some(Str(r.value.id))
    ensures r.Ok? ==> HasKey(v.fields, "type") ==> Lookup(v.fields, "type") == Some(Str("function"))
    ensures r.Ok? ==> HasKey(v.fields, "function")
                      && ParseFunctionCall(Lookup(v.fields, "function").value) == Ok(r.value.call)
    ensures r.Err? ==> r.error.ValidationError?
  {
    if !v.Obj? then Err(ValidationError("Input should be a valid dictionary"))
    else
      var id :- StrField(v.fields, "id");
      match Lookup(v.fields, "type")
      case Some(t) =>
        if t != Str("function") then Err(ValidationError("type: Input should be 'function'"))
        else ParseToolCallFunction(v.fields, id)
      case None => ParseToolCallFunction(v.fields, id)
  }

  function ParseToolCallFunction(fields: Fields, id: string): (r: Result<ToolCall>)
    ensures r.Ok? ==> r.value.id == id && HasKey(fields, "function")
                      && ParseFunctionCall(Lookup(fields, "function").value) == Ok(r.value.call)
    ensures r.Err? ==> r.error.ValidationError?
  {
    match Lookup(fields, "function")
    case None => Err(ValidationError("function: Field required"))
    case Some(f) =>
      var call :- ParseFunctionCall(f);
      Ok(ToolCall(id, call))
  }

  /** Validating a list of tool calls, item by item; the first invalid
      item's error is raised. */
  function ParseToolCalls(items: seq<Value>): (r: Result<seq<ToolCall>>)
    ensures r.Ok? ==> |r.value| == |items|
    ensures r.Err? ==> r.error.ValidationError?
  {
    if items == [] then Ok([])
    else
      var first :- ParseToolCall(items[0]);
      var rest :- ParseToolCalls(items[1..]);
      Ok([first] + rest)
  }

  /** A list whose first item and the rest validate validates to both. */
  lemma ParseToolCallsCons(items: seq<Value>, first: ToolCall, rest: seq<ToolCall>)
    requires items != [] && ParseToolCall(items[0]) == Ok(first) && ParseToolCalls(items[1..]) == Ok(rest)
    ensures ParseToolCalls(items) == Ok([first] + rest)
  {
  }

  /** A list validates exactly when every item does, and then item `i` of
      the result is item `i` validated. */
  lemma {:induction false} ParseToolCallsItems(items: seq<Value>)
    ensures ParseToolCalls(items).Ok? <==> forall i :: 0 <= i < |items| ==> ParseToolCall(items[i]).Ok?
    ensures ParseToolCalls(items).Ok? ==>
              forall i :: 0 <= i < |items| ==> ParseToolCall(items[i]) == Ok(ParseToolCalls(items).value[i])
  {
    if items != [] {
      var tail := items[1..];
      ParseToolCallsItems(tail);
      var head := ParseToolCall(items[0]);
      if head.Ok? && ParseToolCalls(tail).Ok? {
        var rest := ParseToolCalls(tail).value;
        ParseToolCallsCons(items, head.value, rest);
        var r := [head.value] + rest;
        forall i | 0 <= i < |items|
          ensures ParseToolCall(items[i]) == Ok(r[i])
        {
          if i > 0 {
            assert items[i] == tail[i - 1] && r[i] == rest[i - 1];
          }
        }
      } else if head.Ok? {
        var j :| 0 <= j < |tail| && !ParseToolCall(tail[j]).Ok?;
        assert items[j + 1] == tail[j];
      }
    }
  }

  /** `Optional[str]`: None or a string. */
  function ParseOptionalText(v: Value): (r: Result<Option<string>>)
    ensures r == Ok(None) <==> v == Null
    ensures v.Str? ==> r == Ok(Some(v.s))
    ensures r.Err? <==> !(v.Null? || v.Str?)
  {
    match v
    case Null => Ok(None)
    case Str(s) => Ok(Some(s))
    case _ => Err(ValidationError("content: Input should be a valid string"))
  }

  /** `AssistantMessage(content=..., tool_calls=...)`, `toolCalls` being
      `None` when the keyword is not passed. */
  function MakeAssistant(content: Value, toolCalls: Option<Value>): (r: Result<Message>)
    ensures r.Ok? ==> r.value.AssistantMessage? && Ok(r.value.text) == ParseOptionalText(content)
    ensures r.Ok? ==> (r.value.toolCalls.Some? <==> toolCalls.Some? && toolCalls.value != Null)
    ensures r.Ok? && r.value.toolCalls.Some? ==>
              toolCalls.value.List? && ParseToolCalls(toolCalls.value.items) == Ok(r.value.toolCalls.value)
    ensures r.Err? ==> r.error.ValidationError?
  {
    var text :- ParseOptionalText(content);
    match toolCalls
    case None => Ok(AssistantMessage(text, None))
    case Some(Null) => Ok(AssistantMessage(text, None))
    case Some(List(items)) =>
      var calls :- ParseToolCalls(items);
      Ok(AssistantMessage(text, Some(calls)))
    case Some(_) => Err(ValidationError("tool_calls: Input should be a valid list"))
  }

  // ---------------------------------------------------------------------
  // Round trips

  /** Validating the dictionary form of a tool call gives the tool call back. */
  lemma ParseDumpToolCall(t: ToolCall)
    ensures ParseToolCall(DumpToolCall(t)) == Ok(t)
  {
    var fields := DumpToolCall(t).fields;
    var fn := DumpFunctionCall(t.call);
    assert Lookup(fields[2..], "function") == Some(fn);
    assert Lookup(fields[1..], "function") == Some(fn);
    assert Lookup(fields[1..], "type") == Some(Str("function"));
    assert Lookup(fn.fields[1..], "arguments") == Some(Str(t.call.arguments));
  }

  lemma ParseDumpToolCalls(ts: seq<ToolCall>)
    ensures ParseToolCalls(DumpToolCalls(ts)) == Ok(ts)
  {
    var items := DumpToolCalls(ts);
    forall i | 0 <= i < |ts|
      ensures ParseToolCall(items[i]) == Ok(ts[i])
    {
      ParseDumpToolCall(ts[i]);
    }
    ParseToolCallsItems(items);
    var r := ParseToolCalls(items).value;
    assert forall i :: 0 <= i < |ts| ==> Ok(r[i]) == Ok(ts[i]);
    assert r == ts;
  }

  /** Validating an assistant message's dumped content and tool calls
      rebuilds the message. */
  lemma MakeAssistantDump(text: Option<string>, calls: Option<seq<ToolCall>>)
    ensures var content := if text.Some? then Str(text.value) else Null;
            var toolCalls := if calls.Some? then Some(List(DumpToolCalls(calls.value))) else None;
            MakeAssistant(content, toolCalls) == Ok(AssistantMessage(text, calls))
  {
    if calls.Some? {
      ParseDumpToolCalls(calls.value);
    }
  }
}
