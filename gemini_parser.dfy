/** The Gemini response parser: detection of tool calls, their conversion
    to `{id, name, arguments}` records, and the single-choice response it
    rebuilds. Tool-call arguments are decoded by `loads`, the JSON decoder
    passed in. */
module GeminiParser {
  import opened Wrappers
  import opened Text
  import opened Json

  /** A dictionary response that has a `predictions` key. */
  predicate HasPredictions(response: Value) {
    response.Obj? && HasKey(response.fields, "predictions")
  }

  /** `response["predictions"][0]`. */
  function Prediction(response: Value): Result<Value>
    requires HasPredictions(response)
  {
    Index0(Lookup(response.fields, "predictions").value)
  }

  /** The first prediction is a dictionary with a truthy `toolCalls`. */
  predicate HasToolCalls(response: Value) {
    HasPredictions(response) && Prediction(response).Ok?
    && var p := Prediction(response).value;
       p.Obj? && HasKey(p.fields, "toolCalls") && Truthy(Lookup(p.fields, "toolCalls").value)
  }

  /** `need_tools_call`, as the truthiness of what it returns. It is false
      for a non-dictionary or a response without `predictions`; otherwise
      the lookups are unguarded, so an empty `predictions` list, or a
      prediction that `in` or a string subscript cannot handle, raises. */
  function NeedToolsCall(response: Value): (r: Result<bool>)
    ensures !HasPredictions(response) ==> r == Ok(false)
    ensures HasPredictions(response) && Prediction(response).Err? ==> r == Err(Prediction(response).error)
    ensures r == Ok(true) <==> HasToolCalls(response)
    ensures HasPredictions(response) && Prediction(response).Ok? && Prediction(response).value.Obj? ==> r.Ok?
  {
    if !HasPredictions(response) then Ok(false)
    else
      var prediction :- Prediction(response);
      var present :- In(prediction, "toolCalls");
      if !present then Ok(false)
      else
        var calls :- Subscript(prediction, "toolCalls");
        Ok(Truthy(calls))
  }

  /** An empty `predictions` list is not guarded: `need_tools_call` raises IndexError. */
  lemma NeedToolsCallEmptyPredictions()
    ensures NeedToolsCall(Obj([("predictions", List([]))])) == Err(IndexError("list index out of range"))
  {
    var response := Obj([("predictions", List([]))]);
    assert HasPredictions(response);
  }

  /** The `arguments` of a converted tool call: the decoded JSON, or the
      original text under `raw_arguments` when it does not decode. */
  function DecodeArguments(text: string, loads: string -> Decoded): (v: Value)
    ensures loads(text).Parsed? ==> v == loads(text).value
    ensures loads(text).DecodeError? ==> v == Obj([("raw_arguments", Str(text))])
  {
    match loads(text)
    case Parsed(x) => x
    case DecodeError(_) => Obj([("raw_arguments", Str(text))])
  }

  /** A tool call that `_convert_tools_format` can convert: a non-empty
      dictionary with a `name` and string `arguments` (or none). */
  predicate Convertible(call: Value) {
    call.Obj? && HasKey(call.fields, "name") && GetOr(call.fields, "arguments", Str("{}")).Str?
  }

  /** The converted call's dictionary: `id`, `name` and `arguments`, in that order. */
  function CallFields(id: Value, name: Value, arguments: Value): (r: Fields)
    ensures Lookup(r, "id") == Some(id) && Lookup(r, "name") == Some(name)
            && Lookup(r, "arguments") == Some(arguments)
    ensures Keys(r) == ["id", "name", "arguments"]
  {
    var fields := [("id", id), ("name", name), ("arguments", arguments)];
    assert Lookup(fields[2..], "arguments") == Some(arguments);
    assert Lookup(fields[1..], "arguments") == Some(arguments);
    assert Keys(fields[2..]) == ["arguments"] && Keys(fields[1..]) == ["name", "arguments"];
    fields
  }

  /** `_convert_tools_format`. A falsy call, one that is not a dictionary,
      lacks `name`, or has non-string `arguments` (which `json.loads`
      rejects with TypeError) gives `{}`: every error is swallowed. */
  function ConvertToolsFormat(call: Value, loads: string -> Decoded): (r: Value)
    ensures !Convertible(call) ==> r == Obj([])
    ensures Convertible(call) ==>
              r.Obj?
              && Lookup(r.fields, "id") == Some(GetOr(call.fields, "id", Str("unknown")))
              && Lookup(r.fields, "name") == Lookup(call.fields, "name")
              && Lookup(r.fields, "arguments") ==
                   Some(DecodeArguments(GetOr(call.fields, "arguments", Str("{}")).s, loads))
              && Keys(r.fields) == ["id", "name", "arguments"]
  {
    if !Truthy(call) then
      assert call.Obj? ==> Keys(call.fields) == [];
      Obj([])
    else match Subscript(call, "name")
      case Err(_) => Obj([])
      case Ok(name) =>
        match GetOr(call.fields, "arguments", Str("{}"))
        case Str(text) =>
          Obj(CallFields(GetOr(call.fields, "id", Str("unknown")), name, DecodeArguments(text, loads)))
        case _ => Obj([])
  }

  /** A call without `arguments` gets the decoding of "{}". */
  lemma ConvertDefaultArguments(call: Value, loads: string -> Decoded)
    requires call.Obj? && HasKey(call.fields, "name") && !HasKey(call.fields, "arguments")
    ensures Lookup(ConvertToolsFormat(call, loads).fields, "arguments") == Some(DecodeArguments("{}", loads))
  {
    assert Convertible(call);
  }

  /** `ToolCallsValue`: `prediction["toolCalls"]` once it is known to be there. */
  function ToolCallsValue(response: Value): Value
    requires HasToolCalls(response)
  {
    Lookup(Prediction(response).value.fields, "toolCalls").value
  }

  /** `prepare_tools_call`: no calls unless `need_tools_call` holds; then
      one converted entry per visited tool call, in order, a malformed one
      as `{}`. A truthy `toolCalls` that cannot be iterated gives no calls;
      an error of `need_tools_call` itself propagates. */
  method PrepareToolsCall(response: Value, loads: string -> Decoded) returns (r: Result<seq<Value>>)
    ensures NeedToolsCall(response).Err? ==> r == Err(NeedToolsCall(response).error)
    ensures NeedToolsCall(response) == Ok(false) ==> r == Ok([])
    ensures HasToolCalls(response) && Iterate(ToolCallsValue(response)).Err? ==> r == Ok([])
    ensures HasToolCalls(response) && Iterate(ToolCallsValue(response)).Ok? ==>
              var visited := Iterate(ToolCallsValue(response)).value;
              r.Ok? && |r.value| == |visited|
              && forall i :: 0 <= i < |visited| ==> r.value[i] == ConvertToolsFormat(visited[i], loads)
  {
    var toolCalls: seq<Value> := [];
    var need := NeedToolsCall(response);
    if need.Err? {
      return Err(need.error);
    }
    if !need.value {
      return Ok(toolCalls);
    }
    var geminiToolCalls := ToolCallsValue(response);
    var visited := Iterate(geminiToolCalls);
    if visited.Err? {
      return Ok(toolCalls);
    }
    var calls := visited.value;
    var i := 0;
    while i < |calls|
      invariant 0 <= i <= |calls|
      invariant |toolCalls| == i
      invariant forall j :: 0 <= j < i ==> toolCalls[j] == ConvertToolsFormat(calls[j], loads)
    {
      toolCalls := toolCalls + [ConvertToolsFormat(calls[i], loads)];
      i := i + 1;
    }
    return Ok(toolCalls);
  }

  /** The one-choice response `parse` builds. */
  function SingleChoice(content: Value, finishReason: Value): Value {
    Obj([("choices", List([Obj([("message", Obj([("content", content), ("role", Str("assistant"))])),
                                ("finish_reason", finishReason)])]))])
  }

  /** `parse`: `{}` for a non-dictionary, a response without `predictions`
      or any error; a prediction with `toolCalls` also gives `{}`, because
      the converter it calls does not exist and that AttributeError is
      caught. Otherwise one choice with the prediction's content (default
      "") and finish reason (default "stop"). */
  function Parse(response: Value): (r: Value)
    ensures r != Obj([]) <==>
              HasPredictions(response) && Prediction(response).Ok? && Prediction(response).value.Obj?
              && !HasKey(Prediction(response).value.fields, "toolCalls")
    ensures r != Obj([]) ==>
              var p := Prediction(response).value.fields;
              r == SingleChoice(GetOr(p, "content", Str("")), GetOr(p, "finishReason", Str("stop")))
  {
    if !HasPredictions(response) then Obj([])
    else match Prediction(response)
      case Err(_) => Obj([])
      case Ok(prediction) =>
        match Get(prediction, "content", Str(""))
        case Err(_) => Obj([])
        case Ok(content) =>
          var finishReason := GetOr(prediction.fields, "finishReason", Str("stop"));
          if HasKey(prediction.fields, "toolCalls") then Obj([])
          else SingleChoice(content, finishReason)
  }

  /** A non-empty parse result has exactly one choice, whose message has
      role "assistant". */
  lemma ParseSingleChoice(response: Value)
    requires Parse(response) != Obj([])
    ensures var choices := Subscript(Parse(response), "choices");
            choices.Ok? && choices.value.List? && |choices.value.items| == 1
            && var message := Subscript(choices.value.items[0], "message");
               message.Ok? && Subscript(message.value, "role") == Ok(Str("assistant"))
  {
    var p := Prediction(response).value.fields;
    var content := GetOr(p, "content", Str(""));
    var finish := GetOr(p, "finishReason", Str("stop"));
    var message := Obj([("content", content), ("role", Str("assistant"))]);
    var choice := Obj([("message", message), ("finish_reason", finish)]);
    assert Parse(response) == Obj([("choices", List([choice]))]);
    assert Lookup(choice.fields, "message") == Some(message);
    assert Lookup(message.fields, "role") == Some(Str("assistant"));
  }

  /** Whenever tool calls are needed, `parse` gives `{}`. */
  lemma ParseDropsToolCalls(response: Value)
    requires HasToolCalls(response)
    ensures Parse(response) == Obj([])
  {
  }
}
