/** A conversation: a session identifier and the ordered list of message
    records sent to the language model. Messages are only ever appended. */
module Conversations {
  import opened Wrappers
  import opened Text
  import opened Json
  import opened Messages

  /** The assistant record built from a choice's `message`: its
      `tool_calls` when present and truthy, and its `content`, which must be
      present. */
  function MessageRecord(message: Value): (r: Result<Message>)
    ensures r.Ok? ==> r.value.AssistantMessage?
    ensures r.Ok? && r.value.toolCalls.Some? ==> r.value.toolCalls.value != []
  {
    var hasCalls :- In(message, "tool_calls");
    if hasCalls then
      var calls :- Subscript(message, "tool_calls");
      var content :- Subscript(message, "content");
      if Truthy(calls) then MakeAssistant(content, Some(calls))
      else MakeAssistant(content, None)
    else
      var content :- Subscript(message, "content");
      MakeAssistant(content, None)
  }

  /** What `add_assistant_message` makes of a completion response: the
      assistant record to append, nothing when the response is not a
      dictionary with a non-empty `choices`, or the exception raised on the
      way (a malformed choice, a missing `content`, a record that does not
      validate). */
  function AssistantFrom(response: Value): (r: Result<Option<Message>>)
    ensures !response.Obj? || !HasKey(response.fields, "choices") ==> r == Ok(None)
    ensures r.Ok? && r.value.Some? ==>
              response.Obj? && HasKey(response.fields, "choices")
              && Len(Lookup(response.fields, "choices").value).Ok?
              && Len(Lookup(response.fields, "choices").value).value > 0
    ensures r.Ok? && r.value.Some? ==> r.value.value.AssistantMessage?
    ensures r.Ok? && r.value.Some? && r.value.value.toolCalls.Some? ==> r.value.value.toolCalls.value != []
  {
    if !response.Obj? || !HasKey(response.fields, "choices") then Ok(None)
    else
      var choices := Lookup(response.fields, "choices").value;
      var n :- Len(choices);
      if n == 0 then Ok(None)
      else
        var first :- Index0(choices);
        var message :- Subscript(first, "message");
        var m :- MessageRecord(message);
        Ok(Some(m))
  }

  /** A completion response with one choice whose message has text content
      and a non-empty list of tool calls in dictionary form. */
  function CompletionResponse(text: string, calls: seq<ToolCall>): Value {
    Obj([("choices", List([Obj([("message", Obj([("content", Str(text)),
                                                 ("tool_calls", List(DumpToolCalls(calls)))]))])]))])
  }

  /** Such a response yields exactly the assistant record it describes. */
  lemma AssistantFromCompletion(text: string, calls: seq<ToolCall>)
    requires calls != []
    ensures AssistantFrom(CompletionResponse(text, calls)) == Ok(Some(AssistantMessage(Some(text), Some(calls))))
  {
    var dumped := List(DumpToolCalls(calls));
    var message := Obj([("content", Str(text)), ("tool_calls", dumped)]);
    var choice := Obj([("message", message)]);
    var response := CompletionResponse(text, calls);
    assert Lookup(response.fields, "choices") == Some(List([choice]));
    assert Subscript(choice, "message") == Ok(message);
    assert MessageRecord(message) == Ok(AssistantMessage(Some(text), Some(calls))) by {
      assert Lookup(message.fields[1..], "tool_calls") == Some(dumped);
      assert In(message, "tool_calls") == Ok(true);
      assert Subscript(message, "tool_calls") == Ok(dumped);
      assert Subscript(message, "content") == Ok(Str(text));
      assert Truthy(dumped);
      MakeAssistantDump(Some(text), Some(calls));
    }
  }

  /** A choice message without `content` raises KeyError('content') and
      appends nothing, even though an assistant may omit its text. */
  lemma AssistantFromMissingContent(calls: Value)
    ensures var response := Obj([("choices", List([Obj([("message", Obj([("tool_calls", calls)]))])]))]);
            AssistantFrom(response) == Err(KeyError(Str("content")))
  {
    var message := Obj([("tool_calls", calls)]);
    assert Subscript(message, "tool_calls") == Ok(calls);
    assert Subscript(message, "content") == Err(KeyError(Str("content")));
  }

  class Conversation {
    var session: string
    var messages: seq<Message>

    /** A system record first exactly when a non-empty system prompt is given. */
    constructor(session: string, systemPrompt: Option<string>)
      ensures this.session == session
      ensures systemPrompt.Some? && systemPrompt.value != "" ==> messages == [SystemMessage(systemPrompt.value)]
      ensures systemPrompt.None? || systemPrompt.value == "" ==> messages == []
    {
      this.session := session;
      if systemPrompt.Some? && systemPrompt.value != "" {
        messages := [SystemMessage(systemPrompt.value)];
      } else {
        messages := [];
      }
    }

    method AddUserMessage(content: string)
      modifies this
      ensures session == old(session)
      ensures messages == old(messages) + [UserMessage(content)]
    {
      messages := messages + [UserMessage(content)];
    }

    /** Appends the record `AssistantFrom` finds, or raises its exception
      and leaves the conversation as it was. */
    method AddAssistantMessage(response: Value) returns (raised: Option<PyError>)
      modifies this
      ensures session == old(session)
      ensures AssistantFrom(response).Err? ==>
                raised == Some(AssistantFrom(response).error) && messages == old(messages)
      ensures AssistantFrom(response).Ok? ==>
                raised.None?
                && messages == old(messages) + (match AssistantFrom(response).value
                                                case Some(m) => [m]
                                                case None => [])
    {
      var outcome := AssistantFrom(response);
      match outcome
      case Err(e) =>
        raised := Some(e);
      case Ok(found) =>
        raised := None;
        if found.Some? {
          messages := messages + [found.value];
        }
    }

    method AddToolResult(toolCallId: string, name: string, content: string)
      modifies this
      ensures session == old(session)
      ensures messages == old(messages) + [ToolCallResult(toolCallId, name, content)]
    {
      messages := messages + [ToolCallResult(toolCallId, name, content)];
    }

    /** The dictionary form of every record, in order: each starts with its
      role and holds no None value. */
    function GetMessages(): (r: seq<Value>)
      reads this
      ensures |r| == |messages|
      ensures forall i :: 0 <= i < |r| ==>
                r[i].Obj? && r[i].fields != [] && r[i].fields[0] == ("role", Str(Role(messages[i])))
      ensures forall i, j :: 0 <= i < |r| && 0 <= j < |r[i].fields| ==> r[i].fields[j].1 != Null
    {
      seq(|messages|, i reads this requires 0 <= i < |messages| => Dump(messages[i]))
    }

    /** `len(conversation)`. */
    function Length(): (n: nat)
      reads this
      ensures n == |GetMessages()|
    {
      |messages|
    }

    /** `str(conversation)`. */
    function ToString(): (r: string)
      reads this
      ensures StartsWith(r, "Conversation(session=" + session + ", ")
      ensures r[|r| - 1] == ')'
      ensures var head := "Conversation(session=" + session + ", ";
              |head| < |r| && ParseInt(r[|head|..|r| - 1]) == Some(Length())
    {
      var head := "Conversation(session=" + session + ", ";
      var count := NatToString(|messages|);
      var r := head + count + ")";
      assert r[|head|..|r| - 1] == count;
      assert IntToString(|messages|) == count;
      ParseIntToString(|messages|);
      r
    }
  }

  /** A conversation opened with a prompt, then a user message, an assistant
      turn and a tool result, holds the records in exactly that order. */
  method Transcript(prompt: string, question: string, text: string, calls: seq<ToolCall>, output: string)
    returns (c: Conversation)
    requires prompt != "" && calls != []
    ensures fresh(c)
    ensures c.messages == [SystemMessage(prompt), UserMessage(question),
                           AssistantMessage(Some(text), Some(calls)),
                           ToolCallResult(calls[0].id, calls[0].call.name, output)]
    ensures c.Length() == 4
  {
    c := new Conversation("session", Some(prompt));
    c.AddUserMessage(question);
    AssistantFromCompletion(text, calls);
    var raised := c.AddAssistantMessage(CompletionResponse(text, calls));
    c.AddToolResult(calls[0].id, calls[0].call.name, output);
  }
}
