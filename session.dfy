/** The session: fetches the tool catalog once, seeds a conversation from
    the prompt builder, then alternates LLM completions and tool calls
    until a response needs no tool, and closes the LLM executor at the end.
    The LLM's answers are a script (the i-th completion request is answered
    by the i-th reply, None once the script is exhausted), and the response
    parser's two decisions are parameters. */
module Sessions {
  import opened Wrappers
  import opened Json
  import opened Messages
  import opened Conversations
  import opened PromptBuilders
  import opened ResultParser
  import opened ToolExecutors
  import opened LlmExecutors
  import Contexts

  /** What the session works with: the tool catalog it fetched, the
      scripted LLM replies, the parser's `need_tools_call` and
      `prepare_tools_call`, and the MCP server answering `callTool`. */
  datatype Collaborators = Collaborators(
    tools: Value,
    replies: seq<Value>,
    needToolsCall: Value -> bool,
    prepareToolsCall: Value -> seq<Value>,
    client: StdioClient,
    callTool: (StdioClient, Value, Value) -> Value)

  /** How a session's conversation ended: the final records, each
      completion request (the conversation at that point and the tools
      sent), and the exception that ended it, if any. */
  datatype Run = Run(messages: seq<Message>, requests: seq<(seq<Message>, Value)>, raised: Option<PyError>)

  /** The scripted answer to the k-th completion request. */
  function ReplyAt(replies: seq<Value>, k: nat): (r: Value)
    ensures k >= |replies| ==> r == Null
  {
    if k < |replies| then replies[k] else Null
  }

  /** A record field declared `str`: a string, or pydantic's ValidationError. */
  function AsText(field: string, v: Value): (r: Result<string>)
    ensures r.Ok? <==> v.Str?
    ensures r.Ok? ==> r.value == v.s
    ensures r.Err? ==> r.error == ValidationError(field + ": Input should be a valid string")
  {
    if v.Str? then Ok(v.s) else Err(ValidationError(field + ": Input should be a valid string"))
  }

  /** `Conversation(system_prompt=...)` takes a falsy prompt as none; a
      truthy one must be a string. */
  function SystemPromptOf(v: Value): (r: Result<Option<string>>)
    ensures !Truthy(v) ==> r == Ok(None)
    ensures Truthy(v) && v.Str? ==> r == Ok(Some(v.s)) && v.s != ""
    ensures Truthy(v) && !v.Str? ==> r == Err(ValidationError("content: Input should be a valid string"))
  {
    if !Truthy(v) then Ok(None)
    else if v.Str? then Ok(Some(v.s))
    else Err(ValidationError("content: Input should be a valid string"))
  }

  /** The records a conversation starts with: the system prompt, when there
      is one, then the user's prompt. */
  function Seed(systemContent: Value, userContent: Value): (r: Result<seq<Message>>)
    ensures r.Ok? <==> SystemPromptOf(systemContent).Ok? && userContent.Str?
    ensures r.Ok? ==> |r.value| >= 1 && r.value[|r.value| - 1] == UserMessage(userContent.s)
    ensures r.Ok? && Truthy(systemContent) ==> r.value == [SystemMessage(systemContent.s), UserMessage(userContent.s)]
    ensures r.Ok? && !Truthy(systemContent) ==> r.value == [UserMessage(userContent.s)]
  {
    var systemPrompt :- SystemPromptOf(systemContent);
    var user :- AsText("content", userContent);
    var start := if systemPrompt.Some? then [SystemMessage(systemPrompt.value)] else [];
    Ok(start + [UserMessage(user)])
  }

  /** What `add_assistant_message` appends for the record it found. */
  function Appended(found: Option<Message>): seq<Message> {
    if found.Some? then [found.value] else []
  }

  /** One loop step's tool record: the call through the tool executor (its
      lookups, the server's raw result, the parser), then the call's `id`
      and `name` and the result's `text_content`, each validated as a
      string by the record. */
  function ToolResultMessage(c: Collaborators, toolCall: Value): (r: Result<Message>)
    ensures ToolRequest(toolCall).Err? ==> r == Err(ToolRequest(toolCall).error)
    ensures r.Ok? ==> r.value.ToolCallResult?
                      && Lookup(toolCall.fields, "id") == Some(Str(r.value.toolCallId))
                      && Lookup(toolCall.fields, "name") == Some(Str(r.value.name))
    ensures r.Ok? ==> var raw := c.callTool(c.client, Lookup(toolCall.fields, "name").value,
                                            Lookup(toolCall.fields, "arguments").value);
                      raw.Obj? && TextContent(raw.fields) == Ok(r.value.content)
  {
    var request :- ToolRequest(toolCall);
    var raw := c.callTool(c.client, request.0, request.1);
    if !ValidStructure(raw) then Err(ValueError("Invalid tool result structure"))
    else
      match TextContent(raw.fields)
      case Err(e) => Err(e)
      case Ok(text) =>
        var id :- AsText("tool_call_id", request.2);
        var name :- AsText("name", request.0);
        Ok(ToolCallResult(id, name, text))
  }

  /** The record maker a session's turns use. */
  function Records(c: Collaborators): Value -> Result<Message> {
    toolCall => ToolResultMessage(c, toolCall)
  }

  /** The tool records one turn appends, in call order, and the exception
      that stopped the turn, if any (the records before it stay). */
  function ToolResults(record: Value -> Result<Message>, calls: seq<Value>): (r: (seq<Message>, Option<PyError>))
    ensures |r.0| <= |calls|
    ensures r.1.None? ==> |r.0| == |calls|
    decreases |calls|
  {
    if calls == [] then ([], None)
    else
      var before := ToolResults(record, calls[..|calls| - 1]);
      if before.1.Some? then before
      else
        match record(calls[|calls| - 1])
        case Err(e) => (before.0, Some(e))
        case Ok(m) => (before.0 + [m], None)
  }

  /** One more call of a turn that has not failed: its record is appended,
      or its exception stops the turn. */
  lemma ToolResultsNext(record: Value -> Result<Message>, calls: seq<Value>, i: nat)
    requires i < |calls| && ToolResults(record, calls[..i]).1.None?
    ensures var before := ToolResults(record, calls[..i]).0;
            ToolResults(record, calls[..i + 1])
            == match record(calls[i])
               case Err(e) => (before, Some(e))
               case Ok(m) => (before + [m], None)
  {
    var next := calls[..i + 1];
    assert next != [] && next[..|next| - 1] == calls[..i] && next[|next| - 1] == calls[i];
  }

  /** Once a turn has failed, the later calls are not made. */
  lemma {:induction false} ToolResultsStop(record: Value -> Result<Message>, calls: seq<Value>, i: nat)
    requires i <= |calls|
    requires ToolResults(record, calls[..i]).1.Some?
    ensures ToolResults(record, calls) == ToolResults(record, calls[..i])
    decreases |calls| - i
  {
    if i < |calls| {
      var next := calls[..i + 1];
      assert next != [] && next[..|next| - 1] == calls[..i];
      assert ToolResults(record, next) == ToolResults(record, calls[..i]);
      ToolResultsStop(record, calls, i + 1);
    } else {
      assert calls[..i] == calls;
    }
  }

  /** Where one pass of the loop leaves the session: the next response,
      already appended, with the conversation and requests so far; or the
      end of the run. */
  datatype Step = Next(messages: seq<Message>, response: Value, requests: seq<(seq<Message>, Value)>)
                | Finished(run: Run)

  /** One pass of the loop from a response already appended: when the
      parser asks for tools, one turn of tool records, then the next
      completion request; a falsy reply ends the loop. A pass only appends,
      to the conversation and to the requests, and every request carries
      the catalog. */
  function LoopStep(c: Collaborators, messages: seq<Message>, response: Value, k: nat,
                    requests: seq<(seq<Message>, Value)>): (r: Step)
    ensures r.Next? ==> k < |c.replies| && r.response == c.replies[k] && Truthy(r.response)
    ensures r.Next? ==> |messages| <= |r.messages| && r.messages[..|messages|] == messages
                        && |r.requests| == |requests| + 1 && r.requests[..|requests|] == requests
                        && r.requests[|requests|].1 == c.tools
    ensures r.Finished? ==> |messages| <= |r.run.messages| && r.run.messages[..|messages|] == messages
                            && |requests| <= |r.run.requests| && r.run.requests[..|requests|] == requests
                            && forall i :: |requests| <= i < |r.run.requests| ==> r.run.requests[i].1 == c.tools
    ensures !c.needToolsCall(response) ==> r == Finished(Run(messages, requests, None))
  {
    if !c.needToolsCall(response) then Finished(Run(messages, requests, None))
    else
      var turn := ToolResults(Records(c), c.prepareToolsCall(response));
      var current := messages + turn.0;
      assert current[..|messages|] == messages;
      if turn.1.Some? then Finished(Run(current, requests, turn.1))
      else
        var next := ReplyAt(c.replies, k);
        var asked := requests + [(current, c.tools)];
        assert asked[..|requests|] == requests;
        if !Truthy(next) then Finished(Run(current, asked, None))
        else
          match AssistantFrom(next)
          case Err(e) => Finished(Run(current, asked, Some(e)))
          case Ok(found) =>
            assert (current + Appended(found))[..|messages|] == messages;
            Next(current + Appended(found), next, asked)
  }

  /** The conversation loop: passes until one ends the run. */
  function Loop(c: Collaborators, messages: seq<Message>, response: Value, k: nat,
                requests: seq<(seq<Message>, Value)>): Run
    decreases |c.replies| - k
  {
    match LoopStep(c, messages, response, k, requests)
    case Finished(run) => run
    case Next(current, next, asked) => Loop(c, current, next, k + 1, asked)
  }

  /** `_run_conversation_loop`: build the prompt, seed the conversation,
      ask for the first completion (a falsy one ends the session at once),
      then the loop. */
  function Converse(c: Collaborators, template: PromptBuilder, prompt: Value, loads: string -> Decoded): Run {
    match BuildInitialPrompt(template, prompt, loads)
    case Err(e) => Run([], [], Some(e))
    case Ok(initial) =>
      var systemContent := SystemContent(loads(Normalize(template.templateContent)).value);
      match Seed(systemContent, prompt)
      case Err(e) => Run([], [], Some(e))
      case Ok(seed) =>
        var first := ReplyAt(c.replies, 0);
        var asked := [(seed, c.tools)];
        if !Truthy(first) then Run(seed, asked, None)
        else
          match AssistantFrom(first)
          case Err(e) => Run(seed, asked, Some(e))
          case Ok(found) => Loop(c, seed + Appended(found), first, 1, asked)
  }

  lemma PrefixOfAppend<T>(a: seq<T>, b: seq<T>)
    ensures |a| <= |a + b| && (a + b)[..|a|] == a
  {
  }

  lemma PrefixOfPrefix<T>(a: seq<T>, b: seq<T>, c: seq<T>)
    requires |a| <= |b| <= |c| && b[..|a|] == a && c[..|b|] == b
    ensures c[..|a|] == a
  {
    assert c[..|a|] == c[..|b|][..|a|];
  }

  /** Every request in `requests` sends `tools`. */
  predicate Carries(requests: seq<(seq<Message>, Value)>, tools: Value) {
    forall i :: 0 <= i < |requests| ==> requests[i].1 == tools
  }

  /** Requests extended by requests that carry the catalog still do. */
  lemma CarriesExtended(requests: seq<(seq<Message>, Value)>, extended: seq<(seq<Message>, Value)>, tools: Value)
    requires |requests| <= |extended| && extended[..|requests|] == requests
    requires Carries(requests, tools)
    requires forall i :: |requests| <= i < |extended| ==> extended[i].1 == tools
    ensures Carries(extended, tools)
  {
    forall i | 0 <= i < |requests|
      ensures extended[i].1 == tools
    {
      assert extended[i] == extended[..|requests|][i];
    }
  }

  /** Every completion request sends the catalog fetched at the start. */
  lemma {:induction false} LoopSendsCatalog(c: Collaborators, messages: seq<Message>, response: Value, k: nat,
                                            requests: seq<(seq<Message>, Value)>)
    requires Carries(requests, c.tools)
    ensures Carries(Loop(c, messages, response, k, requests).requests, c.tools)
    decreases |c.replies| - k
  {
    var step := LoopStep(c, messages, response, k, requests);
    if step.Next? {
      CarriesExtended(requests, step.requests, c.tools);
      LoopSendsCatalog(c, step.messages, step.response, k + 1, step.requests);
    } else {
      CarriesExtended(requests, step.run.requests, c.tools);
    }
  }

  /** The loop only appends: the conversation it ends with extends the one
      it started from, and so do the requests. */
  lemma {:induction false} LoopExtends(c: Collaborators, messages: seq<Message>, response: Value, k: nat,
                                       requests: seq<(seq<Message>, Value)>)
    ensures var run := Loop(c, messages, response, k, requests);
            |messages| <= |run.messages| && run.messages[..|messages|] == messages
            && |requests| <= |run.requests| && run.requests[..|requests|] == requests
    decreases |c.replies| - k
  {
    var step := LoopStep(c, messages, response, k, requests);
    if step.Next? {
      LoopExtends(c, step.messages, step.response, k + 1, step.requests);
      var run := Loop(c, step.messages, step.response, k + 1, step.requests);
      assert run.messages[..|messages|] == run.messages[..|step.messages|][..|messages|];
      assert step.requests[..|requests|] == requests;
      assert run.requests[..|requests|] == run.requests[..|step.requests|][..|requests|];
    }
  }

  /** The catalog is fetched once, and every completion request of a
      session sends it. */
  lemma ConverseSendsCatalog(c: Collaborators, template: PromptBuilder, prompt: Value, loads: string -> Decoded)
    ensures Carries(Converse(c, template, prompt, loads).requests, c.tools)
  {
    if BuildInitialPrompt(template, prompt, loads).Ok? {
      var seed := Seed(SystemContent(loads(Normalize(template.templateContent)).value), prompt);
      if seed.Ok? {
        var first := ReplyAt(c.replies, 0);
        if Truthy(first) && AssistantFrom(first).Ok? {
          LoopSendsCatalog(c, seed.value + Appended(AssistantFrom(first).value), first, 1, [(seed.value, c.tools)]);
        }
      }
    }
  }

  /** The seeded records stay first: the conversation a session ends with
      begins with the system and user records, and the first completion
      request is sent with exactly those. */
  lemma ConverseSeeded(c: Collaborators, template: PromptBuilder, prompt: Value, loads: string -> Decoded,
                       seed: seq<Message>)
    requires BuildInitialPrompt(template, prompt, loads).Ok?
    requires Seed(SystemContent(loads(Normalize(template.templateContent)).value), prompt) == Ok(seed)
    ensures var run := Converse(c, template, prompt, loads);
            |seed| <= |run.messages| && run.messages[..|seed|] == seed
            && run.requests != [] && run.requests[0] == (seed, c.tools)
  {
    var first := ReplyAt(c.replies, 0);
    var asked := [(seed, c.tools)];
    if Truthy(first) && AssistantFrom(first).Ok? {
      var found := AssistantFrom(first).value;
      var start := seed + Appended(found);
      ConverseEntersLoop(c, template, prompt, loads, seed, found);
      LoopExtends(c, start, first, 1, asked);
      var run := Loop(c, start, first, 1, asked);
      PrefixOfAppend(seed, Appended(found));
      PrefixOfPrefix(seed, start, run.messages);
      PrefixOfPrefix(asked, asked, run.requests);
      assert run.requests[0] == run.requests[..1][0];
    } else {
      PrefixOfAppend(seed, []);
      assert seed + [] == seed;
    }
  }

  /** A truthy first completion that yields an assistant record starts the
      loop on the seed and that record. */
  lemma ConverseEntersLoop(c: Collaborators, template: PromptBuilder, prompt: Value, loads: string -> Decoded,
                           seed: seq<Message>, found: Option<Message>)
    requires BuildInitialPrompt(template, prompt, loads).Ok?
    requires Seed(SystemContent(loads(Normalize(template.templateContent)).value), prompt) == Ok(seed)
    requires Truthy(ReplyAt(c.replies, 0)) && AssistantFrom(ReplyAt(c.replies, 0)) == Ok(found)
    ensures Converse(c, template, prompt, loads)
            == Loop(c, seed + Appended(found), ReplyAt(c.replies, 0), 1, [(seed, c.tools)])
    ensures found.Some? ==> Converse(c, template, prompt, loads)
                            == Loop(c, seed + [found.value], ReplyAt(c.replies, 0), 1, [(seed, c.tools)])
  {
  }

  /** A falsy first completion ends the session with the seed alone, after
      exactly one request and no tool call. */
  lemma FalsyFirstReply(c: Collaborators, template: PromptBuilder, prompt: Value, loads: string -> Decoded,
                        seed: seq<Message>)
    requires BuildInitialPrompt(template, prompt, loads).Ok?
    requires Seed(SystemContent(loads(Normalize(template.templateContent)).value), prompt) == Ok(seed)
    requires !Truthy(ReplyAt(c.replies, 0))
    ensures Converse(c, template, prompt, loads) == Run(seed, [(seed, c.tools)], None)
  {
  }

  /** A scripted run whose first response asks for no tool: one completion,
      no tool record, the conversation being the seed and that response's
      assistant record. */
  lemma ScriptWithoutTools(c: Collaborators, template: PromptBuilder, system: string, user: string,
                           loads: string -> Decoded, first: Message)
    requires BuildInitialPrompt(template, Str(user), loads).Ok?
    requires SystemContent(loads(Normalize(template.templateContent)).value) == Str(system) && system != ""
    requires |c.replies| >= 1 && Truthy(c.replies[0])
    requires AssistantFrom(c.replies[0]) == Ok(Some(first))
    requires !c.needToolsCall(c.replies[0])
    ensures var run := Converse(c, template, Str(user), loads);
            run.raised.None? && |run.requests| == 1
            && run.messages == [SystemMessage(system), UserMessage(user), first]
  {
  }

  /** A turn with a single call appends that call's record. */
  lemma SingleCallTurn(record: Value -> Result<Message>, toolCall: Value, result: Message)
    requires record(toolCall) == Ok(result)
    ensures ToolResults(record, [toolCall]) == ([result], None)
  {
    var calls := [toolCall];
    assert calls[..|calls| - 1] == [];
    assert ToolResults(record, []) == ([], None);
    assert calls[|calls| - 1] == toolCall;
    var none: seq<Message> := [];
    assert none + [result] == [result];
  }

  /** The records one tool call and its answer append, in order. */
  lemma AppendedInTurn(history: seq<Message>, first: Message, result: Message, last: Message)
    ensures history + [first] + [result] == history + [first, result]
    ensures history + [first] + [result] + Appended(Some(last)) == history + [first, result, last]
  {
    assert Appended(Some(last)) == [last];
  }

  /** From an appended response asking for one tool call, when the next
      reply is a final answer: the tool record, one more request, the
      answer's record, and the loop ends. */
  lemma OneCallThenAnswer(c: Collaborators, history: seq<Message>, first: Message, response: Value, k: nat,
                          requests: seq<(seq<Message>, Value)>, toolCall: Value, result: Message, last: Message)
    requires c.needToolsCall(response) && c.prepareToolsCall(response) == [toolCall]
    requires ToolResultMessage(c, toolCall) == Ok(result)
    requires k < |c.replies| && Truthy(c.replies[k]) && AssistantFrom(c.replies[k]) == Ok(Some(last))
    requires !c.needToolsCall(c.replies[k])
    ensures Loop(c, history + [first], response, k, requests)
            == Run(history + [first, result, last], requests + [(history + [first, result], c.tools)], None)
  {
    SingleCallTurn(Records(c), toolCall, result);
    var start := history + [first];
    var asked := requests + [(history + [first, result], c.tools)];
    var ended := history + [first, result, last];
    assert ReplyAt(c.replies, k) == c.replies[k];
    AppendedInTurn(history, first, result, last);
    assert LoopStep(c, start, response, k, requests) == Next(ended, c.replies[k], asked);
    assert LoopStep(c, ended, c.replies[k], k + 1, asked) == Finished(Run(ended, asked, None));
  }

  /** A scripted run with one tool call and then a final answer: two
      completions, one tool record, and the conversation the seed (system,
      user), assistant, tool, assistant. */
  lemma ScriptWithOneToolCall(c: Collaborators, template: PromptBuilder, prompt: Value, loads: string -> Decoded,
                              seed: seq<Message>, first: Message, toolCall: Value, result: Message, last: Message)
    requires BuildInitialPrompt(template, prompt, loads).Ok?
    requires Seed(SystemContent(loads(Normalize(template.templateContent)).value), prompt) == Ok(seed)
    requires |c.replies| >= 2 && Truthy(c.replies[0]) && Truthy(c.replies[1])
    requires AssistantFrom(c.replies[0]) == Ok(Some(first)) && AssistantFrom(c.replies[1]) == Ok(Some(last))
    requires c.needToolsCall(c.replies[0]) && c.prepareToolsCall(c.replies[0]) == [toolCall]
    requires ToolResultMessage(c, toolCall) == Ok(result)
    requires !c.needToolsCall(c.replies[1])
    ensures Converse(c, template, prompt, loads)
            == Run(seed + [first, result, last], [(seed, c.tools), (seed + [first, result], c.tools)], None)
  {
    var opening := [(seed, c.tools)];
    var asked := [(seed, c.tools), (seed + [first, result], c.tools)];
    assert opening + [(seed + [first, result], c.tools)] == asked;
    assert ReplyAt(c.replies, 0) == c.replies[0];
    ConverseEntersLoop(c, template, prompt, loads, seed, Some(first));
    OneCallThenAnswer(c, seed, first, c.replies[0], 1, opening, toolCall, result, last);
  }

  /** One call of a turn that has not failed, as the executing loop sees
      it: a record extends the turn; an exception ends the whole turn. */
  lemma ToolResultsAdvance(record: Value -> Result<Message>, calls: seq<Value>, i: nat, done: seq<Message>,
                           r: Result<Message>)
    requires i < |calls| && ToolResults(record, calls[..i]) == (done, None) && record(calls[i]) == r
    ensures r.Ok? ==> ToolResults(record, calls[..i + 1]) == (done + [r.value], None)
    ensures r.Err? ==> ToolResults(record, calls) == (done, Some(r.error))
  {
    ToolResultsNext(record, calls, i);
    if r.Err? {
      ToolResultsStop(record, calls, i + 1);
    }
  }

  class Session {
    const id: string
    const prompt: Value
    const tools: ToolExecutor
    const llm: LLMExecutor

    constructor(id: string, prompt: Value, tools: ToolExecutor, llm: LLMExecutor)
      ensures this.id == id && this.prompt == prompt && this.tools == tools && this.llm == llm
    {
      this.id := id;
      this.prompt := prompt;
      this.tools := tools;
      this.llm := llm;
    }

    /** One tool call: the executor's `call_tool`, then the record built
        from the call's `id` and `name` and the result's text. */
    method ToolRecord(c: Collaborators, toolCall: Value) returns (r: Result<Message>)
      requires c.client == tools.client
      ensures r == Records(c)(toolCall)
    {
      var toolResult := tools.CallToolFixed(toolCall, c.callTool);
      if toolResult.Err? {
        return Err(toolResult.error);
      }
      var id := Lookup(toolCall.fields, "id").value;
      var name := Lookup(toolCall.fields, "name").value;
      var idText := AsText("tool_call_id", id);
      if idText.Err? {
        return Err(idText.error);
      }
      var nameText := AsText("name", name);
      if nameText.Err? {
        return Err(nameText.error);
      }
      return Ok(ToolCallResult(idText.value, nameText.value, toolResult.value.textContent));
    }

    /** One turn's tool calls, in order, each result appended to `conv`;
        the first exception stops the turn. */
    method ExecuteToolCalls(conv: Conversation, c: Collaborators, calls: seq<Value>) returns (raised: Option<PyError>)
      requires c.client == tools.client
      modifies conv
      ensures conv.session == old(conv.session)
      ensures conv.messages == old(conv.messages) + ToolResults(Records(c), calls).0
      ensures raised == ToolResults(Records(c), calls).1
    {
      var i := 0;
      ghost var done: seq<Message> := [];
      while i < |calls|
        invariant 0 <= i <= |calls|
        invariant conv.session == old(conv.session)
        invariant ToolResults(Records(c), calls[..i]) == (done, None)
        invariant conv.messages == old(conv.messages) + done
      {
        var record := ToolRecord(c, calls[i]);
        ToolResultsAdvance(Records(c), calls, i, done, record);
        if record.Err? {
          return Some(record.error);
        }
        var m := record.value;
        assert m.ToolCallResult? && ToolCallResult(m.toolCallId, m.name, m.content) == m;
        conv.AddToolResult(m.toolCallId, m.name, m.content);
        done := done + [m];
        i := i + 1;
      }
      assert calls[..i] == calls;
      return None;
    }

    /** `_run_conversation_loop`, with the collaborators above. */
    method RunConversationLoop(listTools: StdioClient -> Value, template: PromptBuilder, loads: string -> Decoded,
                               replies: seq<Value>, needToolsCall: Value -> bool,
                               prepareToolsCall: Value -> seq<Value>, callTool: (StdioClient, Value, Value) -> Value)
      returns (run: Run)
      ensures run == Converse(Collaborators(listTools(tools.client), replies, needToolsCall, prepareToolsCall,
                                            tools.client, callTool), template, prompt, loads)
    {
      var toolsInfo := tools.GetToolsDefinition(listTools);
      var c := Collaborators(toolsInfo, replies, needToolsCall, prepareToolsCall, tools.client, callTool);
      var initialPrompt := BuildInitialPrompt(template, prompt, loads);
      if initialPrompt.Err? {
        return Run([], [], Some(initialPrompt.error));
      }
      var systemContent := SystemContent(loads(Normalize(template.templateContent)).value);
      PromptPayloadContents(systemContent, prompt);
      var messagesList := Lookup(initialPrompt.value.fields, "messages").value;
      var systemPrompt := SystemPromptOf(Lookup(messagesList.items[0].fields, "content").value);
      if systemPrompt.Err? {
        return Run([], [], Some(systemPrompt.error));
      }
      var conv := new Conversation(id, systemPrompt.value);
      var user := AsText("content", Lookup(messagesList.items[1].fields, "content").value);
      if user.Err? {
        return Run([], [], Some(user.error));
      }
      conv.AddUserMessage(user.value);
      var requests := [(conv.messages, toolsInfo)];
      var response := ReplyAt(replies, 0);
      if !Truthy(response) {
        return Run(conv.messages, requests, None);
      }
      var raised := conv.AddAssistantMessage(response);
      if raised.Some? {
        return Run(conv.messages, requests, raised);
      }
      var k := 1;
      ghost var target := Loop(c, conv.messages, response, k, requests);
      while needToolsCall(response)
        invariant Loop(c, conv.messages, response, k, requests) == target
        decreases |replies| - k
      {
        var toolCalls := prepareToolsCall(response);
        raised := ExecuteToolCalls(conv, c, toolCalls);
        if raised.Some? {
          return Run(conv.messages, requests, raised);
        }
        response := ReplyAt(replies, k);
        requests := requests + [(conv.messages, toolsInfo)];
        if !Truthy(response) {
          return Run(conv.messages, requests, None);
        }
        raised := conv.AddAssistantMessage(response);
        if raised.Some? {
          return Run(conv.messages, requests, raised);
        }
        k := k + 1;
      }
      return Run(conv.messages, requests, None);
    }

    /** `start`: the loop inside the LLM executor's context, which closes
        the executor however the loop ends; the loop's exception is
        re-raised. */
    method Start(listTools: StdioClient -> Value, template: PromptBuilder, loads: string -> Decoded,
                 replies: seq<Value>, needToolsCall: Value -> bool,
                 prepareToolsCall: Value -> seq<Value>, callTool: (StdioClient, Value, Value) -> Value)
      returns (run: Run)
      modifies llm, llm.ClientObjects()
      ensures run == Converse(Collaborators(listTools(tools.client), replies, needToolsCall, prepareToolsCall,
                                            tools.client, callTool), template, prompt, loads)
      ensures llm.client == old(llm.client)
      ensures llm.closings == old(llm.closings) + (if llm.client.Some? then 1 else 0)
    {
      run := RunConversationLoop(listTools, template, loads, replies, needToolsCall, prepareToolsCall, callTool);
      llm.Exit();
    }
  }

  /** `Session(ctx)`: a fresh LLM executor with the session id, and the
      tool executor built from the context, whose exception (the bridge's
      context has no `mcp_server`) escapes. */
  method NewSession(id: string, ctx: Contexts.Context, mcpServer: Option<Value>) returns (r: Result<Session>)
    ensures ClientFor(mcpServer).Err? ==> r == Err(ClientFor(mcpServer).error)
    ensures ClientFor(mcpServer).Ok? ==>
              r.Ok? && fresh(r.value) && r.value.id == id && r.value.prompt == ctx.prompt
              && r.value.tools.client == ClientFor(mcpServer).value
              && fresh(r.value.llm) && r.value.llm.client.None? && r.value.llm.sessionId == id
  {
    var llm := new LLMExecutor(id);
    var tools := NewToolExecutor(mcpServer);
    if tools.Err? {
      return Err(tools.error);
    }
    var session := new Session(id, ctx.prompt, tools.value, llm);
    return Ok(session);
  }
}
