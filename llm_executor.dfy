/** The LLM executor: creates the provider's client lazily from the
    configuration, sends the conversation and the tools for one completion,
    turning every failure inside the request into None, and closes the
    client. */
module LlmExecutors {
  import opened Wrappers
  import opened Json
  import opened LlmErrors
  import opened LlmConfig
  import opened Conversations
  import opened OpenAiClients
  import opened GeminiClients

  const NoToolConverter := AttributeError("'LLMConfig' object has no attribute 'tool_converter'")
  const NoToolsEnabled := AttributeError("'LLMConfig' object has no attribute 'tools_enabled'")

  /** The provider client the executor holds. */
  datatype LlmClient = OpenAi(openai: OpenAIClient) | GeminiAi(gemini: GeminiClient)

  /** The tools passed on to the client: the given tools when tools are
      enabled and the given tools are truthy, None otherwise. */
  function ToolsToSend(enabled: bool, tools: Value): (r: Value)
    ensures r != Null <==> enabled && Truthy(tools)
    ensures r != Null ==> r == tools
  {
    if enabled && Truthy(tools) then tools else Null
  }

  /** A response is passed back unless looking for `tool_calls` (and then
      `function_call`) in it, done only when tools were sent, raises; the
      failure is then swallowed into None. */
  function LoggedResponse(toolsSent: Value, response: Value): (r: Value)
    ensures !Truthy(toolsSent) ==> r == response
    ensures Truthy(toolsSent) ==> r == if In(response, "tool_calls").Ok? then response else Null
  {
    if Truthy(toolsSent) && In(response, "tool_calls").Err? then Null else response
  }

  /** What `get_completion` returns for the client's outcome: None for any
      exception, the logged response otherwise. */
  function Completed(toolsSent: Value, outcome: Outcome<Value>): (r: Value)
    ensures outcome.Threw? ==> r == Null
    ensures outcome.Done? && !Truthy(toolsSent) ==> r == outcome.value
  {
    match outcome
    case Threw(_) => Null
    case Done(response) => LoggedResponse(toolsSent, response)
  }

  /** `get_completion`'s result when an OpenAI client with this
      configuration and session id is handed `sent` (messages, tools) with
      the default model, temperature and token limit. */
  function OpenAiAnswer(config: Config, sessionId: string, sent: (Value, Value),
                        post: (string, Fields) -> HttpReply, loads: string -> Decoded,
                        floatOf: string -> Option<string>): Value
  {
    match ConvertedTools(sent.1)
    case Err(_) => Null
    case Ok(converted) =>
      var url := CompletionsUrl(config.baseUrl);
      var payload := Payload(config, sent.0, converted, Null, Null, Null, []);
      Completed(sent.1, Reply(config, sessionId, url, post(url, payload), loads, floatOf))
  }

  /** The same for a Gemini client (tools converted by its converter). */
  function GeminiAnswer(config: Config, hasConverter: bool, sent: (Value, Value),
                        post: (string, GeminiRequest) -> HttpReply, loads: string -> Decoded): Value
  {
    match GeminiContents(sent.0)
    case Err(_) => Null
    case Ok(contents) =>
      var request := GeminiRequest(contents, GenerationConfig(config, Null, Null, []), PreparedTool(hasConverter, sent.1));
      Completed(sent.1, GeminiReply(config, post(GenerateContentUrl(config), request), loads))
  }

  /** An OpenAI request answers something other than None only when the
      server replied 200 with JSON, and then it answers that JSON; a JSON
      dictionary is always answered as it is. */
  lemma OpenAiAnswerIsReply(config: Config, sessionId: string, sent: (Value, Value),
                            post: (string, Fields) -> HttpReply, loads: string -> Decoded,
                            floatOf: string -> Option<string>)
    ensures var answer := OpenAiAnswer(config, sessionId, sent, post, loads, floatOf);
            answer != Null ==> RepliedWith(OpenAiReplyTo(config, sent, post), loads, answer)
    ensures ConvertedTools(sent.1).Ok? && RepliedWithObject(OpenAiReplyTo(config, sent, post), loads) ==>
              RepliedWith(OpenAiReplyTo(config, sent, post), loads, OpenAiAnswer(config, sessionId, sent, post, loads, floatOf))
  {
    var converted := ConvertedTools(sent.1);
    if converted.Ok? {
      var url := CompletionsUrl(config.baseUrl);
      var reply := post(url, Payload(config, sent.0, converted.value, Null, Null, Null, []));
      var outcome := Reply(config, sessionId, url, reply, loads, floatOf);
      CompletedDone(sent.1, outcome);
    }
  }

  /** The reply the OpenAI endpoint gives to the request built from `sent`
      (None, and so no reply, when the tools do not convert). */
  function OpenAiReplyTo(config: Config, sent: (Value, Value), post: (string, Fields) -> HttpReply): Option<HttpReply> {
    match ConvertedTools(sent.1)
    case Err(_) => None
    case Ok(converted) => Some(post(CompletionsUrl(config.baseUrl), Payload(config, sent.0, converted, Null, Null, Null, [])))
  }

  /** The reply is a 200 whose body decodes to `v`. */
  predicate RepliedWith(reply: Option<HttpReply>, loads: string -> Decoded, v: Value) {
    reply.Some? && reply.value.Response? && reply.value.status == 200
    && loads(reply.value.text) == Parsed(v)
  }

  /** The reply is a 200 whose body decodes to a dictionary. */
  predicate RepliedWithObject(reply: Option<HttpReply>, loads: string -> Decoded) {
    reply.Some? && reply.value.Response? && reply.value.status == 200
    && loads(reply.value.text).Parsed? && loads(reply.value.text).value.Obj?
  }

  /** The reply the Gemini endpoint gives to the request built from `sent`
      (None when the messages do not convert). */
  function GeminiReplyTo(config: Config, hasConverter: bool, sent: (Value, Value),
                         post: (string, GeminiRequest) -> HttpReply): Option<HttpReply> {
    match GeminiContents(sent.0)
    case Err(_) => None
    case Ok(contents) =>
      Some(post(GenerateContentUrl(config),
                GeminiRequest(contents, GenerationConfig(config, Null, Null, []), PreparedTool(hasConverter, sent.1))))
  }

  /** The Gemini counterpart of `OpenAiAnswerIsReply`. */
  lemma GeminiAnswerIsReply(config: Config, hasConverter: bool, sent: (Value, Value),
                            post: (string, GeminiRequest) -> HttpReply, loads: string -> Decoded)
    ensures var answer := GeminiAnswer(config, hasConverter, sent, post, loads);
            answer != Null ==> RepliedWith(GeminiReplyTo(config, hasConverter, sent, post), loads, answer)
    ensures RepliedWithObject(GeminiReplyTo(config, hasConverter, sent, post), loads) ==>
              RepliedWith(GeminiReplyTo(config, hasConverter, sent, post), loads,
                          GeminiAnswer(config, hasConverter, sent, post, loads))
  {
    var contents := GeminiContents(sent.0);
    if contents.Ok? {
      var request := GeminiRequest(contents.value, GenerationConfig(config, Null, Null, []),
                                   PreparedTool(hasConverter, sent.1));
      CompletedDone(sent.1, GeminiReply(config, post(GenerateContentUrl(config), request), loads));
    }
  }

  /** `Completed` of a successful outcome is that outcome's value or None,
      and a dictionary is always passed back. */
  lemma CompletedDone(toolsSent: Value, outcome: Outcome<Value>)
    ensures Completed(toolsSent, outcome) != Null ==> outcome.Done? && Completed(toolsSent, outcome) == outcome.value
    ensures outcome.Done? && outcome.value.Obj? ==> Completed(toolsSent, outcome) == outcome.value
  {
    if outcome.Done? && outcome.value.Obj? {
      assert In(outcome.value, "tool_calls").Ok?;
    }
  }

  class LLMExecutor {
    const sessionId: string
    var client: Option<LlmClient>
    /** How many times a client's `close` was called. */
    var closings: nat

    constructor(sessionId: string)
      ensures this.sessionId == sessionId && client.None? && closings == 0
    {
      this.sessionId := sessionId;
      client := None;
      closings := 0;
    }

    /** The client objects the executor may update. */
    function ClientObjects(): (r: set<object>)
      reads this
      ensures this !in r
    {
      match client
      case None => {}
      case Some(OpenAi(c)) => {c}
      case Some(GeminiAi(c)) => {c}
    }

    /** `_initialize_client` as written: a set client is kept; otherwise the
        configuration's ValueError propagates, and a loaded configuration
        fails on its missing `tool_converter` attribute, read for the
        client's keyword argument before either client is built. No client
        is ever set. */
    method InitializeClientAsWritten(env: Env) returns (raised: Option<Raised>)
      modifies this
      ensures client == old(client) && closings == old(closings)
      ensures old(client).Some? ==> raised.None?
      ensures old(client).None? ==> raised.Some? && raised.value.Py?
      ensures old(client).None? && Load(env).Err? ==> raised == Some(Py(Load(env).error))
      ensures old(client).None? && Load(env).Ok? ==> raised == Some(Py(NoToolConverter))
    {
      if client.Some? {
        return None;
      }
      var config := Load(env);
      if config.Err? {
        return Some(Py(config.error));
      }
      return Some(Py(NoToolConverter));
    }

    /** Client creation from a loaded configuration, as intended (no
        `tool_converter` keyword): an OpenAI configuration without a base URL
        leaves the client unset, its configuration error being caught;
        otherwise the provider's client is created with the session id. */
    method CreateClient(config: Config)
      requires client.None?
      modifies this
      ensures closings == old(closings) && fresh(ClientObjects())
      ensures config.provider == OpenAI && (config.baseUrl.None? || config.baseUrl.value == "") ==> client.None?
      ensures config.provider == OpenAI && config.baseUrl.Some? && config.baseUrl.value != "" ==>
                client.Some? && client.value.OpenAi? && fresh(client.value.openai)
                && client.value.openai.config == config && !client.value.openai.sessionOpen
                && client.value.openai.sessionId == (if sessionId != "" then sessionId else "unknown")
      ensures config.provider == Gemini ==>
                client.Some? && client.value.GeminiAi? && fresh(client.value.gemini)
                && client.value.gemini.config == config && client.value.gemini.hasConverter
                && !client.value.gemini.sessionOpen
                && client.value.gemini.sessionId == (if sessionId != "" then sessionId else "unknown")
    {
      var id := if sessionId != "" then Some(sessionId) else None;
      if config.provider == OpenAI {
        var made := NewOpenAIClient(config, id);
        if made.Done? {
          client := Some(OpenAi(made.value));
        }
      } else {
        var made := NewGeminiClient(config, id);
        client := Some(GeminiAi(made));
      }
    }

    /** `_initialize_client` as intended: a set client is kept; the
        configuration's ValueError propagates with no client set; a loaded
        configuration gives the client `CreateClient` makes. */
    method InitializeClient(env: Env) returns (raised: Option<Raised>)
      modifies this
      ensures closings == old(closings)
      ensures old(client).Some? ==> raised.None? && client == old(client)
      ensures old(client).None? && Load(env).Err? ==> raised == Some(Py(Load(env).error)) && client.None?
      ensures old(client).None? && Load(env).Ok? ==> raised.None?
      ensures old(client).None? ==> fresh(ClientObjects())
    {
      if client.Some? {
        return None;
      }
      var config := Load(env);
      if config.Err? {
        return Some(Py(config.error));
      }
      CreateClient(config.value);
      return None;
    }

    /** The guarded request of `get_completion` once tools are known to be
        enabled or not: the client gets the conversation's messages and the
        tools to send (`sent`), and what it answers is passed through
        `Completed`. */
    method Complete(toolsEnabled: bool, conv: Conversation, tools: Value,
                    post: (string, Fields) -> HttpReply, geminiPost: (string, GeminiRequest) -> HttpReply,
                    loads: string -> Decoded, floatOf: string -> Option<string>)
      returns (response: Value, sent: (Value, Value))
      requires client.Some?
      modifies ClientObjects()
      ensures sent == (List(conv.GetMessages()), ToolsToSend(toolsEnabled, tools))
      ensures client.value.OpenAi? ==>
                OpenAiAnswer(client.value.openai.config, client.value.openai.sessionId, sent, post, loads, floatOf) == response
      ensures client.value.GeminiAi? ==>
                GeminiAnswer(client.value.gemini.config, client.value.gemini.hasConverter, sent, geminiPost, loads)
                == response
    {
      var toolsToSend := ToolsToSend(toolsEnabled, tools);
      var messages := List(conv.GetMessages());
      sent := (messages, toolsToSend);
      var outcome: Outcome<Value>;
      match client.value {
        case OpenAi(c) =>
          var o, _ := c.ChatCompletion(messages, toolsToSend, Null, Null, Null, [], post, loads, floatOf);
          outcome := o;
        case GeminiAi(c) =>
          var o, _ := c.ChatCompletion(messages, toolsToSend, Null, Null, Null, [], geminiPost, loads);
          outcome := o;
      }
      response := Completed(toolsToSend, outcome);
    }

    /** `get_completion` as written: without a client, initialisation raises
        (the configuration error, or the missing `tool_converter`), and that
        exception escapes; with one, the configuration's missing
        `tools_enabled` raises inside the guarded request and the result is
        None. */
    method GetCompletion(conv: Conversation, tools: Value, env: Env)
      returns (response: Outcome<Value>)
      modifies this
      ensures client == old(client) && closings == old(closings)
      ensures response.Threw? <==> old(client).None?
      ensures old(client).None? && Load(env).Err? ==> response == Threw(Py(Load(env).error))
      ensures old(client).None? && Load(env).Ok? ==> response == Threw(Py(NoToolConverter))
      ensures response.Done? ==> response.value == Null
    {
      var raised := InitializeClientAsWritten(env);
      if raised.Some? {
        return Threw(raised.value);
      }
      // The guarded block loads the configuration again; either that raises,
      // or reading its unset `tools_enabled` does, and the result is None.
      var config := Load(env);
      assert config.Ok? ==> config.value.toolsEnabled.None?;
      return Done(Null);
    }

    /** `get_completion` as intended, with the configuration's tools flag
        given: the initialisation error escapes; without a client the result
        is None; a configuration that fails to load the second time is None;
        otherwise the result of `Complete`. */
    method GetCompletionFixed(conv: Conversation, tools: Value, env: Env, toolsEnabled: bool,
                              post: (string, Fields) -> HttpReply, geminiPost: (string, GeminiRequest) -> HttpReply,
                              loads: string -> Decoded, floatOf: string -> Option<string>)
      returns (response: Outcome<Value>, sent: Option<(Value, Value)>)
      modifies this, ClientObjects()
      ensures closings == old(closings)
      ensures response.Threw? <==> old(client).None? && Load(env).Err?
      ensures response.Threw? ==> response.raised == Py(Load(env).error)
      ensures client.None? || Load(env).Err? ==> response.Threw? || response == Done(Null)
      ensures sent.Some? <==> client.Some? && Load(env).Ok?
      ensures sent.Some? ==> sent.value == (List(conv.GetMessages()), ToolsToSend(toolsEnabled, tools))
      ensures sent.Some? && client.value.OpenAi? ==>
                response == Done(OpenAiAnswer(client.value.openai.config, client.value.openai.sessionId, sent.value,
                                              post, loads, floatOf))
      ensures sent.Some? && client.value.GeminiAi? ==>
                response == Done(GeminiAnswer(client.value.gemini.config, client.value.gemini.hasConverter, sent.value,
                                              geminiPost, loads))
    {
      var raised := InitializeClient(env);
      if raised.Some? {
        return Threw(raised.value), None;
      }
      if client.None? {
        return Done(Null), None;
      }
      var config := Load(env);
      if config.Err? {
        return Done(Null), None;
      }
      var value, request := Complete(toolsEnabled, conv, tools, post, geminiPost, loads, floatOf);
      return Done(value), Some(request);
    }

    /** `close`: closes the client when there is one. */
    method Close()
      modifies this, ClientObjects()
      ensures client == old(client)
      ensures closings == old(closings) + (if client.Some? then 1 else 0)
      ensures client.Some? && client.value.OpenAi? ==> !client.value.openai.sessionOpen
      ensures client.Some? && client.value.GeminiAi? ==> !client.value.gemini.sessionOpen
    {
      match client {
        case None =>
        case Some(OpenAi(c)) =>
          c.Close();
          closings := closings + 1;
        case Some(GeminiAi(c)) =>
          c.Close();
          closings := closings + 1;
      }
    }

    /** `__aexit__`: closes, whatever ended the block. */
    method Exit()
      modifies this, ClientObjects()
      ensures client == old(client)
      ensures closings == old(closings) + (if client.Some? then 1 else 0)
    {
      Close();
    }
  }
}
