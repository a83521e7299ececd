/** The OpenAI-compatible chat client: the MCP tool definitions become
    OpenAI function tools, the request payload is built from the call's
    arguments and the configuration, and the HTTP reply becomes the decoded
    completion or one of the LLM errors. */
module OpenAiClients {
  import opened Wrappers
  import opened Text
  import opened Json
  import opened LlmErrors
  import opened LlmConfig

  const MissingBaseUrl := "OpenAI client requires base_url configuration"

  // ---------------------------------------------------------------------
  // Tool conversion

  /** One MCP tool as an OpenAI function tool, reading `tool["name"]`,
      `["description"]` and `["inputSchema"]` in that order. */
  function OpenAiToolEntry(tool: Value): (r: Result<Value>)
    ensures r.Ok? <==> tool.Obj? && HasKey(tool.fields, "name") && HasKey(tool.fields, "description")
                       && HasKey(tool.fields, "inputSchema")
  {
    var name :- Subscript(tool, "name");
    var description :- Subscript(tool, "description");
    var schema :- Subscript(tool, "inputSchema");
    Ok(Obj([("type", Str("function")),
            ("function", Obj([("name", name), ("description", description), ("parameters", schema)]))]))
  }

  /** The entry carries the tool's name and description and its input
      schema as the parameters. */
  lemma OpenAiToolEntryFields(tool: Value)
    requires OpenAiToolEntry(tool).Ok?
    ensures var entry := OpenAiToolEntry(tool).value;
            entry.Obj? && Lookup(entry.fields, "type") == Some(Str("function"))
            && Lookup(entry.fields, "function").Some? && Lookup(entry.fields, "function").value.Obj?
            && var fn := Lookup(entry.fields, "function").value.fields;
               Lookup(fn, "name") == Lookup(tool.fields, "name")
               && Lookup(fn, "description") == Lookup(tool.fields, "description")
               && Lookup(fn, "parameters") == Lookup(tool.fields, "inputSchema")
  {
    var entry := OpenAiToolEntry(tool).value;
    var fn := Obj([("name", Lookup(tool.fields, "name").value),
                   ("description", Lookup(tool.fields, "description").value),
                   ("parameters", Lookup(tool.fields, "inputSchema").value)]);
    assert entry == Obj([("type", Str("function")), ("function", fn)]);
    assert Lookup(entry.fields[1..], "function") == Some(fn);
    assert Lookup(fn.fields[1..], "description") == Lookup(tool.fields, "description");
    assert Lookup(fn.fields[2..], "parameters") == Lookup(tool.fields, "inputSchema");
  }

  /** `_convert_mcp_tools_to_openai`: [] for falsy tools, otherwise one
      entry per element iterated, or the first lookup's exception. */
  function ConvertedTools(tools: Value): (r: Result<seq<Value>>)
    ensures !Truthy(tools) ==> r == Ok([])
    ensures tools.List? && r.Ok? ==> |r.value| == |tools.items|
                                     && forall i :: 0 <= i < |tools.items| ==> OpenAiToolEntry(tools.items[i]) == Ok(r.value[i])
  {
    if !Truthy(tools) then Ok([])
    else
      var items :- Iterate(tools);
      MapResult(items, OpenAiToolEntry)
  }

  /** A list of tools converts exactly when every element is a dictionary
      with the three keys. */
  lemma ConvertedToolsOk(tools: seq<Value>)
    ensures ConvertedTools(List(tools)).Ok? <==> forall i :: 0 <= i < |tools| ==> OpenAiToolEntry(tools[i]).Ok?
  {
    MapResultOk(tools, OpenAiToolEntry);
  }

  /** A dictionary of tools (the `{"tools": [...]}` listing itself) is
      iterated over its keys, and indexing a key string raises TypeError. */
  lemma ConvertedToolsListing(listing: seq<Value>)
    ensures ConvertedTools(Obj([("tools", List(listing))])) == Err(TypeError("string indices must be integers, not 'str'"))
  {
    var items := Iterate(Obj([("tools", List(listing))])).value;
    assert items == [Str("tools")];
    assert MapResult(items[..0], OpenAiToolEntry) == Ok([]);
  }

  // ---------------------------------------------------------------------
  // Request

  /** The four fixed payload entries: the call's model when truthy, the
      messages, and the call's temperature and maximum tokens unless None,
      each falling back to the configuration. */
  function BaseFields(config: Config, messages: Value, model: Value, temperature: Value, maxTokens: Value): Fields {
    [("model", if Truthy(model) then model else Str(config.model)),
     ("messages", messages),
     ("temperature", if temperature != Null then temperature else config.temperature),
     ("max_tokens", if maxTokens != Null then maxTokens else Int(config.maxTokens))]
  }

  /** `tools` is added only for a non-empty converted list. */
  function WithTools(base: Fields, openAiTools: seq<Value>): Fields {
    if openAiTools != [] then base + [("tools", List(openAiTools))] else base
  }

  /** The request payload: the fixed entries, the tools, then the extra
      keyword arguments. */
  function Payload(config: Config, messages: Value, openAiTools: seq<Value>, model: Value, temperature: Value,
                   maxTokens: Value, kwargs: Fields): Fields
  {
    Update(WithTools(BaseFields(config, messages, model, temperature, maxTokens), openAiTools), kwargs)
  }

  lemma BaseFieldsLookup(a: Value, b: Value, c: Value, d: Value, k: string)
    ensures Lookup([("model", a), ("messages", b), ("temperature", c), ("max_tokens", d)], k)
            == if k == "model" then Some(a) else if k == "messages" then Some(b)
               else if k == "temperature" then Some(c) else if k == "max_tokens" then Some(d) else None
  {
    var base := [("model", a), ("messages", b), ("temperature", c), ("max_tokens", d)];
    assert base[1..] == [("messages", b), ("temperature", c), ("max_tokens", d)];
    assert base[2..] == [("temperature", c), ("max_tokens", d)];
    assert base[3..] == [("max_tokens", d)];
    assert Lookup(base[3..], k) == if k == "max_tokens" then Some(d) else None;
    assert Lookup(base[2..], k) == if k == "temperature" then Some(c) else Lookup(base[3..], k);
    assert Lookup(base[1..], k) == if k == "messages" then Some(b) else Lookup(base[2..], k);
  }

  lemma WithToolsLookup(base: Fields, openAiTools: seq<Value>, k: string)
    requires !HasKey(base, "tools")
    ensures Lookup(WithTools(base, openAiTools), k)
            == if k == "tools" && openAiTools != [] then Some(List(openAiTools)) else Lookup(base, k)
  {
    if openAiTools != [] {
      LookupAppend(base, [("tools", List(openAiTools))], k);
    }
  }

  /** The value a payload key has when the keyword arguments do not set
      it: the call's argument or the configured value for the four fixed
      keys, the converted list for `tools` when it is non-empty, and no
      value for any other key. */
  function PayloadDefault(config: Config, messages: Value, openAiTools: seq<Value>, model: Value,
                          temperature: Value, maxTokens: Value, k: string): Option<Value>
  {
    if k == "model" then Some(if Truthy(model) then model else Str(config.model))
    else if k == "messages" then Some(messages)
    else if k == "temperature" then Some(if temperature != Null then temperature else config.temperature)
    else if k == "max_tokens" then Some(if maxTokens != Null then maxTokens else Int(config.maxTokens))
    else if k == "tools" && openAiTools != [] then Some(List(openAiTools))
    else None
  }

  lemma DefaultsLookup(config: Config, messages: Value, openAiTools: seq<Value>, model: Value,
                       temperature: Value, maxTokens: Value, k: string)
    ensures Lookup(WithTools(BaseFields(config, messages, model, temperature, maxTokens), openAiTools), k)
            == PayloadDefault(config, messages, openAiTools, model, temperature, maxTokens, k)
  {
    var base := BaseFields(config, messages, model, temperature, maxTokens);
    BaseFieldsLookup(base[0].1, messages, base[2].1, base[3].1, k);
    BaseFieldsLookup(base[0].1, messages, base[2].1, base[3].1, "tools");
    WithToolsLookup(base, openAiTools, k);
  }

  /** Every payload key reads from the keyword arguments when they set it,
      and otherwise has its default; so `tools` is present exactly for a
      non-empty converted list or a `tools` keyword. */
  lemma PayloadFields(config: Config, messages: Value, openAiTools: seq<Value>, model: Value, temperature: Value,
                      maxTokens: Value, kwargs: Fields, k: string)
    requires UniqueKeys(kwargs)
    ensures Lookup(Payload(config, messages, openAiTools, model, temperature, maxTokens, kwargs), k)
            == if HasKey(kwargs, k) then Lookup(kwargs, k)
               else PayloadDefault(config, messages, openAiTools, model, temperature, maxTokens, k)
  {
    DefaultsLookup(config, messages, openAiTools, model, temperature, maxTokens, k);
    UpdateLookup(WithTools(BaseFields(config, messages, model, temperature, maxTokens), openAiTools), kwargs, k);
  }

  /** `f"{base_url}/chat/completions"`; a base URL of None formats as "None". */
  function CompletionsUrl(baseUrl: Option<string>): string {
    (if baseUrl.Some? then baseUrl.value else "None") + "/chat/completions"
  }

  // ---------------------------------------------------------------------
  // Error responses

  /** What `_handle_error_response` reads from a non-200 body before adding
      the session id: the error data, the message (a default naming the
      status unless the body's `error` gives one) and the error code; or the
      exception raised on the way (a body that decodes to something other
      than a dictionary holding a dictionary `error`). */
  function ErrorBody(status: int, text: string, loads: string -> Decoded): (r: Result<(Value, Value, Value)>)
    ensures loads(text).DecodeError? ==>
              r == Ok((Obj([("raw_response", Str(text))]), Str(DefaultMessage(status)), Null))
    ensures loads(text).Parsed? && loads(text).value.Obj? && !HasKey(loads(text).value.fields, "error") ==>
              r == Ok((loads(text).value, Str(DefaultMessage(status)), Null))
    ensures r.Ok? && loads(text).Parsed? ==> r.value.0 == loads(text).value
  {
    var default := Str(DefaultMessage(status));
    match loads(text)
    case DecodeError(_) => Ok((Obj([("raw_response", Str(text))]), default, Null))
    case Parsed(data) =>
      var hasError :- In(data, "error");
      if !hasError then Ok((data, default, Null))
      else
        var info :- Subscript(data, "error");
        var message :- Get(info, "message", default);
        Ok((data, message, GetOr(info.fields, "code", Null)))
  }

  function DefaultMessage(status: int): string {
    "API request failed with status " + IntToString(status)
  }

  const AuthStatusCodeKwarg := TypeError("LLMError.__init__() got an unexpected keyword argument 'status_code'")

  /** The status mapping as written: a 401 passes `status_code` and
      `error_code` to `LLMAuthenticationError`, whose constructor takes only
      a message and details, so Python raises TypeError instead. */
  function ClassifyAsWritten(model: string, status: int, details: Fields, message: Value, code: Value,
                             retryAfter: Option<string>): (r: Raised)
    ensures status == 401 ==> r == Py(AuthStatusCodeKwarg)
    ensures status != 401 ==> r == Classify(model, status, details, message, code, retryAfter)
  {
    if status == 401 then Py(AuthStatusCodeKwarg)
    else Classify(model, status, details, message, code, retryAfter)
  }

  /** The status mapping as intended: 401 authentication, 429 rate limit
      (with the parsed `retry-after`), 404 unknown model, a token-limit
      error for the provider's code or a message mentioning "token", and a
      generic API error otherwise; lowering a non-string message raises
      AttributeError. */
  function Classify(model: string, status: int, details: Fields, message: Value, code: Value,
                    retryAfter: Option<string>): (r: Raised)
    ensures status == 401 ==> r == Llm(AuthenticationError("Authentication failed - check your API key", details))
    ensures status == 429 ==> r == Llm(RateLimitError("Rate limit exceeded", details, Some(status), code, retryAfter))
    ensures status == 404 ==> r == Llm(ModelError("Model not found: " + model, details, Some(status), code))
    ensures status !in {401, 429, 404} && code == Str("context_length_exceeded") ==>
              r == Llm(TokenLimitError("Token limit exceeded", details, Some(status), code))
    ensures status !in {401, 429, 404} && code != Str("context_length_exceeded") && message.Str? ==>
              r == if Contains(Lower(message.s), "token")
                   then Llm(TokenLimitError("Token limit exceeded", details, Some(status), code))
                   else Llm(ApiError(message.s, details, Some(status), code))
    ensures r.Py? <==> status !in {401, 429, 404} && code != Str("context_length_exceeded") && !message.Str?
    ensures r.Llm? && IsApiError(r.err) ==> r.err.statusCode == Some(status) && r.err.errorCode == code
    ensures r.Llm? ==> r.err.details == details
  {
    if status == 401 then Llm(AuthenticationError("Authentication failed - check your API key", details))
    else if status == 429 then Llm(RateLimitError("Rate limit exceeded", details, Some(status), code, retryAfter))
    else if status == 404 then Llm(ModelError("Model not found: " + model, details, Some(status), code))
    else if code == Str("context_length_exceeded") then
      Llm(TokenLimitError("Token limit exceeded", details, Some(status), code))
    else if !message.Str? then Py(AttributeError("'" + TypeName(message) + "' object has no attribute 'lower'"))
    else if Contains(Lower(message.s), "token") then
      Llm(TokenLimitError("Token limit exceeded", details, Some(status), code))
    else Llm(ApiError(message.s, details, Some(status), code))
  }

  /** `_handle_error_response`: what the error body gives, the session id
      added to the error data, then the status mapping. `floatOf` is
      Python's `float()` on the `retry-after` header (None when it raises
      ValueError). */
  function HandleError(model: string, sessionId: string, status: int, text: string, header: Option<string>,
                       loads: string -> Decoded, floatOf: string -> Option<string>): (r: Raised)
  {
    match ErrorBody(status, text, loads)
    case Err(e) => Py(e)
    case Ok((data, message, code)) =>
      match SetItem(data, "session_id", Str(sessionId))
      case Err(e) => Py(e)
      case Ok(details) =>
        var retryAfter := if status == 429 && header.Some? then floatOf(header.value) else None;
        Classify(model, status, details, message, code, retryAfter)
  }

  /** Every LLM error raised for an error response carries the session id
      in its details. */
  lemma HandleErrorSessionId(model: string, sessionId: string, status: int, text: string, header: Option<string>,
                             loads: string -> Decoded, floatOf: string -> Option<string>)
    ensures var r := HandleError(model, sessionId, status, text, header, loads, floatOf);
            r.Llm? ==> Lookup(r.err.details, "session_id") == Some(Str(sessionId))
  {
    var body := ErrorBody(status, text, loads);
    if body.Ok? && SetItem(body.value.0, "session_id", Str(sessionId)).Ok? {
      PutLookup(body.value.0.fields, "session_id", Str(sessionId), "session_id");
    }
  }

  /** A body that is not JSON gives an API error with the default message,
      the raw text and the session id as details, for a status without its
      own mapping. */
  lemma HandleErrorRawBody(model: string, sessionId: string, status: int, text: string, header: Option<string>,
                           loads: string -> Decoded, floatOf: string -> Option<string>)
    requires loads(text).DecodeError? && status !in {401, 429, 404}
    requires !Contains(Lower(DefaultMessage(status)), "token")
    ensures HandleError(model, sessionId, status, text, header, loads, floatOf)
            == Llm(ApiError(DefaultMessage(status), [("raw_response", Str(text)), ("session_id", Str(sessionId))],
                            Some(status), Null))
  {
    assert Keys([("raw_response", Str(text))]) == ["raw_response"];
    assert !HasKey([("raw_response", Str(text))], "session_id");
    assert Put([("raw_response", Str(text))], "session_id", Str(sessionId))
           == [("raw_response", Str(text))] + [("session_id", Str(sessionId))]
           == [("raw_response", Str(text)), ("session_id", Str(sessionId))];
    assert SetItem(Obj([("raw_response", Str(text))]), "session_id", Str(sessionId))
           == Ok([("raw_response", Str(text)), ("session_id", Str(sessionId))]);
  }

  // ---------------------------------------------------------------------
  // Reply

  /** The outcome of `chat_completion` for an HTTP reply: a 200 body decoded
      as JSON (a ResponseError when it is not), an error response mapped by
      `HandleError`, a connection error naming the failure and the URL, or a
      timeout naming the configured timeout. */
  function Reply(config: Config, sessionId: string, url: string, reply: HttpReply, loads: string -> Decoded,
                 floatOf: string -> Option<string>): (r: Outcome<Value>)
    ensures r.Done? <==> reply.Response? && reply.status == 200 && loads(reply.text).Parsed?
    ensures r.Done? ==> r.value == loads(reply.text).value
    ensures reply.Response? && reply.status == 200 && loads(reply.text).DecodeError? ==>
              r == Threw(Llm(ResponseError("Failed to parse API response as JSON",
                                           [("response_text", Str(reply.text)),
                                            ("parse_error", Str(loads(reply.text).msg)),
                                            ("session_id", Str(sessionId))])))
    ensures reply.ClientFailure? ==>
              r == Threw(Llm(ConnectionError("Failed to connect to LLM service: " + reply.description,
                                             [("error_type", Str(reply.errorType)), ("url", Str(url)),
                                              ("session_id", Str(sessionId))])))
    ensures reply.TimedOut? ==>
              r == Threw(Llm(TimeoutError("Request timed out after " + Show(config.timeout) + " seconds",
                                          [("session_id", Str(sessionId))])))
  {
    match reply
    case ClientFailure(errorType, description) =>
      Threw(Llm(ConnectionError("Failed to connect to LLM service: " + description,
                                [("error_type", Str(errorType)), ("url", Str(url)), ("session_id", Str(sessionId))])))
    case TimedOut =>
      Threw(Llm(TimeoutError("Request timed out after " + Show(config.timeout) + " seconds",
                             [("session_id", Str(sessionId))])))
    case Response(status, text, header) =>
      if status == 200 then
        match loads(text)
        case Parsed(v) => Done(v)
        case DecodeError(msg) =>
          Threw(Llm(ResponseError("Failed to parse API response as JSON",
                                  [("response_text", Str(text)), ("parse_error", Str(msg)),
                                   ("session_id", Str(sessionId))])))
      else Threw(HandleError(config.model, sessionId, status, text, header, loads, floatOf))
  }

  /** Every LLM error of a reply names the session. */
  lemma ReplyErrorsNameSession(config: Config, sessionId: string, url: string, reply: HttpReply,
                               loads: string -> Decoded, floatOf: string -> Option<string>)
    ensures var r := Reply(config, sessionId, url, reply, loads, floatOf);
            r.Threw? && r.raised.Llm? ==> Lookup(r.raised.err.details, "session_id") == Some(Str(sessionId))
  {
    match reply
    case Response(status, text, header) =>
      if status != 200 {
        HandleErrorSessionId(config.model, sessionId, status, text, header, loads, floatOf);
      } else if loads(text).DecodeError? {
        var details := [("response_text", Str(text)), ("parse_error", Str(loads(text).msg)),
                        ("session_id", Str(sessionId))];
        assert Lookup(details[2..], "session_id") == Some(Str(sessionId));
      }
    case ClientFailure(errorType, _) =>
      var details := [("error_type", Str(errorType)), ("url", Str(url)), ("session_id", Str(sessionId))];
      assert Lookup(details[2..], "session_id") == Some(Str(sessionId));
    case TimedOut =>
  }

  // ---------------------------------------------------------------------
  // The client

  class OpenAIClient {
    const config: Config
    const sessionId: string
    var sessionOpen: bool

    constructor(config: Config, sessionId: string)
      ensures this.config == config && this.sessionId == sessionId && !sessionOpen
    {
      this.config := config;
      this.sessionId := sessionId;
      sessionOpen := false;
    }

    /** `_ensure_session`: an HTTP session is open afterwards. */
    method EnsureSession()
      modifies this
      ensures sessionOpen
    {
      if !sessionOpen {
        sessionOpen := true;
      }
    }

    /** `close`: no session is open afterwards. */
    method Close()
      modifies this
      ensures !sessionOpen
    {
      if sessionOpen {
        sessionOpen := false;
      }
    }

    /** The loop of `_convert_mcp_tools_to_openai`. */
    method ConvertMcpTools(tools: Value) returns (r: Result<seq<Value>>)
      ensures r == ConvertedTools(tools)
    {
      if !Truthy(tools) {
        return Ok([]);
      }
      var iterated := Iterate(tools);
      if iterated.Err? {
        return Err(iterated.error);
      }
      var items := iterated.value;
      var openAiTools: seq<Value> := [];
      var i := 0;
      while i < |items|
        invariant 0 <= i <= |items|
        invariant MapResult(items[..i], OpenAiToolEntry) == Ok(openAiTools)
      {
        var entry := OpenAiToolEntry(items[i]);
        assert items[..i + 1][..i] == items[..i];
        if entry.Err? {
          assert MapResult(items[..i + 1], OpenAiToolEntry) == Err(entry.error);
          MapResultFailedPrefix(items, OpenAiToolEntry, i + 1);
          return Err(entry.error);
        }
        openAiTools := openAiTools + [entry.value];
        i := i + 1;
      }
      assert items[..i] == items;
      return Ok(openAiTools);
    }

    /** `chat_completion`: opens the session, converts falsy-or-not tools
        (a conversion failure raises before anything is sent), posts the
        payload to `<base_url>/chat/completions` (`post` is the server's
        answer) and returns the reply's outcome. `sent` is the request. */
    method ChatCompletion(messages: Value, tools: Value, model: Value, temperature: Value, maxTokens: Value,
                          kwargs: Fields, post: (string, Fields) -> HttpReply, loads: string -> Decoded,
                          floatOf: string -> Option<string>)
      returns (r: Outcome<Value>, sent: Option<(string, Fields)>)
      modifies this
      ensures sessionOpen
      ensures ConvertedTools(tools).Err? ==> r == Threw(Py(ConvertedTools(tools).error)) && sent.None?
      ensures ConvertedTools(tools).Ok? ==>
                var url := CompletionsUrl(config.baseUrl);
                var payload := Payload(config, messages, ConvertedTools(tools).value, model, temperature,
                                       maxTokens, kwargs);
                sent == Some((url, payload)) && r == Reply(config, sessionId, url, post(url, payload), loads, floatOf)
    {
      EnsureSession();
      var openAiTools := ConvertMcpTools(tools);
      if openAiTools.Err? {
        return Threw(Py(openAiTools.error)), None;
      }
      var payload := Payload(config, messages, openAiTools.value, model, temperature, maxTokens, kwargs);
      var url := CompletionsUrl(config.baseUrl);
      var reply := post(url, payload);
      r := Reply(config, sessionId, url, reply, loads, floatOf);
      sent := Some((url, payload));
    }
  }

  /** `OpenAIClient(config, session_id)`: the session id defaults to
      "unknown"; a missing or empty base URL raises a configuration error. */
  method NewOpenAIClient(config: Config, sessionId: Option<string>) returns (r: Outcome<OpenAIClient>)
    ensures r.Threw? <==> config.baseUrl.None? || config.baseUrl.value == ""
    ensures r.Threw? ==> r.raised == Llm(ConfigurationError(MissingBaseUrl, []))
    ensures r.Done? ==> fresh(r.value) && r.value.config == config && !r.value.sessionOpen
                        && r.value.sessionId == (if sessionId.Some? && sessionId.value != "" then sessionId.value
                                                 else "unknown")
  {
    if config.baseUrl.None? || config.baseUrl.value == "" {
      return Threw(Llm(ConfigurationError(MissingBaseUrl, [])));
    }
    var id := if sessionId.Some? && sessionId.value != "" then sessionId.value else "unknown";
    var client := new OpenAIClient(config, id);
    return Done(client);
  }
}
