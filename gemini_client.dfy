/** The Gemini chat client: the conversation becomes Gemini `contents`,
    the tools become one function-declarations tool, the generation
    settings come from the call and the configuration, and the HTTP reply
    becomes the decoded response or one of the LLM errors. */
module GeminiClients {
  import opened Wrappers
  import opened Text
  import opened Json
  import opened LlmErrors
  import opened LlmConfig
  import ToolsBase
  import opened GeminiTools

  const ApiEndpoint := "https://generativelanguage.googleapis.com/v1"

  const BaseInitArity := TypeError("BaseLLMClient.__init__() takes from 2 to 3 positional arguments but 4 were given")

  // ---------------------------------------------------------------------
  // Request

  /** One message as Gemini content: its role ("user" by default) and its
      content ("" by default) as the single text part; `.get` on a
      non-dictionary raises AttributeError. */
  function GeminiContent(msg: Value): (r: Result<Value>)
    ensures r.Ok? <==> msg.Obj?
    ensures r.Ok? ==> r.value == Obj([("role", GetOr(msg.fields, "role", Str("user"))),
                                      ("parts", List([Obj([("text", GetOr(msg.fields, "content", Str("")))])]))])
  {
    var role :- Get(msg, "role", Str("user"));
    Ok(Obj([("role", role), ("parts", List([Obj([("text", GetOr(msg.fields, "content", Str("")))])]))]))
  }

  /** `_convert_messages_to_gemini_format`: a string is one user message, a
      list is converted message by message, and anything else gives []. */
  function GeminiContents(messages: Value): (r: Result<seq<Value>>)
    ensures messages.Str? ==> r == Ok([Obj([("role", Str("user")), ("parts", List([Obj([("text", messages)])]))])])
    ensures !messages.Str? && !messages.List? ==> r == Ok([])
    ensures messages.List? ==> r == MapResult(messages.items, GeminiContent)
  {
    match messages
    case Str(_) => Ok([Obj([("role", Str("user")), ("parts", List([Obj([("text", messages)])]))])])
    case List(items) => MapResult(items, GeminiContent)
    case _ => Ok([])
  }

  /** A list of dictionaries converts one content per message, in order,
      each keeping the message's role. */
  lemma GeminiContentsOfRecords(items: seq<Value>)
    requires forall i :: 0 <= i < |items| ==> items[i].Obj?
    ensures var r := GeminiContents(List(items));
            r.Ok? && |r.value| == |items|
            && forall i :: 0 <= i < |items| ==>
                 r.value[i].Obj? && Lookup(r.value[i].fields, "role") == Some(GetOr(items[i].fields, "role", Str("user")))
  {
    MapResultOk(items, GeminiContent);
  }

  /** The generation settings: the call's temperature and maximum tokens
      unless None, each falling back to the configuration, with top-k 40
      and top-p 0.95, then the extra keyword arguments. */
  function GenerationConfig(config: Config, temperature: Value, maxTokens: Value, kwargs: Fields): Fields {
    var base := [("temperature", if temperature != Null then temperature else config.temperature),
                 ("maxOutputTokens", if maxTokens != Null then maxTokens else Int(config.maxTokens)),
                 ("topK", Int(40)),
                 ("topP", Float("0.95"))];
    if kwargs != [] then Update(base, kwargs) else base
  }

  /** Without keyword arguments the four settings are exactly these. */
  lemma GenerationConfigDefaults(config: Config)
    ensures var g := GenerationConfig(config, Null, Null, []);
            Keys(g) == ["temperature", "maxOutputTokens", "topK", "topP"]
            && Lookup(g, "temperature") == Some(config.temperature)
            && Lookup(g, "maxOutputTokens") == Some(Int(config.maxTokens))
            && Lookup(g, "topK") == Some(Int(40)) && Lookup(g, "topP") == Some(Float("0.95"))
  {
    var g := GenerationConfig(config, Null, Null, []);
    assert g[1..][1..] == g[2..] && g[2..][1..] == g[3..];
    assert Lookup(g[3..], "topP") == Some(Float("0.95"));
    assert Lookup(g[2..], "topP") == Some(Float("0.95"));
    assert Lookup(g[2..], "topK") == Some(Int(40));
    assert Lookup(g[1..], "topP") == Some(Float("0.95"));
    assert Lookup(g[1..], "topK") == Some(Int(40));
    assert Lookup(g[1..], "maxOutputTokens") == Some(Int(config.maxTokens));
  }

  /** What `json.dumps` raises on a request holding a `Tool`. */
  const ToolNotSerializable := TypeError("Object of type Tool is not JSON serializable")

  /** The request body: the contents, the generation settings and, when
      the tools converted, the Gemini tool. */
  datatype GeminiRequest = GeminiRequest(contents: seq<Value>, generationConfig: Fields, tools: Option<GeminiTool>)

  /** The model argument of the call plays no part: the configured model
      names the endpoint. */
  function GenerateContentUrl(config: Config): string {
    ApiEndpoint + "/models/" + config.model + ":generateContent"
  }

  // ---------------------------------------------------------------------
  // Error responses

  /** What `_handle_error_response` reads from a non-200 body: the error
      data as details and the message, `error.message` when the body is a
      dictionary (a default naming the status otherwise); a body that
      decodes to a non-dictionary, or whose `error` is not one, raises
      AttributeError. */
  function GeminiErrorBody(status: int, text: string, loads: string -> Decoded): (r: Result<(Fields, Value)>)
    ensures loads(text).DecodeError? ==>
              r == Ok(([("raw_response", Str(text))], Str("API request failed with status " + IntToString(status))))
    ensures loads(text).Parsed? && r.Ok? ==> loads(text).value.Obj? && r.value.0 == loads(text).value.fields
    ensures r.Err? ==> r.error.AttributeError?
  {
    var default := Str("API request failed with status " + IntToString(status));
    match loads(text)
    case DecodeError(_) => Ok(([("raw_response", Str(text))], default))
    case Parsed(data) =>
      var error :- Get(data, "error", Obj([]));
      var message :- Get(error, "message", default);
      Ok((data.fields, message))
  }

  /** The Gemini status mapping: 401 authentication, 429 rate limit, 404
      unknown model, a resource-limit error for a message mentioning
      "quota" or "limit", and a generic API error otherwise; none of them
      carries the status or an error code. */
  function GeminiClassify(model: string, status: int, details: Fields, message: Value): (r: Raised)
    ensures status == 401 ==> r == Llm(AuthenticationError("Authentication failed", details))
    ensures status == 429 ==> r == Llm(RateLimitError("Rate limit exceeded", details, None, Null, None))
    ensures status == 404 ==> r == Llm(ModelError("Model not found: " + model, details, None, Null))
    ensures status !in {401, 429, 404} && message.Str? ==>
              r == if Contains(Lower(message.s), "quota") || Contains(Lower(message.s), "limit")
                   then Llm(TokenLimitError("Resource limits exceeded", details, None, Null))
                   else Llm(ApiError(message.s, details, None, Null))
    ensures r.Py? <==> status !in {401, 429, 404} && !message.Str?
    ensures r.Llm? ==> r.err.details == details
    ensures r.Llm? && IsApiError(r.err) ==> r.err.statusCode.None? && r.err.errorCode == Null
  {
    if status == 401 then Llm(AuthenticationError("Authentication failed", details))
    else if status == 429 then Llm(RateLimitError("Rate limit exceeded", details, None, Null, None))
    else if status == 404 then Llm(ModelError("Model not found: " + model, details, None, Null))
    else if !message.Str? then Py(AttributeError("'" + TypeName(message) + "' object has no attribute 'lower'"))
    else if Contains(Lower(message.s), "quota") || Contains(Lower(message.s), "limit") then
      Llm(TokenLimitError("Resource limits exceeded", details, None, Null))
    else Llm(ApiError(message.s, details, None, Null))
  }

  function GeminiHandleError(model: string, status: int, text: string, loads: string -> Decoded): Raised {
    match GeminiErrorBody(status, text, loads)
    case Err(e) => Py(e)
    case Ok((details, message)) => GeminiClassify(model, status, details, message)
  }

  /** A quota message from the server becomes a resource-limit error
      carrying the decoded body. */
  lemma QuotaIsResourceLimit(model: string, status: int, text: string, loads: string -> Decoded, before: string,
                             after: string)
    requires status !in {401, 429, 404}
    requires loads(text) == Parsed(Obj([("error", Obj([("message", Str(before + "quota" + after))]))]))
    ensures GeminiHandleError(model, status, text, loads)
            == Llm(TokenLimitError("Resource limits exceeded", [("error", Obj([("message", Str(before + "quota" + after))]))],
                                   None, Null))
  {
    var msg := before + "quota" + after;
    assert GeminiErrorBody(status, text, loads) == Ok(([("error", Obj([("message", Str(msg))]))], Str(msg)));
    MentionsQuota(before, after);
  }

  lemma MentionsQuota(before: string, after: string)
    ensures Contains(Lower(before + "quota" + after), "quota")
  {
    LowerConcat(before, "quota", after);
    LowerOfLowercase("quota");
    ContainsMiddle(Lower(before), "quota", Lower(after));
  }

  // ---------------------------------------------------------------------
  // Reply

  /** The outcome of `chat_completion` for an HTTP reply. */
  function GeminiReply(config: Config, reply: HttpReply, loads: string -> Decoded): (r: Outcome<Value>)
    ensures r.Done? <==> reply.Response? && reply.status == 200 && loads(reply.text).Parsed?
    ensures r.Done? ==> r.value == loads(reply.text).value
    ensures reply.Response? && reply.status == 200 && loads(reply.text).DecodeError? ==>
              r == Threw(Llm(ResponseError("Failed to parse API response as JSON",
                                           [("response_text", Str(reply.text)),
                                            ("parse_error", Str(loads(reply.text).msg))])))
    ensures reply.ClientFailure? ==>
              r == Threw(Llm(ConnectionError("Failed to connect to Gemini service: " + reply.description,
                                             [("error_type", Str(reply.errorType)), ("url", Str(ApiEndpoint))])))
    ensures reply.TimedOut? ==>
              r == Threw(Llm(TimeoutError("Request timed out after " + Show(config.timeout) + " seconds", [])))
    ensures reply.Response? && reply.status != 200 ==>
              r == Threw(GeminiHandleError(config.model, reply.status, reply.text, loads))
  {
    match reply
    case ClientFailure(errorType, description) =>
      Threw(Llm(ConnectionError("Failed to connect to Gemini service: " + description,
                                [("error_type", Str(errorType)), ("url", Str(ApiEndpoint))])))
    case TimedOut =>
      Threw(Llm(TimeoutError("Request timed out after " + Show(config.timeout) + " seconds", [])))
    case Response(status, text, _) =>
      if status == 200 then
        match loads(text)
        case Parsed(v) => Done(v)
        case DecodeError(msg) =>
          Threw(Llm(ResponseError("Failed to parse API response as JSON",
                                  [("response_text", Str(text)), ("parse_error", Str(msg))])))
      else Threw(GeminiHandleError(config.model, status, text, loads))
  }

  // ---------------------------------------------------------------------
  // The client

  /** The tool `_prepare_tools` sends: none for falsy tools or without a
      converter; otherwise the converter's tool, or none when iterating or
      converting raises (the error is logged and swallowed). */
  function PreparedTool(hasConverter: bool, tools: Value): (r: Option<GeminiTool>)
    ensures !Truthy(tools) || !hasConverter ==> r.None?
    ensures Truthy(tools) && hasConverter && Iterate(tools).Ok? ==>
              (r.Some? <==> ToolsBase.ConvertAll(Iterate(tools).value, Declaration).Converted?)
              && (r.Some? ==> r.value == Tool(ToolsBase.ConvertAll(Iterate(tools).value, Declaration).value))
    ensures Iterate(tools).Err? ==> r.None?
  {
    if !Truthy(tools) || !hasConverter then None
    else match Iterate(tools)
      case Err(_) => None
      case Ok(items) =>
        match ToolsBase.ConvertAll(items, Declaration)
        case Rejected(_) => None
        case Converted(declarations) => Some(Tool(declarations))
  }

  class GeminiClient {
    const config: Config
    const sessionId: string
    const hasConverter: bool
    var sessionOpen: bool

    constructor(config: Config, sessionId: string, hasConverter: bool)
      ensures this.config == config && this.sessionId == sessionId && this.hasConverter == hasConverter
      ensures !sessionOpen
    {
      this.config := config;
      this.sessionId := sessionId;
      this.hasConverter := hasConverter;
      sessionOpen := false;
    }

    method EnsureSession()
      modifies this
      ensures sessionOpen
    {
      if !sessionOpen {
        sessionOpen := true;
      }
    }

    method Close()
      modifies this
      ensures !sessionOpen
    {
      if sessionOpen {
        sessionOpen := false;
      }
    }

    /** `_prepare_tools`: the tool `PreparedTool` describes. */
    method PrepareTools(tools: Value) returns (r: Option<GeminiTool>)
      ensures r == PreparedTool(hasConverter, tools)
      ensures !Truthy(tools) || !hasConverter ==> r.None?
      ensures Truthy(tools) && hasConverter && Iterate(tools).Ok? ==>
                (r.Some? <==> ToolsBase.ConvertAll(Iterate(tools).value, Declaration).Converted?)
                && (r.Some? ==> r.value == Tool(ToolsBase.ConvertAll(Iterate(tools).value, Declaration).value))
      ensures Iterate(tools).Err? ==> r.None?
    {
      if !Truthy(tools) || !hasConverter {
        return None;
      }
      var items := Iterate(tools);
      if items.Err? {
        return None;
      }
      var converted := ConvertTools(items.value);
      if converted.Rejected? {
        return None;
      }
      return Some(converted.value);
    }

    /** `chat_completion`: opens the session, converts the messages (a
        non-dictionary message raises), builds the request, posts it to the
        configured model's `generateContent` endpoint and returns the
        reply's outcome. `sent` is the request. This is the intended call,
        with the prepared tool serialised into the request; as written the
        call raises before posting whenever a tool is prepared
        (`ChatCompletionAsWritten`). */
    method ChatCompletion(messages: Value, tools: Value, model: Value, temperature: Value, maxTokens: Value,
                          kwargs: Fields, post: (string, GeminiRequest) -> HttpReply, loads: string -> Decoded)
      returns (r: Outcome<Value>, sent: Option<(string, GeminiRequest)>)
      modifies this
      ensures sessionOpen
      ensures GeminiContents(messages).Err? ==> r == Threw(Py(GeminiContents(messages).error)) && sent.None?
      ensures GeminiContents(messages).Ok? ==>
                sent.Some? && sent.value.0 == GenerateContentUrl(config)
                && sent.value.1.contents == GeminiContents(messages).value
                && sent.value.1.generationConfig == GenerationConfig(config, temperature, maxTokens, kwargs)
                && sent.value.1.tools == PreparedTool(hasConverter, tools)
                && r == GeminiReply(config, post(sent.value.0, sent.value.1), loads)
    {
      EnsureSession();
      var contents := GeminiContents(messages);
      if contents.Err? {
        return Threw(Py(contents.error)), None;
      }
      var geminiTools := PrepareTools(tools);
      var request := GeminiRequest(contents.value, GenerationConfig(config, temperature, maxTokens, kwargs),
                                   geminiTools);
      var url := GenerateContentUrl(config);
      var reply := post(url, request);
      r := GeminiReply(config, reply, loads);
      sent := Some((url, request));
    }

    /** `chat_completion` as written: the debug line before the request
        formats `json.dumps(request_data)`, which raises TypeError once the
        request holds a prepared `Tool` (not JSON serialisable), so a request
        with tools is never posted. Without a tool it is `ChatCompletion`. */
    method ChatCompletionAsWritten(messages: Value, tools: Value, model: Value, temperature: Value, maxTokens: Value,
                                   kwargs: Fields, post: (string, GeminiRequest) -> HttpReply, loads: string -> Decoded)
      returns (r: Outcome<Value>, sent: Option<(string, GeminiRequest)>)
      modifies this
      ensures sessionOpen
      ensures GeminiContents(messages).Err? ==> r == Threw(Py(GeminiContents(messages).error)) && sent.None?
      ensures GeminiContents(messages).Ok? && PreparedTool(hasConverter, tools).Some? ==>
                r == Threw(Py(ToolNotSerializable)) && sent.None?
      ensures GeminiContents(messages).Ok? && PreparedTool(hasConverter, tools).None? ==>
                sent.Some? && sent.value.0 == GenerateContentUrl(config)
                && sent.value.1 == GeminiRequest(GeminiContents(messages).value,
                                                 GenerationConfig(config, temperature, maxTokens, kwargs), None)
                && r == GeminiReply(config, post(sent.value.0, sent.value.1), loads)
    {
      EnsureSession();
      var contents := GeminiContents(messages);
      if contents.Err? {
        return Threw(Py(contents.error)), None;
      }
      var geminiTools := PrepareTools(tools);
      if geminiTools.Some? {
        return Threw(Py(ToolNotSerializable)), None;
      }
      var request := GeminiRequest(contents.value, GenerationConfig(config, temperature, maxTokens, kwargs), None);
      var url := GenerateContentUrl(config);
      var reply := post(url, request);
      r := GeminiReply(config, reply, loads);
      sent := Some((url, request));
    }
  }

  /** `GeminiClient(config, session_id, tool_converter)` as written: it
      calls the base initialiser with the converter as an extra positional
      argument, which the two-parameter base initialiser refuses. */
  method NewGeminiClientAsWritten(config: Config, sessionId: Option<string>) returns (r: Outcome<GeminiClient>)
    ensures r == Threw(Py(BaseInitArity))
  {
    return Threw(Py(BaseInitArity));
  }

  /** The initialiser as intended: the base initialiser takes the
      configuration and the session id (default "unknown"), and the client
      keeps a converter (a default one when none is given). */
  method NewGeminiClient(config: Config, sessionId: Option<string>) returns (c: GeminiClient)
    ensures fresh(c) && c.config == config && c.hasConverter && !c.sessionOpen
    ensures c.sessionId == if sessionId.Some? && sessionId.value != "" then sessionId.value else "unknown"
  {
    var id := if sessionId.Some? && sessionId.value != "" then sessionId.value else "unknown";
    c := new GeminiClient(config, id, true);
  }
}
