# mcpbridge, modelled in Dafny

mcpbridge bridges a Model Context Protocol (MCP) tool server with a large-language-model service (OpenAI or Gemini). The command line builds a chain of commands (`mcpserver stdio --tool name command path`). A session then does four things:
1. It asks the tool server for its tool catalog.
2. It builds the initial prompt from a template and the user's prompt.
3. It sends the conversation to the LLM with the catalog.
4. While the LLM asks for tool calls, it calls each tool, appends the normalised tool result, and asks again.

This project models that core, one Dafny module per source file:

- `Commands` (command chain), `McpServer` (CLI option parsing), `Contexts` (context and context manager).
- `LlmConfig` (environment-driven configuration), `LlmErrors` (exception hierarchy and messages).
- `ResultParser` (tool-result normalisation).
- `ToolsBase`, `OpenAiTools`, `GeminiTools` (tool-definition validation and conversion).
- `Messages` (pydantic message records), `Conversations` (append-only conversation), `PromptBuilders` (initial prompt).
- `OpenAiClients`, `GeminiClients`, `GeminiParser` (provider clients and the Gemini response parser).
- `LlmExecutors` (lazy client creation and completion), `ToolExecutors` (stdio client and tool calls), `Sessions` (the conversation loop).

`Wrappers`, `Text` and `Json` are shared groundwork. They hold `Option`/`Result`, Python's string built-ins, and a JSON-like `Value` whose dictionaries are ordered association lists, as Python dictionaries keep insertion order. Python's subscript, `in`, `.get` and iteration are modelled by functions that return the exception Python would raise, so a crash in the source is an observable outcome in the model.

Classes whose methods update their fields (`Command`, `Context`, `Conversation`, the two clients, the executors, `Session`) are Dafny classes. The methods of those classes are proved against specification functions. For example, `Session.RunConversationLoop` is proved equal to the functional `Converse`, whose properties are proved separately as lemmas. Pure code is written as functions and lemmas.

Where the intended design and the code differ, the model follows the code, except where a finding below gives both the code as written and the corrected behaviour; the rest of the model then uses the corrected one (the session, for instance, runs the corrected tool call). Elsewhere:
- The code talks to a single tool server read from `ctx.mcp_server`. It does not namespace tool names as `server-function`, and it does not route calls by server.
- A falsy LLM response ends the loop with no error.
- The configuration raises `ValueError`, not `LLMConfigurationError`.

## Model

| member | source | states |
|---|---|---|
| Commands.Command.constructor | src/mcpbridge/core/command.py:11-25 | a new command holds the given name, options and nested command |
| Commands.Command.HasOptions | src/mcpbridge/core/command.py:36-43 | true exactly when the options are not None |
| Commands.Command.HasNested | src/mcpbridge/core/command.py:72-79 | true exactly when a nested command is present |
| Commands.Command.SetNested | src/mcpbridge/core/command.py:63-70 | the nested command becomes the given one; the name and the options stay as they were |
| Commands.Command.GetTail | src/mcpbridge/core/command.py:81-91 | the loop ends at the last node of the chain, the one node with no nested command |
| Commands.Command.ChainLength | src/mcpbridge/core/command.py:104-113 | the count of nodes from this command to the tail, at least 1 |
| Commands.Command.ToString | src/mcpbridge/core/command.py:115-124 | "Command(name)" for every node of the chain, in chain order, joined by " -> " |
| Commands.Labels | src/mcpbridge/core/command.py:122-124 | one label per node of the chain |
| Commands.OnlyTailEnds | src/mcpbridge/core/command.py:88-91 | in a chain, a node has no nested command exactly when it is the last one, so the tail loop cannot stop early |
| Commands.AppendAtTail | src/mcpbridge/core/command.py:63-113 | setting a fresh command as the tail's nested command gives a chain one node longer that ends in it, and the root's name is unchanged |
| LlmConfig.FromString | src/mcpbridge/llm/config.py:21-27 | the provider is matched case-insensitively against "openai" and "gemini"; any other text fails with the ValueError naming the value and the allowed providers |
| LlmConfig.FromStringValue | src/mcpbridge/llm/config.py:16-27 | each provider's own value converts back to that provider |
| LlmConfig.GetRequiredEnv | src/mcpbridge/llm/config.py:114-130 | fails exactly when the variable is unset or empty, with the "is not set" ValueError; otherwise gives the stripped value |
| LlmConfig.GetOptionalEnv | src/mcpbridge/llm/config.py:132-144 | the stripped value when the variable is set and non-empty, otherwise the default |
| LlmConfig.GetIntEnv | src/mcpbridge/llm/config.py:146-173 | the default when unset or empty; otherwise succeeds exactly when the stripped text parses as an integer (an optional sign, then digits, single underscores allowed between digits) at or above the minimum, and then gives that integer |
| LlmConfig.GetFloatEnv | src/mcpbridge/llm/config.py:175-199 | always a float setting, the default one when the variable is unset or empty |
| LlmConfig.Load | src/mcpbridge/llm/config.py:52-109 | a loaded configuration carries the provider parsed from MCPBRIDGE_LLM_PROVIDER, the key read from that provider's own variable, a base URL only for OpenAI, the model from MCPBRIDGE_LLM_MODEL with the provider's default, max_tokens as read from MCPBRIDGE_LLM_MAX_TOKENS (default 4096, at least 1), temperature and timeout as read from their variables (defaults "1.0" and "120.0"), and never sets tools_enabled or tool_converter; loading fails with the provider error, else the missing-key error, else the max-tokens error, in that order |
| LlmConfig.LoadDefaultsOpenAI | src/mcpbridge/llm/config.py:65-103 | with only an OpenAI key set, the configuration is OpenAI with the public base URL, model "gpt-4" and 4096 max tokens |
| LlmConfig.GeminiNeedsGeminiKey | src/mcpbridge/llm/config.py:69-73 | selecting Gemini without a Gemini key fails to load, whatever else is set |
| LlmConfig.MaskKey | src/mcpbridge/llm/config.py:221 | keys of at most 8 characters show as "***"; longer ones as their first 8 characters followed by "..." |
| LlmConfig.ConfigString | src/mcpbridge/llm/config.py:214-228 | the text opens with "LLMConfig(provider=", the provider's value, ", model=" and the model, contains "api_key=" followed by the masked key, and ends with ")" |
| Contexts.PromptOf | src/mcpbridge/core/context.py:58-70 | succeeds exactly when the options are a dictionary whose "prompt" value is truthy, and gives that value; a falsy prompt is the "Prompt is not set" ValueError, a missing key a KeyError |
| Contexts.Context.constructor | src/mcpbridge/core/context.py:30-38 | the context holds the given root command and prompt |
| Contexts.Context.GetRoot | src/mcpbridge/core/context.py:40-47 | returns the stored root command |
| Contexts.Context.SetRoot | src/mcpbridge/core/context.py:49-56 | the root becomes the given command; the prompt read at creation stays |
| Contexts.NewContext | src/mcpbridge/core/context.py:30-38 | a fresh context whose prompt is the root's prompt, or exactly the exception reading the prompt raises |
| Contexts.ContextManager.constructor | src/mcpbridge/core/context.py:5-7 | the manager holds the given context |
| Contexts.ContextManager.Run | src/mcpbridge/core/context.py:10-15 | the stdio handler runs exactly when the tail of the root's chain is the "stdio" command |
| Conversations.MessageRecord | src/mcpbridge/core/conversation.py:68-73 | the record made from a choice message is an assistant record, carrying its tool calls only when they are present and non-empty |
| Conversations.AssistantFrom | src/mcpbridge/core/conversation.py:67-73 | nothing is appended for a response that is not a dictionary with "choices"; a record is appended only for a non-empty "choices", and it is an assistant record whose tool calls, when kept, are non-empty |
| Conversations.AssistantFromCompletion | src/mcpbridge/core/conversation.py:67-71 | a response with one choice holding text and tool calls in dictionary form yields exactly the assistant record with that text and those calls |
| Conversations.AssistantFromMissingContent | src/mcpbridge/core/conversation.py:71 | a choice message without "content" raises KeyError('content') even when it has tool calls |
| Conversations.Conversation.constructor | src/mcpbridge/core/conversation.py:31-42 | the messages start with a system record exactly when a non-empty system prompt is given, and are empty otherwise |
| Conversations.Conversation.AddUserMessage | src/mcpbridge/core/conversation.py:44-54 | exactly one user record is appended |
| Conversations.Conversation.AddAssistantMessage | src/mcpbridge/core/conversation.py:56-73 | appends the record the response yields, or nothing; when building it raises, the exception is reported and the messages are unchanged |
| Conversations.Conversation.AddToolResult | src/mcpbridge/core/conversation.py:75-88 | exactly one tool result record with the given id, name and content is appended |
| Conversations.Conversation.GetMessages | src/mcpbridge/core/conversation.py:90-100 | one dictionary per record, in order, each starting with its role and holding no None value |
| Conversations.Conversation.Length | src/mcpbridge/core/conversation.py:102-109 | the length is the number of dictionaries the conversation sends |
| Conversations.Conversation.ToString | src/mcpbridge/core/conversation.py:111-118 | the text opens with "Conversation(session=" and the session id, closes with ")", and the number between ", " and ")" reads back as the number of messages |
| Conversations.Transcript | src/mcpbridge/core/conversation.py:31-88 | a system prompt, a user message, an assistant turn and a tool result are held in exactly that order, four records in all |
| LlmErrors.Lift | src/mcpbridge/llm/exceptions.py:14-42 | a plain Python failure passes through unchanged as the raised exception, and a value as the result |
| LlmErrors.DetailsOr | src/mcpbridge/llm/exceptions.py:36 | missing details become the empty dictionary; given details are kept |
| LlmErrors.BaseString | src/mcpbridge/llm/exceptions.py:38-42 | the message alone without details; with details, the message followed by " (details: " and a closing parenthesis |
| LlmErrors.ApiParts | src/mcpbridge/llm/exceptions.py:113-122 | the message first, then one part each for a truthy status code, error code and details, in that order and with those exact labels |
| LlmErrors.ToString | src/mcpbridge/llm/exceptions.py:38-42 | the API error family (API, rate limit, model and token limit errors) uses the API format; every other error the base format |
| LlmErrors.ApiStringBare | src/mcpbridge/llm/exceptions.py:111-126 | the API string is exactly the message when status code, error code and details are all falsy, and otherwise begins with the message and " (" |
| LlmErrors.ApiStringStatusOnly | src/mcpbridge/llm/exceptions.py:111-126 | with only a status code, the string is "message (status_code=N)" |
| GeminiClients.GeminiContent | src/mcpbridge/llm/gemini/client.py:138-141 | a message converts exactly when it is a dictionary, into its role ("user" by default) and one text part holding its content ("" by default) |
| GeminiClients.GeminiContents | src/mcpbridge/llm/gemini/client.py:120-144 | a string becomes one user content; a list converts message by message; anything else gives no contents |
| GeminiClients.GeminiContentsOfRecords | src/mcpbridge/llm/gemini/client.py:137-141 | a list of dictionaries gives one content per message, in order, each keeping the message's role |
| GeminiClients.GenerationConfigDefaults | src/mcpbridge/llm/gemini/client.py:206-211 | without call overrides or extra arguments the settings are exactly temperature and maxOutputTokens from the configuration, topK 40 and topP 0.95, in that order |
| GeminiClients.GeminiErrorBody | src/mcpbridge/llm/gemini/client.py:278-285 | an undecodable body becomes {"raw_response": text} with the "API request failed with status N" message; a decoded body is kept as the details; a decoded non-dictionary raises AttributeError |
| GeminiClients.GeminiClassify | src/mcpbridge/llm/gemini/client.py:289-298 | 401 is an authentication error, 429 a rate limit error, 404 a model error naming the model, a message mentioning "quota" or "limit" in any case a resource-limit error, anything else an API error with the message; all carry the details and none the status |
| GeminiClients.QuotaIsResourceLimit | src/mcpbridge/llm/gemini/client.py:280-296 | any server message containing "quota", for a status other than 401, 404 and 429, becomes "Resource limits exceeded" carrying the decoded body |
| GeminiClients.GeminiReply | src/mcpbridge/llm/gemini/client.py:226-261 | the call returns exactly when the status is 200 and the body decodes, and then returns the decoded body; an undecodable 200 body, a client failure, a timeout and an error status each raise their own error |
| GeminiClients.PreparedTool | src/mcpbridge/llm/gemini/client.py:146-165 | no tool for falsy tools or without a converter; otherwise a tool exactly when every definition converts, holding the converted declarations; a failed conversion is swallowed as no tool |
| GeminiClients.GeminiClient.constructor | src/mcpbridge/llm/gemini/client.py:52-75 | the client holds the configuration, the session id and the converter, with no HTTP session open |
| GeminiClients.GeminiClient.EnsureSession | src/mcpbridge/llm/gemini/client.py:77-103 | afterwards an HTTP session is open |
| GeminiClients.GeminiClient.Close | src/mcpbridge/llm/gemini/client.py:114-118 | afterwards no HTTP session is open |
| GeminiClients.GeminiClient.PrepareTools | src/mcpbridge/llm/gemini/client.py:146-165 | the tool sent is the one PreparedTool describes |
| GeminiClients.GeminiClient.ChatCompletion | src/mcpbridge/llm/gemini/client.py:167-261 | the session is open afterwards; the request goes to the configured model's generateContent URL with the converted contents, the generation settings and the prepared tool, and the outcome is the reply's outcome; contents that fail to convert raise before anything is sent |
| GeminiClients.GeminiClient.ChatCompletionAsWritten | src/mcpbridge/llm/gemini/client.py:199-261 | as written: the session is open afterwards; contents that fail to convert raise; a prepared tool makes the debug line's json.dumps raise TypeError before anything is sent; without a tool the request is posted as in the intended call |
| GeminiClients.NewGeminiClientAsWritten | src/mcpbridge/llm/gemini/client.py:71 | constructing the client always raises TypeError, because the base initialiser takes two arguments and is given three |
| GeminiClients.NewGeminiClient | src/mcpbridge/llm/base.py:29-38 | the intended client keeps the configuration and a converter, with the session id defaulting to "unknown" and no session open |
| GeminiParser.NeedToolsCall | src/mcpbridge/llm/gemini/parser.py:72-93 | false for a response that is not a dictionary with "predictions"; true exactly when the first prediction is a dictionary with truthy "toolCalls"; reading the first prediction raises what indexing raises |
| GeminiParser.NeedToolsCallEmptyPredictions | src/mcpbridge/llm/gemini/parser.py:82-85 | an empty "predictions" list is not guarded and raises IndexError |
| GeminiParser.DecodeArguments | src/mcpbridge/llm/gemini/parser.py:148-151 | decodable arguments are decoded; undecodable ones are kept as {"raw_arguments": text} |
| GeminiParser.ConvertToolsFormat | src/mcpbridge/llm/gemini/parser.py:129-162 | a falsy or malformed call becomes {}; otherwise exactly the keys id (default "unknown"), name and the decoded arguments, in that order |
| GeminiParser.ConvertDefaultArguments | src/mcpbridge/llm/gemini/parser.py:145 | a call without "arguments" gets the decoding of "{}" |
| GeminiParser.PrepareToolsCall | src/mcpbridge/llm/gemini/parser.py:95-127 | no calls unless tool calls are needed; then one converted entry per tool call, in order, malformed ones as {}; a non-iterable "toolCalls" gives no calls; an error of the need check propagates |
| GeminiParser.Parse | src/mcpbridge/llm/gemini/parser.py:27-70 | the result is non-empty exactly when the first prediction is a dictionary without "toolCalls", and then is one choice with its content (default "") and finish reason (default "stop") |
| GeminiParser.ParseSingleChoice | src/mcpbridge/llm/gemini/parser.py:48-56 | a non-empty parse has exactly one choice, whose message has role "assistant" |
| GeminiParser.ParseDropsToolCalls | src/mcpbridge/llm/gemini/parser.py:59-70 | whenever tool calls are needed, parse gives {} because the tool-call converter it calls does not exist and the error is swallowed |
| LlmExecutors.ToolsToSend | src/mcpbridge/core/llm_executor.py:128-129 | tools are sent exactly when tools are enabled and the given tools are truthy, and then they are the given tools |
| LlmExecutors.LoggedResponse | src/mcpbridge/core/llm_executor.py:137-150 | the response is passed back unchanged when no tools were sent; when tools were sent it is passed back unless testing it for "tool_calls" raises, which turns it into None |
| LlmExecutors.Completed | src/mcpbridge/core/llm_executor.py:123-158 | any exception raised by the client becomes None; without tools the client's response is returned as it is |
| LlmExecutors.OpenAiAnswerIsReply | src/mcpbridge/core/llm_executor.py:123-158 | an OpenAI completion is something other than None only when the server answered 200 with JSON, and then it is that JSON; a JSON dictionary answered with 200 is always returned |
| LlmExecutors.GeminiAnswerIsReply | src/mcpbridge/core/llm_executor.py:123-158 | the same two facts for a Gemini client |
| LlmExecutors.CompletedDone | src/mcpbridge/core/llm_executor.py:137-158 | a result other than None is the client's own response, and a dictionary response is never dropped |
| LlmExecutors.LLMExecutor.constructor | src/mcpbridge/core/llm_executor.py:36-44 | the executor holds the session id and starts without a client |
| LlmExecutors.LLMExecutor.InitializeClientAsWritten | src/mcpbridge/core/llm_executor.py:46-86 | an existing client is kept; otherwise the configuration's ValueError escapes, and a loaded configuration raises AttributeError on tool_converter, so no client is ever set |
| LlmExecutors.LLMExecutor.CreateClient | src/mcpbridge/core/llm_executor.py:65-76 | the provider's client is created fresh with the configuration and the session id; an OpenAI configuration without a base URL leaves no client, its configuration error being caught |
| LlmExecutors.LLMExecutor.InitializeClient | src/mcpbridge/core/llm_executor.py:46-86 | the corrected lazy initialisation keeps an existing client, lets the configuration's ValueError escape with no client set, and otherwise sets the client CreateClient makes |
| LlmExecutors.LLMExecutor.Complete | src/mcpbridge/core/llm_executor.py:128-150 | the client is sent the conversation's messages and the tools to send; the result is what the provider's client answers after the exception handling |
| LlmExecutors.LLMExecutor.GetCompletion | src/mcpbridge/core/llm_executor.py:88-158 | as written, the call raises exactly when there is no client yet (the configuration error or the missing tool_converter), and otherwise always returns None because tools_enabled is missing |
| LlmExecutors.LLMExecutor.GetCompletionFixed | src/mcpbridge/core/llm_executor.py:88-158 | the corrected call raises exactly when initialisation fails on the configuration; without a client or a second configuration it returns None; otherwise it sends the messages and the tools to send and returns the provider's answer |
| LlmExecutors.LLMExecutor.Close | src/mcpbridge/core/llm_executor.py:160-169 | a present client is closed exactly once and its HTTP session is closed; without a client nothing happens |
| LlmExecutors.LLMExecutor.Exit | src/mcpbridge/core/llm_executor.py:180-191 | leaving the context closes the client, as close does |
| McpServer.ToolEntry | src/mcpbridge/cli/commands/mcpserver.py:109-110 | a tool option gives a dictionary exactly when it splits into three words |
| McpServer.Unpack | src/mcpbridge/cli/commands/mcpserver.py:109-110 | three words become the dictionary with keys name, command and path, in that order; any other count raises ValueError |
| McpServer.ToolEntryWords | src/mcpbridge/cli/commands/mcpserver.py:109-110 | an option written as three space-free words separated by single spaces gives back exactly those words as name, command and path |
| McpServer.JoinThree | src/mcpbridge/cli/commands/mcpserver.py:101 | three words joined by single spaces are the option text "name command path" |
| McpServer.ToolEntries | src/mcpbridge/cli/commands/mcpserver.py:107-110 | one dictionary per option, in option order, each the option's own entry |
| McpServer.ToolEntriesOutcome | src/mcpbridge/cli/commands/mcpserver.py:107-110 | the list is built exactly when every option has three words; a failure is the error of the first option that does not |
| McpServer.ParseToolOptions | src/mcpbridge/cli/commands/mcpserver.py:107-110 | the loop builds exactly the list ToolEntries describes, stopping at the first bad option |
| McpServer.Stdio | src/mcpbridge/cli/commands/mcpserver.py:72-123 | a missing or empty tool list exits with code 1 and a bad option raises, both leaving the chain alone; a non-context object raises AttributeError; otherwise a fresh "stdio" command holding the tools is appended at the chain's tail and the context manager dispatches on it |
| McpServer.McpServ | src/mcpbridge/cli/commands/mcpserver.py:37-69 | nothing happens without a context object; another object raises AttributeError; otherwise a fresh "mcpserver" command without options becomes the root's nested command, replacing what followed the root, while the root's name and options stay as they were |
| Messages.DumpToolCalls | src/mcpbridge/core/message_models.py:30-45 | one dictionary per tool call |
| Messages.Dump | src/mcpbridge/core/message_models.py:48-112 | a record's dictionary form starts with its fixed role, holds no None value and no repeated key, and an assistant record has "content" and "tool_calls" exactly when it has text and tool calls |
| Messages.StrField | src/mcpbridge/core/message_models.py:26-27 | a required string field validates exactly when it is present and a string, and then gives that string; otherwise a validation error |
| Messages.ParseFunctionCall | src/mcpbridge/core/message_models.py:14-27 | a function call validates exactly when the value is a dictionary with string "name" and "arguments", and then holds those two strings |
| Messages.ParseToolCall | src/mcpbridge/core/message_models.py:30-45 | a validated tool call has the value's string id, a "type" that is "function" when given, and the validated "function" |
| Messages.ParseToolCallFunction | src/mcpbridge/core/message_models.py:45 | the "function" field is required and the tool call holds it validated |
| Messages.ParseToolCalls | src/mcpbridge/core/message_models.py:94 | a validated list has one tool call per item; a failure is a validation error |
| Messages.ParseToolCallsItems | src/mcpbridge/core/message_models.py:94 | a list validates exactly when every item does, and then item i of the result is item i validated |
| Messages.ParseOptionalText | src/mcpbridge/core/message_models.py:93 | None gives no text, a string gives that text, anything else a validation error |
| Messages.MakeAssistant | src/mcpbridge/core/message_models.py:79-94 | a built assistant record carries the validated content, and tool calls exactly when a non-None tool call list was passed, validated item by item |
| Messages.ParseDumpToolCall | src/mcpbridge/core/message_models.py:30-45 | validating a tool call's dictionary form gives the tool call back |
| Messages.ParseDumpToolCalls | src/mcpbridge/core/message_models.py:94 | validating the dictionary form of a tool call list gives the list back |
| Messages.MakeAssistantDump | src/mcpbridge/core/message_models.py:79-94 | validating an assistant record's dumped content and tool calls rebuilds the record |
| OpenAiClients.OpenAiToolEntry | src/mcpbridge/llm/openai/client.py:110-117 | a tool converts exactly when it is a dictionary with "name", "description" and "inputSchema" |
| OpenAiClients.OpenAiToolEntryFields | src/mcpbridge/llm/openai/client.py:110-117 | the entry is a "function" tool carrying the tool's name and description and its input schema as the parameters |
| OpenAiClients.ConvertedTools | src/mcpbridge/llm/openai/client.py:95-121 | falsy tools give []; a converted list has one entry per tool, in order, each the tool's own entry |
| OpenAiClients.ConvertedToolsOk | src/mcpbridge/llm/openai/client.py:105-118 | a list of tools converts exactly when every tool does |
| OpenAiClients.ConvertedToolsListing | src/mcpbridge/llm/openai/client.py:109-113 | a {"tools": [...]} listing is iterated over its keys, and indexing the key string raises TypeError |
| OpenAiClients.BaseFieldsLookup | src/mcpbridge/llm/openai/client.py:162-167 | the four fixed payload keys read as model, messages, temperature and max_tokens, and no other key is present |
| OpenAiClients.WithToolsLookup | src/mcpbridge/llm/openai/client.py:170-171 | "tools" is added only for a non-empty converted list; every other key reads as before |
| OpenAiClients.DefaultsLookup | src/mcpbridge/llm/openai/client.py:157-171 | before the keyword arguments, each payload key has its default: the call's argument or the configured value, and the converted tools when non-empty |
| OpenAiClients.PayloadFields | src/mcpbridge/llm/openai/client.py:157-174 | every payload key reads from the keyword arguments when they set it and otherwise has its default, so "tools" is present exactly for a non-empty converted list or a tools keyword |
| OpenAiClients.ErrorBody | src/mcpbridge/llm/openai/client.py:234-249 | an undecodable body gives {"raw_response": text}, the default "API request failed with status N" message and no code; a dictionary without "error" is kept with the default message; a decoded body is always the error data |
| OpenAiClients.ClassifyAsWritten | src/mcpbridge/llm/openai/client.py:257-263 | as written, a 401 raises TypeError, because the authentication error does not accept status_code and error_code; every other status is mapped as intended |
| OpenAiClients.Classify | src/mcpbridge/llm/openai/client.py:256-301 | 401 authentication, 429 rate limit with the retry-after value, 404 unknown model, the "context_length_exceeded" code or a message mentioning "token" a token-limit error, anything else an API error with the message; API errors carry the status and the code, all carry the details |
| OpenAiClients.HandleErrorSessionId | src/mcpbridge/llm/openai/client.py:253-254 | every LLM error raised for an error response carries the session id in its details |
| OpenAiClients.HandleErrorRawBody | src/mcpbridge/llm/openai/client.py:241-301 | a body that is not JSON, for a status without its own mapping, gives an API error with the default message and the raw text and session id as details |
| OpenAiClients.Reply | src/mcpbridge/llm/openai/client.py:179-217 | the call returns exactly when the status is 200 and the body decodes, and then returns the decoded body; an undecodable 200 body, a client failure and a timeout raise their own errors with the session id |
| OpenAiClients.ReplyErrorsNameSession | src/mcpbridge/llm/openai/client.py:179-301 | every LLM error the call raises names the session in its details |
| OpenAiClients.OpenAIClient.constructor | src/mcpbridge/llm/openai/client.py:50-62 | the client holds the configuration and the session id, with no HTTP session open |
| OpenAiClients.OpenAIClient.EnsureSession | src/mcpbridge/llm/openai/client.py:74-87 | afterwards an HTTP session is open |
| OpenAiClients.OpenAIClient.Close | src/mcpbridge/llm/openai/client.py:89-93 | afterwards no HTTP session is open |
| OpenAiClients.OpenAIClient.ConvertMcpTools | src/mcpbridge/llm/openai/client.py:95-121 | the loop builds exactly the list ConvertedTools describes, or raises its first lookup error |
| OpenAiClients.OpenAIClient.ChatCompletion | src/mcpbridge/llm/openai/client.py:123-217 | the session is open afterwards; tools that fail to convert raise before anything is sent; otherwise the payload goes to base_url + "/chat/completions" and the outcome is the reply's outcome |
| OpenAiClients.NewOpenAIClient | src/mcpbridge/llm/openai/client.py:50-63 | construction fails exactly when the base URL is missing or empty, with the configuration error; otherwise a fresh client whose session id defaults to "unknown" |
| PromptBuilders.NormalizePlain | src/mcpbridge/prompt/builder.py:53-61 | a template without doubled braces and without the {user_prompt} placeholder is decoded as it is |
| PromptBuilders.SystemContent | src/mcpbridge/prompt/builder.py:70-80 | the content of the template's first message (default "") when that message is a dictionary with role "system"; "" in every other case, a non-dictionary template included |
| PromptBuilders.BuildInitialPrompt | src/mcpbridge/prompt/builder.py:37-90 | fails exactly when the normalised template is not JSON, with the ValueError naming the template; otherwise the two-message prompt with the template's system content and the user's prompt |
| PromptBuilders.PromptPayloadContents | src/mcpbridge/prompt/builder.py:83-88 | the prompt holds exactly two messages, the system one with the system content and then the user one with the user's prompt |
| PromptBuilders.SystemMessageTemplate | src/mcpbridge/prompt/builder.py:73-77 | a template whose first message is a system message with a content yields that content |
| PromptBuilders.NonSystemFirstMessage | src/mcpbridge/prompt/builder.py:76 | a template whose first message is not a system message yields "" |
| ResultParser.ValidateResultStructure | src/mcpbridge/client/result_parser.py:239-282 | accepts exactly a dictionary with "isError", whose "content", when present, is a list of dictionaries that each have "type", and whose "structuredContent", when present, is a dictionary or null |
| ResultParser.TextPart | src/mcpbridge/client/result_parser.py:148-151 | an item contributes one part exactly when it is a dictionary of type "text" with a truthy "text" |
| ResultParser.TextParts | src/mcpbridge/client/result_parser.py:145-151 | no more parts than items |
| ResultParser.StructuredContent | src/mcpbridge/client/result_parser.py:155-172 | the "structuredContent" dictionary when there is one, {} when it is absent, null or not a dictionary |
| ResultParser.ItemMeta | src/mcpbridge/client/result_parser.py:195-200 | an item's metadata holds only non-null "_meta" and "annotations", each at most once, and is empty exactly when the item has neither |
| ResultParser.ItemMetaValues | src/mcpbridge/client/result_parser.py:196-200 | an item's metadata maps "_meta" and "annotations" to the item's own values exactly when those are non-null |
| ResultParser.ContentMetadata | src/mcpbridge/client/result_parser.py:191-202 | at most one non-empty metadata dictionary per item |
| ResultParser.TextSummary | src/mcpbridge/client/result_parser.py:224-228 | the summary starts with "Tool executed successfully: " and keeps the whole text up to 100 characters, otherwise its first 97 characters followed by "..." |
| ResultParser.TextPartsAppend | src/mcpbridge/client/result_parser.py:147-153 | the text parts of two item lists in sequence are their parts in sequence, so the text follows the order of the content |
| ResultParser.TextPartsNone | src/mcpbridge/client/result_parser.py:147-153 | without a text item holding truthy text, the text content is empty |
| ResultParser.TextPartsSingle | src/mcpbridge/client/result_parser.py:148-151 | a text item with truthy text contributes exactly the str of that text |
| ResultParser.ContentMetadataAppend | src/mcpbridge/client/result_parser.py:194-202 | the content metadata of two item lists in sequence is their metadata in sequence |
| ResultParser.MetadataKeys | src/mcpbridge/client/result_parser.py:184-207 | "tool_meta" is present exactly when the top-level "_meta" is non-null, "content_metadata" exactly when some item has metadata, and every key of the result is one of those two |
| ResultParser.ValidContentIterable | src/mcpbridge/client/result_parser.py:261-274 | a validated result's content is always iterable: its list, or nothing when absent |
| ResultParser.ExtractTextContent | src/mcpbridge/client/result_parser.py:134-153 | the loop gives the texts of the text items joined by single spaces, or raises when the content is not iterable |
| ResultParser.BuildItemMeta | src/mcpbridge/client/result_parser.py:196-200 | the loop body builds exactly the item's metadata dictionary |
| ResultParser.CollectContentMetadata | src/mcpbridge/client/result_parser.py:192-202 | the loop builds exactly the content metadata list |
| ResultParser.ExtractMetadata | src/mcpbridge/client/result_parser.py:174-207 | the top-level metadata, then the content metadata when there is any, as the extractor describes |
| ResultParser.ExtractErrorInfo | src/mcpbridge/client/result_parser.py:102-132 | the message is the text content when non-empty, otherwise "Tool execution failed"; type and details come from non-empty structured data, defaulting to "unknown" and "" |
| ResultParser.GetResultSummary | src/mcpbridge/client/result_parser.py:209-237 | a failed tool gives "Tool execution failed"; otherwise the text summary, else the structured "result", else the count of data fields, else "Tool executed successfully" |
| ResultParser.NormalizesUnique | src/mcpbridge/client/result_parser.py:33-88 | the normalised form of a result is unique: the field-by-field description of `parse` fixes every field |
| ResultParser.Parse | src/mcpbridge/client/result_parser.py:33-88 | raises "Invalid tool result structure" exactly for an invalid structure; otherwise success is the negated truthiness of "isError", error information is present exactly on failure, and text, structured data and metadata are the extractors' results; the summary is "Tool execution failed" on failure, the text summary when there is text, and otherwise names the "result" value, counts the data fields, or says "Tool executed successfully"; the error information carries the text (or "Tool execution failed") and the structured data's error_type and details, defaulting to "unknown" and "" |
| Sessions.ReplyAt | src/mcpbridge/core/session.py:130 | once the script is exhausted every further completion answers null (a falsy response) |
| Sessions.AsText | src/mcpbridge/core/session.py:125-126 | message content is accepted exactly when it is a string, and otherwise the record's validation error names the field |
| Sessions.SystemPromptOf | src/mcpbridge/core/session.py:125 | a falsy system content means no system prompt, a truthy string is a non-empty system prompt, anything else is a validation error |
| Sessions.Seed | src/mcpbridge/core/session.py:125-126 | the conversation starts as the system record (only when the system content is truthy) followed by the user record, and fails exactly when either content is invalid |
| Sessions.ToolResultMessage | src/mcpbridge/core/session.py:145-151 | a failed lookup of name, arguments or id propagates; a record made is a tool result carrying the call's own id and name and, as content, the text_content of the server's result for that call |
| Sessions.ToolResults | src/mcpbridge/core/session.py:145-151 | a turn appends at most one record per call, and one record per call when no call raised |
| Sessions.ToolResultsNext | src/mcpbridge/core/session.py:145-151 | a turn that has not failed extends by exactly the next call's record, or stops with that call's exception |
| Sessions.ToolResultsStop | src/mcpbridge/core/session.py:145-151 | once a call raises, later calls of the turn are not made and the turn's outcome is fixed |
| Sessions.ToolResultsAdvance | src/mcpbridge/core/session.py:145-151 | the executing loop's step: a record extends the turn, an exception ends the whole turn with the records before it |
| Sessions.SingleCallTurn | src/mcpbridge/core/session.py:145-151 | a turn with one call appends exactly that call's record |
| Sessions.LoopStep | src/mcpbridge/core/session.py:140-160 | one pass only appends to the conversation and to the requests, each new request carries the tool catalog, a continuing pass consumed the next truthy reply, and a response that needs no tools ends the loop unchanged |
| Sessions.LoopExtends | src/mcpbridge/core/session.py:140-160 | the whole loop only appends: the conversation and the request list it starts from are prefixes of what it ends with |
| Sessions.LoopSendsCatalog | src/mcpbridge/core/session.py:140-160 | every completion request the loop makes sends the same tool catalog |
| Sessions.ConverseSendsCatalog | src/mcpbridge/core/session.py:120-160 | the catalog is fetched once and every completion request of the session sends it |
| Sessions.ConverseSeeded | src/mcpbridge/core/session.py:120-160 | when the prompt builds, the conversation starts with the seed and the first request is the seed with the catalog |
| Sessions.ConverseEntersLoop | src/mcpbridge/core/session.py:130-140 | a truthy first completion that yields an assistant record starts the loop on the seed plus that record |
| Sessions.FalsyFirstReply | src/mcpbridge/core/session.py:130-133 | a falsy first completion aborts the session after one request, with the seed as the whole conversation and no error |
| Sessions.ScriptWithoutTools | src/mcpbridge/core/session.py:120-140 | a first answer asking for no tool gives one request and the conversation system, user, assistant |
| Sessions.OneCallThenAnswer | src/mcpbridge/core/session.py:140-160 | one tool call followed by a final answer appends the tool record, sends one more request, appends the answer and ends the loop |
| Sessions.ScriptWithOneToolCall | src/mcpbridge/core/session.py:120-160 | a session with one tool call and then a final answer makes two requests and ends with seed, assistant, tool, assistant |
| Sessions.Session.constructor | src/mcpbridge/core/session.py:52-68 | the session keeps its id, the context's prompt and both executors |
| Sessions.Session.ToolRecord | src/mcpbridge/core/session.py:146-151 | executing one call (lookups, the server call, normalisation, the record) yields the record the turn model predicts |
| Sessions.Session.ExecuteToolCalls | src/mcpbridge/core/session.py:145-151 | the conversation gains exactly the turn's records in call order, and the exception returned is the one that stopped the turn |
| Sessions.Session.RunConversationLoop | src/mcpbridge/core/session.py:99-161 | the imperative loop produces exactly the run the conversation model defines: the same records, the same requests and the same ending |
| Sessions.Session.Start | src/mcpbridge/core/session.py:70-97 | the run of the conversation loop, with the LLM executor closed exactly once on the way out when it has a client |
| Sessions.NewSession | src/mcpbridge/core/session.py:52-68 | a fresh session with a fresh, unconnected LLM executor for the id, or the exception building the tool executor raises |
| ToolExecutors.ClientFor | src/mcpbridge/core/tool_executor.py:39-44 | the client is built exactly when the context has an mcp_server with stdio command and path, from that command and the path's string form; no mcp_server is an attribute error |
| ToolExecutors.ToolRequest | src/mcpbridge/core/tool_executor.py:89-91 | the lookups succeed exactly when the call is a dictionary with name, arguments and id, and give those three values; a missing name is a KeyError naming it |
| ToolExecutors.ToolExecutor.constructor | src/mcpbridge/core/tool_executor.py:31-44 | the executor keeps its stdio client |
| ToolExecutors.ToolExecutor.GetToolsDefinition | src/mcpbridge/core/tool_executor.py:46-63 | the definitions are the server's listing for this client |
| ToolExecutors.ToolExecutor.CallTool | src/mcpbridge/core/tool_executor.py:65-98 | as written every call raises: a lookup error, or the attribute error for the client's missing call_tool |
| ToolExecutors.ToolExecutor.CallToolFixed | src/mcpbridge/core/tool_executor.py:65-98 | a lookup error propagates; otherwise the server's result for the named tool and arguments fails exactly when its structure is invalid, and a success is the whole normalised result `parse` gives for it (text content, negated error flag, structured data, metadata, summary and error information) |
| ToolExecutors.NewToolExecutor | src/mcpbridge/core/tool_executor.py:31-44 | a fresh executor with the client read from the context, or the error reading it |
| ToolsBase.FirstMissing | src/mcpbridge/llm/tools/base.py:110-115 | on a dictionary the check names the first required field that is absent, and finds none exactly when every field is present |
| ToolsBase.CheckNonEmptyString | src/mcpbridge/llm/tools/base.py:117-129 | a present name or description passes exactly when it is a string that stripping does not empty |
| ToolsBase.CheckProperties | src/mcpbridge/llm/tools/base.py:187-199 | the properties pass exactly when every property schema is a dictionary declaring one of the six supported types; its errors carry the wrapped parameters |
| ToolsBase.ValidateParameters | src/mcpbridge/llm/tools/base.py:145-201 | a parameters schema passes exactly when it is a dictionary with type "object" and a properties dictionary of valid property schemas; every error carries {"parameters": params} as its tool |
| ToolsBase.ValidateToolChecks | src/mcpbridge/llm/tools/base.py:108-134 | the checks pass exactly for a valid tool: a dictionary with non-blank string name and description and valid parameters |
| ToolsBase.ValidateTool | src/mcpbridge/llm/tools/base.py:95-143 | returns True exactly for a valid tool, and otherwise raises a ToolValidationError |
| ToolsBase.MissingFieldNamed | src/mcpbridge/llm/tools/base.py:110-115 | fields are checked in the order name, description, parameters, and the error names the first missing one |
| ToolsBase.ValidateNonContainer | src/mcpbridge/llm/tools/base.py:136-143 | a tool that is not a container makes the membership test raise a TypeError, which comes back as an "Unexpected error during tool validation" with its type name in the details |
| ToolsBase.NonContainerChecks | src/mcpbridge/llm/tools/base.py:110-111 | the first membership test on a non-container raises "argument of type ... is not iterable" |
| ToolsBase.ConvertParameters | src/mcpbridge/llm/tools/base.py:203-216 | the base conversion is a copy equal to its input |
| ToolsBase.HandleConversionError | src/mcpbridge/llm/tools/base.py:218-239 | a ToolValidationError is re-raised unchanged; any other exception is wrapped with its message, the tool and its type name |
| ToolsBase.ParametersOf | src/mcpbridge/llm/tools/base.py:216 | the parameters copied into a converted tool are the valid tool's own parameters |
| ToolsBase.ConvertEachAccepted | src/mcpbridge/llm/tools/base.py:218-239 | the converters' loop succeeds exactly when the check accepts every tool |
| ToolsBase.ConvertAllValid | src/mcpbridge/llm/tools/base.py:95-143 | conversion succeeds exactly when every tool is valid |
| ToolsBase.ConvertAllEntries | src/mcpbridge/llm/tools/base.py:203-216 | a successful conversion has one entry per tool, in input order |
| ToolsBase.ConvertAllRejectedPrefix | src/mcpbridge/llm/tools/base.py:218-239 | once a prefix of the tools is rejected the whole list is rejected with the same error: no partial list is returned |
| ToolsBase.RejectedAt | src/mcpbridge/llm/tools/base.py:218-239 | a tool rejected after an accepted prefix decides the error raised |
| ToolsBase.ConvertAllFirstInvalid | src/mcpbridge/llm/tools/base.py:95-143 | the first invalid tool's validation error is the error the conversion raises |
| GeminiTools.ConvertParameters | src/mcpbridge/llm/tools/gemini.py:62-85 | the Gemini parameter conversion returns the base copy unchanged, succeeds for valid parameters, and can only fail when properties are not a dictionary |
| GeminiTools.DeclarationFields | src/mcpbridge/llm/tools/gemini.py:47-51 | a function declaration copies the tool's name, description and parameters |
| GeminiTools.ConvertTools | src/mcpbridge/llm/tools/gemini.py:26-60 | one declaration per tool in order wrapped in a single Tool, or the conversion error of the first invalid tool and no Tool |
| OpenAiTools.OpenAiToolFields | src/mcpbridge/llm/tools/openai.py:46-53 | an entry has type "function" and a function part copying the tool's name, description and parameters unchanged |
| OpenAiTools.ConvertTools | src/mcpbridge/llm/tools/openai.py:25-62 | the loop yields exactly the converters' result: one entry per tool in order, or the first invalid tool's error |
| OpenAiTools.ConvertNoTools | src/mcpbridge/llm/tools/openai.py:38-62 | converting no tools gives no entries |
| Text.Strip | src/mcpbridge/llm/config.py:130 | a stripped value neither starts nor ends with whitespace (the characters Python's `str.isspace` accepts) |
| Text.StripEmptyIffBlank | src/mcpbridge/llm/tools/base.py:118 | stripping empties a string exactly when the string is all whitespace |
| Text.Lower | src/mcpbridge/llm/config.py:25 | lower-casing keeps the length and lower-cases each character in place |
| Text.ParseIntToString | src/mcpbridge/llm/config.py:166 | int() reads back every integer from its decimal text |
| Text.ParseIntGrouped | src/mcpbridge/llm/config.py:166 | int() accepts underscores between digits: "1_000" reads as 1000 |
| Text.ParseIntMisplacedUnderscore | src/mcpbridge/llm/config.py:166 | int() rejects doubled, leading and trailing underscores |

## Left out

- Input and output are not modelled: logging, `typer.echo`, and the `log_json` dumps. The log line at `src/mcpbridge/core/llm_executor.py:80-83` is left out; it is reached only after a client has been built.
- The aiohttp session is a flag (open or closed). Requests are a `post` parameter that returns a response, a client failure or a timeout. `ensure_session`'s wrapping of session-creation errors is left out, because that depends on aiohttp internals.
- Environment variables are a map parameter. `uuid.uuid4()` is not modelled: the session id is a parameter.
- Template files are not read: `_load_template` is left out and the template is given as text. `json.loads` is a `loads` parameter returning a value or a decode error. `json.dumps` and `repr` are modelled only as far as the messages built from them need.
- LlmConfig.GetFloatEnv: a float setting is carried as its stripped text. Python's float parse and the minimum and maximum checks are not modelled, so the invalid-float and out-of-range ValueErrors are missing; floating point is outside this model.
- Floating-point numbers are opaque text elsewhere as well. `float()` on the `retry-after` header of a 429 reply is a `floatOf` parameter.
- LLM answers are scripted: each completion request is answered by the next reply of a given list, and by null once the list is exhausted. The session loop therefore does not call `LLMExecutor.get_completion`; that method is modelled on its own in `LlmExecutors`.
- `session.py` imports `OpenAIParser` from `llm/openai/parser.py`, which defines only `LLMResponseParser`. The loop's `need_tools_call` and `prepare_tools_call` are therefore parameters, and they cannot raise in the model.
- The context never has an `mcp_server` attribute, so building a `ToolExecutor` (and therefore a `Session`) from the bridge's own context raises AttributeError. `ToolExecutors.ClientFor` takes that attribute as an optional parameter so that both outcomes can be stated.
- `StdioClient.get_tools` and the MCP protocol itself are a `listTools` parameter. The server's answer to a tool call is a `callTool` parameter.
- Multi-server catalogs, namespacing and routing are not modelled, because the code implements a single server.
- The abstract methods of `BaseLLMClient` and `IToolConverter` are not modelled: they have no behaviour to model.
- `print_command_chain` is not modelled; it only prints. `get_cmd`, `get_options` and `get_nested_command` are not modelled either; they are plain field reads that the class's fields expose directly.
- The google `Tool` type is modelled as a wrapper around its list of function declarations. It is not JSON serialisable, which is why the as-written Gemini call raises (see Findings); the intended call carries it in the request.
- Sessions.Session.ToolRecord: the session runs the corrected tool call (`ToolExecutors.ToolExecutor.CallToolFixed`); as written every tool call raises, with a lookup error or with AttributeError for the client's missing `call_tool` (see Findings), and `session.py` itself fails at import because `OpenAIParser` is not defined.
- Text.Lower: only ASCII letters are lower-cased. Python's full Unicode case mapping, in which for instance "İ" lowers to two characters, is not modelled; the provider names it is applied to are ASCII.
- Text.ParseInt: only ASCII digits (with underscore groups and an optional sign) are read. LlmConfig.GetIntEnv inherits this: the other Unicode decimal digits that `int()` accepts, such as Arabic-Indic digits, are not modelled.
- Messages.ParseFunctionCall: pydantic reports every invalid field of a record, but the model reports the first one in field order.
- Sessions.AsText: the same holds for the session's records: where several fields of a `Message` are invalid, `Seed` and `ToolResultMessage` report only the first field checked, not pydantic's full list.
- GeminiParser.Parse: `_convert_tool_calls_to_mcp` is not defined in the source. A response with function calls therefore gives `{}`, because the AttributeError is caught; the model returns `{}` for that case.
- Concurrency (`async`/`await`) is not modelled: calls run sequentially, as they do in the source.

## Findings

| source | as written | input that shows it | evidently intended | confidence | as-written member | corrected member |
|---|---|---|---|---|---|---|
| src/mcpbridge/core/tool_executor.py:94-98 | `call_tool` calls `self._client.call_tool(...)`, but `StdioClient` defines no `call_tool`; it then calls `parser.parse(tool_id, raw_result)`, but `parse` takes one argument | any tool call with `name`, `arguments` and `id`, e.g. `{"name": "t", "arguments": {}, "id": "1"}` | ask the server to run the tool, then normalise the raw result | not executed | ToolExecutors.ToolExecutor.CallTool | ToolExecutors.ToolExecutor.CallToolFixed |
| src/mcpbridge/llm/openai/client.py:256-262 | a 401 reply raises `LLMAuthenticationError(..., status_code=..., error_code=...)`, but that class takes only a message and details | an HTTP 401 reply from the API | raise the authentication error with the reply's details | not executed | OpenAiClients.ClassifyAsWritten | OpenAiClients.Classify |
| src/mcpbridge/llm/gemini/client.py:214-224 | when tools convert, `request_data["tools"]` holds a google `Tool`, and the debug line formats `json.dumps(request_data)` before the request is sent, which raises TypeError ("Object of type Tool is not JSON serializable") | `chat_completion` with a non-empty list of valid tools on a client with a converter | send the request with the tool declarations | not executed | GeminiClients.GeminiClient.ChatCompletionAsWritten | GeminiClients.GeminiClient.ChatCompletion |
| src/mcpbridge/llm/gemini/client.py:71 | `super().__init__(config, tool_converter, session_id)` passes three arguments to the two-parameter base initialiser, which raises TypeError | any `GeminiClient(config)` | initialise the base with the configuration and session id, and keep the converter | not executed | GeminiClients.NewGeminiClientAsWritten | GeminiClients.NewGeminiClient |
| src/mcpbridge/core/llm_executor.py:69, 75, 129 | the executor reads `config.tool_converter` and `config.tools_enabled`, which `LLMConfig` never sets | the first `get_completion` with a valid environment | build the client, then send the tools when tool use is enabled | not executed | LlmExecutors.LLMExecutor.InitializeClientAsWritten | LlmExecutors.LLMExecutor.InitializeClient |
