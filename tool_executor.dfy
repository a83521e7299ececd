/** The tool executor: reads the MCP server's launch command from the
    context, asks the server for its tool definitions, and calls one tool
    from a tool-call dictionary, normalising the server's raw result. */
module ToolExecutors {
  import opened Wrappers
  import opened Json
  import opened ResultParser

  /** The stdio client's launch parameters: the server command and its
      argument list. */
  datatype StdioClient = StdioClient(command: Value, args: seq<string>)

  const NoMcpServer := AttributeError("'Context' object has no attribute 'mcp_server'")
  const NoCallTool := AttributeError("'StdioClient' object has no attribute 'call_tool'")

  /** `StdioClient(mcp_server['stdio']['command'], [str(mcp_server['stdio']['path'])])`;
      `mcpServer` is the context's `mcp_server` attribute, None when the
      context has none (the bridge's context never sets one). */
  function ClientFor(mcpServer: Option<Value>): (r: Result<StdioClient>)
    ensures mcpServer.None? ==> r == Err(NoMcpServer)
    ensures r.Ok? <==> mcpServer.Some? && Subscript(mcpServer.value, "stdio").Ok?
                       && Subscript(Subscript(mcpServer.value, "stdio").value, "command").Ok?
                       && Subscript(Subscript(mcpServer.value, "stdio").value, "path").Ok?
    ensures r.Ok? ==> var stdio := Subscript(mcpServer.value, "stdio").value;
                      Subscript(stdio, "command") == Ok(r.value.command)
                      && r.value.args == [Show(Subscript(stdio, "path").value)]
  {
    if mcpServer.None? then Err(NoMcpServer)
    else
      var stdio :- Subscript(mcpServer.value, "stdio");
      var command :- Subscript(stdio, "command");
      var path :- Subscript(stdio, "path");
      Ok(StdioClient(command, [Show(path)]))
  }

  /** The three lookups `call_tool` makes before calling the server, in
      order: `tool_call["name"]`, `["arguments"]`, `["id"]`. */
  function ToolRequest(toolCall: Value): (r: Result<(Value, Value, Value)>)
    ensures r.Ok? <==> toolCall.Obj? && HasKey(toolCall.fields, "name")
                       && HasKey(toolCall.fields, "arguments") && HasKey(toolCall.fields, "id")
    ensures r.Ok? ==> Lookup(toolCall.fields, "name") == Some(r.value.0)
                      && Lookup(toolCall.fields, "arguments") == Some(r.value.1)
                      && Lookup(toolCall.fields, "id") == Some(r.value.2)
    ensures toolCall.Obj? && !HasKey(toolCall.fields, "name") ==> r == Err(KeyError(Str("name")))
    ensures !toolCall.Obj? ==> r.Err? && r.error.TypeError?
  {
    var name :- Subscript(toolCall, "name");
    var arguments :- Subscript(toolCall, "arguments");
    var id :- Subscript(toolCall, "id");
    Ok((name, arguments, id))
  }

  class ToolExecutor {
    const client: StdioClient

    constructor(client: StdioClient)
      ensures this.client == client
    {
      this.client := client;
    }

    /** `get_tools_definition`: the server's listing, passed through as
        `listTools` answers it for this client. */
    method GetToolsDefinition(listTools: StdioClient -> Value) returns (defs: Value)
      ensures defs == listTools(client)
    {
      defs := listTools(client);
    }

    /** `call_tool` as written: after the three lookups it calls
        `call_tool` on the stdio client, which has no such method, so every
        call raises; the server is never reached. */
    method CallTool(toolCall: Value) returns (r: Result<NormalizedResult>)
      ensures r.Err?
      ensures ToolRequest(toolCall).Err? ==> r == Err(ToolRequest(toolCall).error)
      ensures ToolRequest(toolCall).Ok? ==> r == Err(NoCallTool)
    {
      var request := ToolRequest(toolCall);
      if request.Err? {
        return Err(request.error);
      }
      return Err(NoCallTool);
    }

    /** `call_tool` as intended: the lookups, then the server's raw result
        for the named tool and its arguments (`callTool`), normalised by the
        result parser. */
    method CallToolFixed(toolCall: Value, callTool: (StdioClient, Value, Value) -> Value)
      returns (r: Result<NormalizedResult>)
      ensures ToolRequest(toolCall).Err? ==> r == Err(ToolRequest(toolCall).error)
      ensures ToolRequest(toolCall).Ok? ==>
                var raw := callTool(client, ToolRequest(toolCall).value.0, ToolRequest(toolCall).value.1);
                (r.Err? <==> !ValidStructure(raw))
                && (r.Err? ==> r.error == ValueError("Invalid tool result structure"))
                && (r.Ok? ==> TextContent(raw.fields) == Ok(r.value.textContent)
                              && r.value.success == !Truthy(IsError(raw.fields))
                              && Normalizes(raw.fields, r.value))
    {
      var request := ToolRequest(toolCall);
      if request.Err? {
        return Err(request.error);
      }
      var (name, arguments, _) := request.value;
      var raw := callTool(client, name, arguments);
      r := Parse(raw);
    }
  }

  /** `ToolExecutor(ctx)`: the executor with its client, or the exception
      reading the launch parameters raises. */
  method NewToolExecutor(mcpServer: Option<Value>) returns (r: Result<ToolExecutor>)
    ensures ClientFor(mcpServer).Err? ==> r == Err(ClientFor(mcpServer).error)
    ensures ClientFor(mcpServer).Ok? ==> r.Ok? && fresh(r.value) && r.value.client == ClientFor(mcpServer).value
  {
    var client := ClientFor(mcpServer);
    if client.Err? {
      return Err(client.error);
    }
    var executor := new ToolExecutor(client.value);
    return Ok(executor);
  }
}
