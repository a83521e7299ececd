/** The `mcpserver` and `mcpserver stdio` command callbacks: parsing the
    `-t "name command path"` tool options into dictionaries and extending
    the command chain held by the context. */
module McpServer {
  import opened Wrappers
  import opened Text
  import opened Json
  import opened Commands
  import opened Contexts

  /** What the command-line framework passes as `ctx.obj`: nothing, the
      bridge's context, or an object of some other class. */
  datatype CtxObj = NoObj | McpContext(ctx: Context) | Other(className: string)

  function InvalidContext(obj: CtxObj): PyError
    requires !obj.McpContext?
  {
    var shown := if obj.NoObj? then "NoneType" else obj.className;
    AttributeError("Invalid context type. Expected MCPContext, got <class '" + shown + "'>")
  }

  /** `name, command, path = t.split()`, then the tool dictionary; unpacking
      any other number of tokens raises ValueError. */
  function ToolEntry(t: string): (r: Result<Value>)
    ensures r.Ok? <==> |Split(t)| == 3
  {
    Unpack(Split(t))
  }

  /** The unpacking of the split words into the tool dictionary. */
  function Unpack(tokens: seq<string>): (r: Result<Value>)
    ensures r.Ok? <==> |tokens| == 3
    ensures r.Ok? ==> r.value.Obj? && Keys(r.value.fields) == ["name", "command", "path"]
    ensures r.Err? ==> r.error.ValueError?
  {
    if |tokens| < 3 then
      Err(ValueError("not enough values to unpack (expected 3, got " + NatToString(|tokens|) + ")"))
    else if |tokens| > 3 then
      Err(ValueError("too many values to unpack (expected 3)"))
    else
      Ok(Obj([("name", Str(tokens[0])), ("command", Str(tokens[1])), ("path", Str(tokens[2]))]))
  }

  /** A tool option written as three whitespace-free words separated by
      single spaces gives back exactly those words. */
  lemma ToolEntryWords(name: string, command: string, path: string)
    requires name != [] && HasNoSpace(name)
    requires command != [] && HasNoSpace(command)
    requires path != [] && HasNoSpace(path)
    ensures ToolEntry(name + " " + command + " " + path)
            == Ok(Obj([("name", Str(name)), ("command", Str(command)), ("path", Str(path))]))
  {
    var words := [name, command, path];
    assert forall i :: 0 <= i < |words| ==> words[i] != [] && HasNoSpace(words[i]) by {
      assert words[0] == name && words[1] == command && words[2] == path;
    }
    SplitJoin(words);
    JoinThree(name, command, path);
    var option := name + " " + command + " " + path;
    assert Split(option) == words;
    assert ToolEntry(option) == Unpack(words);
  }

  lemma JoinThree(a: string, b: string, c: string)
    ensures Join([a, b, c], " ") == a + " " + b + " " + c
  {
    var words := [a, b, c];
    assert Join(words[2..], " ") == c;
    assert Join(words[1..], " ") == b + " " + c;
  }

  /** The tool list the loop in `stdio` builds: one dictionary per option,
      in option order, or the first option's unpacking error. */
  function ToolEntries(tools: seq<string>): (r: Result<seq<Value>>)
    ensures r.Ok? ==> |r.value| == |tools|
                      && forall i :: 0 <= i < |tools| ==> ToolEntry(tools[i]) == Ok(r.value[i])
  {
    MapResult(tools, ToolEntry)
  }

  /** The list is built exactly when every option has three words; a
      failure is the error of the first option that does not. */
  lemma ToolEntriesOutcome(tools: seq<string>)
    ensures ToolEntries(tools).Ok? <==> forall i :: 0 <= i < |tools| ==> |Split(tools[i])| == 3
    ensures ToolEntries(tools).Err? ==>
              exists i :: 0 <= i < |tools| && ToolEntry(tools[i]) == Err(ToolEntries(tools).error)
                          && forall j :: 0 <= j < i ==> |Split(tools[j])| == 3
  {
    MapResultOk(tools, ToolEntry);
    if ToolEntries(tools).Err? {
      MapResultFirstError(tools, ToolEntry);
    }
  }

  /** The loop of `stdio` over the `-t` values. */
  method ParseToolOptions(tool: seq<string>) returns (r: Result<seq<Value>>)
    ensures r == ToolEntries(tool)
  {
    var tools: seq<Value> := [];
    var i := 0;
    while i < |tool|
      invariant 0 <= i <= |tool|
      invariant ToolEntries(tool[..i]) == Ok(tools)
    {
      var entry := ToolEntry(tool[i]);
      assert tool[..i + 1][..i] == tool[..i];
      if entry.Err? {
        assert MapResult(tool[..i + 1], ToolEntry) == Err(entry.error);
        MapResultFailedPrefix(tool, ToolEntry, i + 1);
        return Err(entry.error);
      }
      tools := tools + [entry.value];
      i := i + 1;
    }
    assert tool[..i] == tool;
    return Ok(tools);
  }

  datatype StdioOutcome =
    | Exited(code: int)
    | Raised(error: PyError)
    | Ran(stdio: Command, dispatched: bool)

  /** `stdio`: exits with code 1 on a missing or empty tool list, raises the
      first unpacking error, then checks the context, appends
      `Command("stdio", {"tools": tools})` at the tail of the root's chain
      and runs the context manager, which always dispatches on it. */
  method Stdio(obj: CtxObj, tool: Option<seq<string>>, ghost nodes: seq<Command>) returns (r: StdioOutcome)
    requires |nodes| > 0
    requires obj.McpContext? ==> IsChain(nodes) && nodes[0] == obj.ctx.root
    modifies nodes[|nodes| - 1]
    ensures tool.None? || tool.value == [] ==> r == Exited(1)
    ensures tool.Some? && ToolEntries(tool.value).Err? ==> r == Raised(ToolEntries(tool.value).error)
    ensures tool.Some? && tool.value != [] && ToolEntries(tool.value).Ok? && !obj.McpContext? ==>
              r == Raised(InvalidContext(obj))
    ensures !r.Ran? ==> unchanged(nodes[|nodes| - 1])
    ensures r.Ran? <==> tool.Some? && tool.value != [] && ToolEntries(tool.value).Ok? && obj.McpContext?
    ensures r.Ran? ==>
              fresh(r.stdio) && r.stdio.cmd == "stdio"
              && r.stdio.options == Obj([("tools", List(ToolEntries(tool.value).value))])
              && IsChain(nodes + [r.stdio]) && r.dispatched
  {
    if tool.None? || tool.value == [] {
      return Exited(1);
    }
    var tools := ParseToolOptions(tool.value);
    if tools.Err? {
      return Raised(tools.error);
    }
    if !obj.McpContext? {
      return Raised(InvalidContext(obj));
    }
    var ctx := obj.ctx;
    var root := ctx.GetRoot();
    var tail := root.GetTail(nodes);
    var stdio := new Command("stdio", Obj([("tools", List(tools.value))]), null);
    AppendAtTail(nodes, tail, stdio);
    var manager := new ContextManager(ctx);
    var dispatched := manager.Run(nodes + [stdio]);
    return Ran(stdio, dispatched);
  }

  /** `mcpserv`: nothing without a context, AttributeError for another
      object, otherwise a fresh "mcpserver" command becomes the root's
      nested command, replacing whatever followed the root. */
  method McpServ(obj: CtxObj) returns (raised: Option<PyError>)
    modifies if obj.McpContext? then {obj.ctx.root} else {}
    ensures obj.NoObj? ==> raised.None?
    ensures obj.Other? ==> raised == Some(InvalidContext(obj))
    ensures obj.McpContext? ==>
              raised.None? && obj.ctx.root.nested != null && fresh(obj.ctx.root.nested)
              && obj.ctx.root.nested.cmd == "mcpserver" && obj.ctx.root.nested.options == Null
              && IsChain([obj.ctx.root, obj.ctx.root.nested])
              && obj.ctx.root.cmd == old(obj.ctx.root.cmd) && obj.ctx.root.options == old(obj.ctx.root.options)
  {
    if obj.NoObj? {
      return None;
    }
    if !obj.McpContext? {
      return Some(InvalidContext(obj));
    }
    var server := new Command("mcpserver", Null, null);
    var root := obj.ctx.GetRoot();
    root.SetNested(server);
    return None;
  }
}
