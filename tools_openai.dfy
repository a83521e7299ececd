/** The OpenAI tool converter: each tool definition becomes a function
    entry of OpenAI's function-calling format. */
module OpenAiTools {
  import opened Wrappers
  import opened Json
  import opened ToolsBase

  /** The entry `convert_tools` builds for a tool. Only valid tools are
      converted, and for them every lookup below finds its key. */
  function OpenAiTool(tool: Value): Value {
    var f := if tool.Obj? then tool.fields else [];
    Obj([("type", Str("function")),
         ("function", Obj([("name", GetOr(f, "name", Null)),
                           ("description", GetOr(f, "description", Null)),
                           ("parameters", Obj(ConvertParameters(ParametersOf(tool))))]))])
  }

  /** The entry copies the tool's name, description and parameters
      unchanged: the OpenAI parameter conversion adds nothing to the copy. */
  lemma OpenAiToolFields(tool: Value)
    requires IsValidTool(tool)
    ensures var entry := OpenAiTool(tool);
            Lookup(entry.fields, "type") == Some(Str("function"))
            && var fn := Lookup(entry.fields, "function").value;
               fn.Obj?
               && Lookup(fn.fields, "name") == Lookup(tool.fields, "name")
               && Lookup(fn.fields, "description") == Lookup(tool.fields, "description")
               && Lookup(fn.fields, "parameters") == Lookup(tool.fields, "parameters")
  {
    var f := tool.fields;
    var fn := Obj([("name", GetOr(f, "name", Null)), ("description", GetOr(f, "description", Null)),
                   ("parameters", Obj(ConvertParameters(ParametersOf(tool))))]);
    assert Lookup(OpenAiTool(tool).fields, "function") == Some(fn);
    assert fn.fields[1..][1..] == [("parameters", Obj(ParametersOf(tool)))];
    assert Lookup(fn.fields[1..], "parameters") == Some(Obj(ParametersOf(tool)));
  }

  /** `convert_tools`: validates and converts the tools in order, raising at
      the first invalid one. */
  method ConvertTools(tools: seq<Value>) returns (r: ToolResult<seq<Value>>)
    ensures r == ConvertAll(tools, OpenAiTool)
  {
    var openAiTools: seq<Value> := [];
    var i := 0;
    while i < |tools|
      invariant 0 <= i <= |tools|
      invariant ConvertAll(tools[..i], OpenAiTool) == Converted(openAiTools)
    {
      var tool := tools[i];
      assert tools[..i + 1][..i] == tools[..i];
      var valid := ValidateTool(tool);
      if valid.Rejected? {
        RejectedAt(ValidateTool, tools, i, OpenAiTool);
        return Rejected(HandleConversionError(Tve(valid.error), tool));
      }
      var name := Lookup(tool.fields, "name").value;
      var description := Lookup(tool.fields, "description").value;
      var parameters := ConvertParameters(Lookup(tool.fields, "parameters").value.fields);
      var openAiTool := Obj([("type", Str("function")),
                             ("function", Obj([("name", name), ("description", description),
                                               ("parameters", Obj(parameters))]))]);
      assert openAiTool == OpenAiTool(tool);
      openAiTools := openAiTools + [openAiTool];
      i := i + 1;
    }
    assert tools[..|tools|] == tools;
    return Converted(openAiTools);
  }

  /** Converting no tools gives no entries. */
  lemma ConvertNoTools()
    ensures ConvertAll([], OpenAiTool) == Converted([])
  {
  }
}
