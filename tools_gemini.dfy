/** The Gemini tool converter: the tool definitions become the function
    declarations of one Gemini `Tool`, which is kept as a plain wrapper of
    that list. */
module GeminiTools {
  import opened Wrappers
  import opened Json
  import opened ToolsBase

  datatype GeminiTool = Tool(functionDeclarations: seq<Value>)

  /** The Gemini `_convert_parameters`: the base copy, unchanged. For an
      object schema with properties it walks `properties.items()`, doing
      nothing per property; that call raises when the properties are not a
      dictionary. */
  function ConvertParameters(params: Fields): (r: Result<Fields>)
    ensures r.Ok? ==> r.value == params
    ensures ValidParameters(Obj(params)) ==> r.Ok?
    ensures r.Err? ==> r.error.AttributeError?
  {
    var converted := ToolsBase.ConvertParameters(params);
    if HasKey(converted, "type") && Lookup(converted, "type") == Some(Str("object"))
       && HasKey(converted, "properties") then
      match Lookup(converted, "properties").value
      case Obj(_) => Ok(converted)
      case other => Err(AttributeError("'" + TypeName(other) + "' object has no attribute 'items'"))
    else Ok(converted)
  }

  /** The function declaration `convert_tools` builds for a tool. */
  function Declaration(tool: Value): Value {
    var f := if tool.Obj? then tool.fields else [];
    Obj([("name", GetOr(f, "name", Null)), ("description", GetOr(f, "description", Null)),
         ("parameters", Obj(ParametersOf(tool)))])
  }

  /** A declaration copies the tool's name, description and parameters. */
  lemma DeclarationFields(tool: Value)
    requires IsValidTool(tool)
    ensures var d := Declaration(tool);
            Lookup(d.fields, "name") == Lookup(tool.fields, "name")
            && Lookup(d.fields, "description") == Lookup(tool.fields, "description")
            && Lookup(d.fields, "parameters") == Lookup(tool.fields, "parameters")
  {
    var d := Declaration(tool);
    assert d.fields[1..][1..] == [("parameters", Obj(ParametersOf(tool)))];
    assert Lookup(d.fields[1..], "parameters") == Some(Obj(ParametersOf(tool)));
  }

  /** `convert_tools`: one declaration per tool, in order, wrapped in a
      single `Tool`; the first invalid tool raises and no `Tool` is made. */
  method ConvertTools(tools: seq<Value>) returns (r: ToolResult<GeminiTool>)
    ensures r.Rejected? <==> ConvertAll(tools, Declaration).Rejected?
    ensures r.Rejected? ==> r.error == ConvertAll(tools, Declaration).error
    ensures r.Converted? ==> r.value == Tool(ConvertAll(tools, Declaration).value)
  {
    var functionDeclarations: seq<Value> := [];
    var i := 0;
    while i < |tools|
      invariant 0 <= i <= |tools|
      invariant ConvertAll(tools[..i], Declaration) == Converted(functionDeclarations)
    {
      var tool := tools[i];
      assert tools[..i + 1][..i] == tools[..i];
      var valid := ValidateTool(tool);
      if valid.Rejected? {
        RejectedAt(ValidateTool, tools, i, Declaration);
        return Rejected(HandleConversionError(Tve(valid.error), tool));
      }
      var params := Lookup(tool.fields, "parameters").value;
      var parameters := ConvertParameters(params.fields);
      var declaration := Obj([("name", Lookup(tool.fields, "name").value),
                              ("description", Lookup(tool.fields, "description").value),
                              ("parameters", Obj(parameters.value))]);
      assert declaration == Declaration(tool);
      functionDeclarations := functionDeclarations + [declaration];
      i := i + 1;
    }
    assert tools[..|tools|] == tools;
    return Converted(Tool(functionDeclarations));
  }
}
