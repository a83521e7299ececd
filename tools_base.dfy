/** Validation of tool definitions and the parts of tool conversion shared
    by the provider-specific converters. A check either passes or raises;
    what it raises is a `ToolValidationError` of its own or a Python
    exception from a lookup on a malformed value, which `validate_tool`
    rewraps. */
module ToolsBase {
  import opened Wrappers
  import opened Text
  import opened Json

  datatype ToolValidationError = ToolValidationError(message: string, tool: Value, details: Fields)

  /** What a check raises. */
  datatype Raise = Tve(error: ToolValidationError) | Py(exc: PyError)

  /** The outcome of a check that returns nothing useful or raises. */
  datatype Checked = Pass | Fail(raised: Raise)

  /** A value, or the ToolValidationError raised instead. */
  datatype ToolResult<+T> = Converted(value: T) | Rejected(error: ToolValidationError) {
    predicate IsFailure() { Rejected? }
    function PropagateFailure<U>(): ToolResult<U> requires Rejected? { Rejected(error) }
    function Extract(): T requires Converted? { value }
  }

  const RequiredToolFields: seq<string> := ["name", "description", "parameters"]
  const RequiredSchemaFields: seq<string> := ["type", "properties"]
  const SupportedParameterTypes: seq<string> := ["string", "number", "integer", "boolean", "array", "object"]

  // ---------------------------------------------------------------------
  // What a valid tool is

  /** A string that `strip()` does not empty. */
  predicate NonEmptyString(v: Value) {
    v.Str? && !IsBlank(v.s)
  }

  predicate SupportedType(t: Value) {
    t.Str? && t.s in SupportedParameterTypes
  }

  /** A property schema: a dictionary declaring a supported type. */
  predicate ValidProperty(schema: Value) {
    schema.Obj? && HasKey(schema.fields, "type") && SupportedType(Lookup(schema.fields, "type").value)
  }

  predicate ValidProperties(props: Fields) {
    forall i :: 0 <= i < |props| ==> ValidProperty(props[i].1)
  }

  /** A parameters schema: a dictionary of type "object" whose properties
      form a dictionary of valid property schemas. */
  predicate ValidParameters(params: Value) {
    params.Obj? && HasKey(params.fields, "type") && HasKey(params.fields, "properties")
    && Lookup(params.fields, "type") == Some(Str("object"))
    && Lookup(params.fields, "properties").value.Obj?
    && ValidProperties(Lookup(params.fields, "properties").value.fields)
  }

  /** A tool definition: a dictionary with a non-blank string name and
      description and valid parameters. */
  predicate IsValidTool(tool: Value) {
    tool.Obj? && HasKey(tool.fields, "name") && HasKey(tool.fields, "description")
    && HasKey(tool.fields, "parameters")
    && NonEmptyString(Lookup(tool.fields, "name").value)
    && NonEmptyString(Lookup(tool.fields, "description").value)
    && ValidParameters(Lookup(tool.fields, "parameters").value)
  }

  // ---------------------------------------------------------------------
  // The checks, in source order

  function Invalid(message: string, tool: Value): Checked {
    Fail(Tve(ToolValidationError(message, tool, [])))
  }

  /** The first of `fields` that `field not in v` reports missing; `in`
      itself raises on a value that is not a container. */
  function FirstMissing(v: Value, fields: seq<string>): (r: Result<Option<string>>)
    ensures v.Obj? ==> r.Ok?
    ensures v.Obj? && r.value.None? ==> forall i :: 0 <= i < |fields| ==> HasKey(v.fields, fields[i])
    ensures v.Obj? && r.value.Some? ==>
              exists k :: 0 <= k < |fields| && fields[k] == r.value.value && !HasKey(v.fields, fields[k])
                          && forall j :: 0 <= j < k ==> HasKey(v.fields, fields[j])
  {
    if fields == [] then Ok(None)
    else
      var present :- In(v, fields[0]);
      if !present then Ok(Some(fields[0]))
      else
        var rest := FirstMissing(v, fields[1..]);
        if v.Obj? && rest.Ok? && rest.value.Some? then
          var k :| 0 <= k < |fields[1..]| && fields[1..][k] == rest.value.value && !HasKey(v.fields, fields[1..][k])
                   && forall j :: 0 <= j < k ==> HasKey(v.fields, fields[1..][j]);
          assert fields[k + 1] == rest.value.value;
          assert forall j :: 0 <= j < k + 1 ==> HasKey(v.fields, fields[j]) by {
            forall j | 0 <= j < k + 1 ensures HasKey(v.fields, fields[j]) {
              if j > 0 { assert fields[j] == fields[1..][j - 1]; }
            }
          }
          rest
        else rest
  }

  /** The name and description checks: a string that is not blank. */
  function CheckNonEmptyString(tool: Value, key: string, message: string): (c: Checked)
    ensures tool.Obj? && HasKey(tool.fields, key) ==>
              (c.Pass? <==> NonEmptyString(Lookup(tool.fields, key).value))
  {
    match Subscript(tool, key)
    case Err(e) => Fail(Py(e))
    case Ok(v) =>
      if !v.Str? then Invalid(message, tool)
      else
        StripEmptyIffBlank(v.s);
        if Strip(v.s) != "" then Pass else Invalid(message, tool)
  }

  /** The loop over `properties.items()`: the first property without a
      type, or with an unsupported one, fails. */
  function CheckProperties(props: Fields, tool: Value): (c: Checked)
    ensures c.Pass? <==> ValidProperties(props)
    ensures c.Fail? && c.raised.Tve? ==> c.raised.error.tool == tool
    decreases |props|
  {
    if props == [] then Pass
    else
      var (name, schema) := props[0];
      match In(schema, "type")
      case Err(e) => Fail(Py(e))
      case Ok(present) =>
        if !present then Invalid("Missing type in property: " + name, tool)
        else match Subscript(schema, "type")
          case Err(e) => Fail(Py(e))
          case Ok(t) =>
            if SupportedType(t) then
              var rest := CheckProperties(props[1..], tool);
              assert ValidProperties(props) <==> ValidProperties(props[1..]) by {
                assert forall i :: 0 < i < |props| ==> props[i] == props[1..][i - 1];
              }
              rest
            else Invalid("Unsupported parameter type: " + Show(t) + " in property: " + name, tool)
  }

  /** `_validate_parameters`; its errors carry `{"parameters": params}` as the tool. */
  function ValidateParameters(params: Value): (c: Checked)
    ensures c.Pass? <==> ValidParameters(params)
    ensures c.Fail? && c.raised.Tve? ==> c.raised.error.tool == Obj([("parameters", params)])
  {
    var tool := Obj([("parameters", params)]);
    if !params.Obj? then Invalid("Parameters must be a dictionary", tool)
    else
      var missing := FirstMissing(params, RequiredSchemaFields).value;
      if missing.Some? then Invalid("Missing required field in parameters schema: " + missing.value, tool)
      else
        assert HasKey(params.fields, RequiredSchemaFields[0]) && HasKey(params.fields, RequiredSchemaFields[1]);
        var typ := Lookup(params.fields, "type").value;
        if typ != Str("object") then Invalid("Parameters schema type must be 'object'", tool)
        else
          var props := Lookup(params.fields, "properties").value;
          if !props.Obj? then Invalid("Properties must be a dictionary", tool)
          else CheckProperties(props.fields, tool)
  }

  /** The body of `validate_tool`'s `try`. */
  function ValidateToolChecks(tool: Value): (c: Checked)
    ensures c.Pass? <==> IsValidTool(tool)
  {
    match FirstMissing(tool, RequiredToolFields)
    case Err(e) => Fail(Py(e))
    case Ok(missing) =>
      if missing.Some? then Invalid("Missing required field: " + missing.value, tool)
      else
        var nameOk := CheckNonEmptyString(tool, "name", "Tool name must be a non-empty string");
        if nameOk.Fail? then nameOk
        else
          var descriptionOk := CheckNonEmptyString(tool, "description", "Tool description must be a non-empty string");
          if descriptionOk.Fail? then descriptionOk
          else match Subscript(tool, "parameters")
            case Err(e) => Fail(Py(e))
            case Ok(params) =>
              if tool.Obj? then
                assert HasKey(tool.fields, RequiredToolFields[0]) && HasKey(tool.fields, RequiredToolFields[1])
                       && HasKey(tool.fields, RequiredToolFields[2]);
                ValidateParameters(params)
              else ValidateParameters(params)
  }

  /** `validate_tool`: true exactly for a valid tool; otherwise the
      ToolValidationError of the first failing check, a Python exception
      raised on the way being rewrapped with its type name in the details. */
  function ValidateTool(tool: Value): (r: ToolResult<bool>)
    ensures r.Converted? <==> IsValidTool(tool)
    ensures r.Converted? ==> r.value
  {
    match ValidateToolChecks(tool)
    case Pass => Converted(true)
    case Fail(Tve(e)) => Rejected(e)
    case Fail(Py(e)) =>
      Rejected(ToolValidationError("Unexpected error during tool validation: " + ErrorMessage(e), tool,
                                   [("error_type", Str(ErrorName(e)))]))
  }

  /** The fields are checked in the order name, description, parameters,
      and the error names the first one missing. */
  lemma MissingFieldNamed(tool: Value, k: nat)
    requires tool.Obj? && k < |RequiredToolFields| && !HasKey(tool.fields, RequiredToolFields[k])
    requires forall j :: 0 <= j < k ==> HasKey(tool.fields, RequiredToolFields[j])
    ensures ValidateTool(tool) ==
              Rejected(ToolValidationError("Missing required field: " + RequiredToolFields[k], tool, []))
  {
    var m := FirstMissing(tool, RequiredToolFields);
    assert m.value.Some?;
    var k' :| 0 <= k' < |RequiredToolFields| && RequiredToolFields[k'] == m.value.value
              && !HasKey(tool.fields, RequiredToolFields[k'])
              && forall j :: 0 <= j < k' ==> HasKey(tool.fields, RequiredToolFields[j]);
    assert k' == k;
  }

  /** A tool that is not a container makes `field not in tool` raise
      TypeError, which comes back rewrapped. */
  lemma ValidateNonContainer(tool: Value)
    requires tool.Null? || tool.Bool? || tool.Int? || tool.Float?
    ensures ValidateTool(tool) ==
              Rejected(ToolValidationError(
                "Unexpected error during tool validation: " + ("argument of type '" + TypeName(tool) + "' is not iterable"),
                tool, [("error_type", Str("TypeError"))]))
  {
    var e := TypeError("argument of type '" + TypeName(tool) + "' is not iterable");
    NonContainerChecks(tool);
    assert ErrorMessage(e) == "argument of type '" + TypeName(tool) + "' is not iterable";
  }

  lemma NonContainerChecks(tool: Value)
    requires tool.Null? || tool.Bool? || tool.Int? || tool.Float?
    ensures ValidateToolChecks(tool) == Fail(Py(TypeError("argument of type '" + TypeName(tool) + "' is not iterable")))
  {
    assert FirstMissing(tool, RequiredToolFields) == In(tool, "name").PropagateFailure();
  }

  /** `_convert_parameters`: a copy, equal to its input. */
  function ConvertParameters(params: Fields): (r: Fields)
    ensures r == params
  {
    params
  }

  /** `_handle_conversion_error`, which never returns: the error it raises.
      A ToolValidationError is re-raised unchanged, any other exception
      wrapped with its message and type name. */
  function HandleConversionError(error: Raise, tool: Value): (e: ToolValidationError)
    ensures error.Tve? ==> e == error.error
    ensures error.Py? ==>
              e.message == "Error converting tool: " + ErrorMessage(error.exc) && e.tool == tool
              && Lookup(e.details, "error_type") == Some(Str(ErrorName(error.exc)))
  {
    match error
    case Tve(err) => err
    case Py(exc) =>
      ToolValidationError("Error converting tool: " + ErrorMessage(exc), tool, [("error_type", Str(ErrorName(exc)))])
  }

  /** The parameters of a tool, as copied into a converted tool. */
  function ParametersOf(tool: Value): (p: Fields)
    ensures IsValidTool(tool) ==> Obj(p) == Lookup(tool.fields, "parameters").value
  {
    if tool.Obj? then
      match GetOr(tool.fields, "parameters", Null)
      case Obj(f) => f
      case _ => []
    else []
  }

  /** The loop shared by the converters: each tool checked in turn by
      `validate` and converted by `convert`, the first rejected one raising
      through `_handle_conversion_error`, so that no partial list is
      returned. */
  function ConvertEach(validate: Value -> ToolResult<bool>, tools: seq<Value>, convert: Value -> Value)
    : (r: ToolResult<seq<Value>>)
    decreases |tools|
  {
    if tools == [] then Converted([])
    else
      var done :- ConvertEach(validate, tools[..|tools| - 1], convert);
      var last := tools[|tools| - 1];
      match validate(last)
      case Rejected(e) => Rejected(HandleConversionError(Tve(e), last))
      case Converted(_) => Converted(done + [convert(last)])
  }

  /** The converters' loop, with `validate_tool` as the check. */
  function ConvertAll(tools: seq<Value>, convert: Value -> Value): ToolResult<seq<Value>> {
    ConvertEach(ValidateTool, tools, convert)
  }

  /** A property holds for every element exactly when it holds for every
      element of the list without its last, and for the last. */
  lemma AllPrefix(s: seq<Value>, init: seq<Value>, p: Value -> bool)
    requires s != [] && init == s[..|s| - 1]
    ensures (forall i :: 0 <= i < |s| ==> p(s[i])) <==> (forall i :: 0 <= i < |init| ==> p(init[i])) && p(s[|s| - 1])
  {
    assert forall i :: 0 <= i < |init| ==> init[i] == s[i];
  }

  /** A property of the first `k` elements is a property of the prefix of length `k`. */
  lemma AllTake(s: seq<Value>, k: nat, p: Value -> bool)
    requires k <= |s| && forall j :: 0 <= j < k ==> p(s[j])
    ensures forall i :: 0 <= i < |s[..k]| ==> p(s[..k][i])
  {
    assert forall i :: 0 <= i < k ==> s[..k][i] == s[i];
  }

  /** The loop succeeds exactly when the check accepts every tool. */
  lemma {:induction false} ConvertEachAccepted(validate: Value -> ToolResult<bool>, tools: seq<Value>,
                                               convert: Value -> Value)
    ensures ConvertEach(validate, tools, convert).Converted? <==>
            forall i :: 0 <= i < |tools| ==> validate(tools[i]).Converted?
    decreases |tools|
  {
    if tools != [] {
      var init, last := tools[..|tools| - 1], tools[|tools| - 1];
      ConvertEachAccepted(validate, init, convert);
      AllPrefix(tools, init, t => validate(t).Converted?);
      assert ConvertEach(validate, tools, convert).Converted? <==>
             ConvertEach(validate, init, convert).Converted? && validate(last).Converted?;
    }
  }

  /** The converters succeed exactly when every tool is valid. */
  lemma ConvertAllValid(tools: seq<Value>, convert: Value -> Value)
    ensures ConvertAll(tools, convert).Converted? <==> forall i :: 0 <= i < |tools| ==> IsValidTool(tools[i])
  {
    ConvertEachAccepted(ValidateTool, tools, convert);
  }

  /** A successful conversion has one converted entry per tool, in input order. */
  lemma {:induction false} ConvertAllEntries(validate: Value -> ToolResult<bool>, tools: seq<Value>,
                                             convert: Value -> Value)
    requires ConvertEach(validate, tools, convert).Converted?
    ensures var out := ConvertEach(validate, tools, convert).value;
            |out| == |tools| && forall i :: 0 <= i < |tools| ==> out[i] == convert(tools[i])
    decreases |tools|
  {
    if tools != [] {
      var init, last := tools[..|tools| - 1], tools[|tools| - 1];
      assert ConvertEach(validate, init, convert).Converted? && validate(last).Converted?;
      ConvertAllEntries(validate, init, convert);
      var done := ConvertEach(validate, init, convert).value;
      var out := ConvertEach(validate, tools, convert).value;
      assert out == done + [convert(last)];
      forall i | 0 <= i < |tools|
        ensures out[i] == convert(tools[i])
      {
        if i < |init| {
          assert init[i] == tools[i] && out[i] == done[i];
        }
      }
    }
  }

  /** Once a prefix is rejected, the whole list is rejected with the same error. */
  lemma {:induction false} ConvertAllRejectedPrefix(validate: Value -> ToolResult<bool>, tools: seq<Value>, n: nat,
                                                    convert: Value -> Value)
    requires n <= |tools| && ConvertEach(validate, tools[..n], convert).Rejected?
    ensures ConvertEach(validate, tools, convert) == ConvertEach(validate, tools[..n], convert)
    decreases |tools| - n
  {
    if n < |tools| {
      assert tools[..n + 1][..n] == tools[..n];
      ConvertAllRejectedPrefix(validate, tools, n + 1, convert);
    } else {
      assert tools[..n] == tools;
    }
  }

  /** A tool rejected after an accepted prefix decides the error raised. */
  lemma RejectedAt(validate: Value -> ToolResult<bool>, tools: seq<Value>, k: nat, convert: Value -> Value)
    requires k < |tools| && validate(tools[k]).Rejected? && ConvertEach(validate, tools[..k], convert).Converted?
    ensures ConvertEach(validate, tools, convert) == Rejected(validate(tools[k]).error)
  {
    var prefix := tools[..k + 1];
    assert |prefix| == k + 1 && prefix[..|prefix| - 1] == tools[..k] && prefix[|prefix| - 1] == tools[k];
    var e := validate(tools[k]).error;
    assert HandleConversionError(Tve(e), tools[k]) == e;
    assert ConvertEach(validate, prefix, convert) == Rejected(e);
    ConvertAllRejectedPrefix(validate, tools, k + 1, convert);
  }

  /** The first invalid tool decides the error raised. */
  lemma ConvertAllFirstInvalid(tools: seq<Value>, k: nat, convert: Value -> Value)
    requires k < |tools| && !IsValidTool(tools[k])
    requires forall j :: 0 <= j < k ==> IsValidTool(tools[j])
    ensures ConvertAll(tools, convert) == Rejected(ValidateTool(tools[k]).error)
  {
    AllTake(tools, k, IsValidTool);
    ConvertAllValid(tools[..k], convert);
    RejectedAt(ValidateTool, tools, k, convert);
  }
}
