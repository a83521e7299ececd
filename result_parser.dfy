/** The normaliser for MCP tool results: structural validation of a raw
    result, then its success flag, text content, structured data, summary,
    metadata and error information. The extractors take the result's
    dictionary; `content` is iterated with Python's semantics, so a
    `content` that is not iterable makes them raise. */
module ResultParser {
  import opened Wrappers
  import opened Text
  import opened Json

  datatype ErrorInfo = ErrorInfo(errorType: Value, message: string, details: Value)

  /** The dictionary `parse` returns, one field per key. */
  datatype NormalizedResult = NormalizedResult(
    success: bool,
    textContent: string,
    structuredData: Fields,
    summary: string,
    metadata: Fields,
    errorInfo: Option<ErrorInfo>)

  // ---------------------------------------------------------------------
  // Validation

  predicate ValidItem(item: Value) {
    item.Obj? && HasKey(item.fields, "type")
  }

  /** The structure `validate_result_structure` accepts. */
  predicate ValidStructure(v: Value) {
    v.Obj? && HasKey(v.fields, "isError")
    && (HasKey(v.fields, "content") ==>
          var c := Lookup(v.fields, "content").value;
          c.List? && forall i :: 0 <= i < |c.items| ==> ValidItem(c.items[i]))
    && (HasKey(v.fields, "structuredContent") ==>
          var s := Lookup(v.fields, "structuredContent").value;
          s.Obj? || s.Null?)
  }

  /** `validate_result_structure`: checks the fields in source order,
      stopping at the first content item that is not a dictionary with a type. */
  method ValidateResultStructure(v: Value) returns (ok: bool)
    ensures ok <==> ValidStructure(v)
  {
    if !v.Obj? {
      return false;
    }
    var fields := v.fields;
    if !HasKey(fields, "isError") {
      return false;
    }
    var content := Lookup(fields, "content");
    if content.Some? {
      if !content.value.List? {
        return false;
      }
      var items := content.value.items;
      var i := 0;
      while i < |items|
        invariant 0 <= i <= |items|
        invariant forall j :: 0 <= j < i ==> ValidItem(items[j])
      {
        if !items[i].Obj? {
          return false;
        }
        if !HasKey(items[i].fields, "type") {
          return false;
        }
        i := i + 1;
      }
    }
    var structured := Lookup(fields, "structuredContent");
    if structured.Some? && !(structured.value.Obj? || structured.value.Null?) {
      return false;
    }
    return true;
  }

  // ---------------------------------------------------------------------
  // Specification of the extractors

  /** `is_error`: the raw `isError` value, `False` when absent. */
  function IsError(tool: Fields): Value {
    GetOr(tool, "isError", Bool(false))
  }

  /** What `for item in tool_result.get("content", [])` visits. */
  function ContentItems(tool: Fields): Result<seq<Value>> {
    Iterate(GetOr(tool, "content", List([])))
  }

  /** A dictionary item whose `type` is "text". */
  predicate IsTextItem(item: Value) {
    item.Obj? && Lookup(item.fields, "type") == Some(Str("text"))
  }

  /** What one item adds to `text_parts`: the `str` of its truthy `text`. */
  function TextPart(item: Value): (p: seq<string>)
    ensures |p| <= 1
    ensures p != [] <==> IsTextItem(item) && Truthy(GetOr(item.fields, "text", Str("")))
  {
    if IsTextItem(item) then
      var text := GetOr(item.fields, "text", Str(""));
      if Truthy(text) then [Show(text)] else []
    else []
  }

  /** The `text_parts` list after visiting `items`. */
  function TextParts(items: seq<Value>): (parts: seq<string>)
    ensures |parts| <= |items|
    decreases |items|
  {
    if items == [] then [] else TextParts(items[..|items| - 1]) + TextPart(items[|items| - 1])
  }

  /** `extract_text_content`. */
  function TextContent(tool: Fields): Result<string> {
    match ContentItems(tool)
    case Ok(items) => Ok(Join(TextParts(items), " "))
    case Err(e) => Err(e)
  }

  /** `extract_structured_content`: the `structuredContent` dictionary, or
      `{}` when it is absent, null or not a dictionary. */
  function StructuredContent(tool: Fields): (r: Fields)
    ensures HasKey(tool, "structuredContent") && Lookup(tool, "structuredContent").value.Obj? ==>
              r == Lookup(tool, "structuredContent").value.fields
    ensures !HasKey(tool, "structuredContent") || !Lookup(tool, "structuredContent").value.Obj? ==> r == []
  {
    match GetOr(tool, "structuredContent", Obj([]))
    case Obj(f) => f
    case _ => []
  }

  /** The `item_meta` dictionary built for one content item. */
  function ItemMeta(item: Value): (m: Fields)
    ensures |m| <= 2 && UniqueKeys(m)
    ensures forall i :: 0 <= i < |m| ==> (m[i].0 == "_meta" || m[i].0 == "annotations") && m[i].1 != Null
    ensures m == [] <==> !item.Obj? || (GetOr(item.fields, "_meta", Null) == Null
                                        && GetOr(item.fields, "annotations", Null) == Null)
  {
    if !item.Obj? then []
    else
      var meta := GetOr(item.fields, "_meta", Null);
      var annotations := GetOr(item.fields, "annotations", Null);
      (if meta != Null then [("_meta", meta)] else []) + (if annotations != Null then [("annotations", annotations)] else [])
  }

  /** An item's metadata holds the item's own non-null "_meta" and
      "annotations" values. */
  lemma ItemMetaValues(item: Value)
    requires item.Obj?
    ensures var meta := GetOr(item.fields, "_meta", Null);
            var annotations := GetOr(item.fields, "annotations", Null);
            Lookup(ItemMeta(item), "_meta") == (if meta != Null then Some(meta) else None)
            && Lookup(ItemMeta(item), "annotations") == (if annotations != Null then Some(annotations) else None)
  {
    var meta := GetOr(item.fields, "_meta", Null);
    var annotations := GetOr(item.fields, "annotations", Null);
    var head: Fields := if meta != Null then [("_meta", meta)] else [];
    var tail: Fields := if annotations != Null then [("annotations", annotations)] else [];
    LookupAppend(head, tail, "_meta");
    LookupAppend(head, tail, "annotations");
  }

  /** The `content_metadata` list after visiting `items`: one dictionary per
      item that has any metadata, none for the others. */
  function ContentMetadata(items: seq<Value>): (cm: seq<Value>)
    ensures |cm| <= |items|
    ensures forall i :: 0 <= i < |cm| ==> cm[i].Obj? && cm[i].fields != []
    decreases |items|
  {
    if items == [] then []
    else
      var m := ItemMeta(items[|items| - 1]);
      ContentMetadata(items[..|items| - 1]) + (if m != [] then [Obj(m)] else [])
  }

  /** `extract_metadata`. */
  function Metadata(tool: Fields): Result<Fields> {
    var toolMeta := GetOr(tool, "_meta", Null);
    var head := if toolMeta != Null then [("tool_meta", toolMeta)] else [];
    match ContentItems(tool)
    case Ok(items) =>
      var cm := ContentMetadata(items);
      Ok(head + (if cm != [] then [("content_metadata", List(cm))] else []))
    case Err(e) => Err(e)
  }

  /** The summary of a non-empty text content: at most 100 characters of
      text are kept, a longer text is cut to 97 characters and marked with "...". */
  function TextSummary(text: string): (r: string)
    ensures StartsWith(r, "Tool executed successfully: ")
    ensures |r| <= 128
    ensures |text| <= 100 ==> r[28..] == text
    ensures |text| > 100 ==> r[28..] == text[..97] + "..."
  {
    var prefix := "Tool executed successfully: ";
    if |text| > 100 then prefix + text[..97] + "..." else prefix + text
  }

  // ---------------------------------------------------------------------
  // Properties of the extractors

  /** The text parts of concatenated item lists are the concatenated parts,
      so `text_content` follows list order. */
  lemma {:induction false} TextPartsAppend(a: seq<Value>, b: seq<Value>)
    ensures TextParts(a + b) == TextParts(a) + TextParts(b)
    decreases |b|
  {
    if b == [] {
      assert a + b == a;
    } else {
      var init, last := b[..|b| - 1], b[|b| - 1];
      assert (a + b)[..|a + b| - 1] == a + init;
      assert (a + b)[|a + b| - 1] == last;
      calc {
        TextParts(a + b);
        TextParts(a + init) + TextPart(last);
        { TextPartsAppend(a, init); }
        TextParts(a) + TextParts(init) + TextPart(last);
        TextParts(a) + TextParts(b);
      }
    }
  }

  /** Only text items with a truthy text contribute: without any, the text
      content is empty. */
  lemma {:induction false} TextPartsNone(items: seq<Value>)
    requires forall i :: 0 <= i < |items| ==> TextPart(items[i]) == []
    ensures TextParts(items) == []
    decreases |items|
  {
    if items != [] {
      TextPartsNone(items[..|items| - 1]);
    }
  }

  /** Each text item with a truthy text contributes exactly its `str`. */
  lemma TextPartsSingle(item: Value)
    requires IsTextItem(item) && Truthy(GetOr(item.fields, "text", Str("")))
    ensures TextParts([item]) == [Show(GetOr(item.fields, "text", Str("")))]
  {
    assert [item][..0] == [];
  }

  /** The content metadata of concatenated item lists is the concatenation. */
  lemma {:induction false} ContentMetadataAppend(a: seq<Value>, b: seq<Value>)
    ensures ContentMetadata(a + b) == ContentMetadata(a) + ContentMetadata(b)
    decreases |b|
  {
    if b == [] {
      assert a + b == a;
    } else {
      var init := b[..|b| - 1];
      ContentMetadataAppend(a, init);
      assert (a + b)[..|a + b| - 1] == a + init;
      assert (a + b)[|a + b| - 1] == b[|b| - 1];
    }
  }

  /** `tool_meta` is present exactly when the top-level `_meta` is non-null,
      and `content_metadata` exactly when some item has metadata; no other
      key is ever set. */
  lemma MetadataKeys(tool: Fields)
    requires ContentItems(tool).Ok?
    ensures var m := Metadata(tool).value;
            var toolMeta := GetOr(tool, "_meta", Null);
            var cm := ContentMetadata(ContentItems(tool).value);
            |m| <= 2
            && (forall i :: 0 <= i < |m| ==> m[i].0 == "tool_meta" || m[i].0 == "content_metadata")
            && Lookup(m, "tool_meta") == (if toolMeta != Null then Some(toolMeta) else None)
            && Lookup(m, "content_metadata") == (if cm != [] then Some(List(cm)) else None)
  {
    var m := Metadata(tool).value;
    var toolMeta := GetOr(tool, "_meta", Null);
    var cm := ContentMetadata(ContentItems(tool).value);
    var head: Fields := if toolMeta != Null then [("tool_meta", toolMeta)] else [];
    var tail: Fields := if cm != [] then [("content_metadata", List(cm))] else [];
    assert m == head + tail;
    LookupAppend(head, tail, "tool_meta");
    LookupAppend(head, tail, "content_metadata");
  }

  /** A validated result's `content` is always iterable. */
  lemma ValidContentIterable(v: Value)
    requires ValidStructure(v)
    ensures ContentItems(v.fields).Ok?
    ensures HasKey(v.fields, "content") ==> ContentItems(v.fields).value == Lookup(v.fields, "content").value.items
    ensures !HasKey(v.fields, "content") ==> ContentItems(v.fields).value == []
  {
  }

  // ---------------------------------------------------------------------
  // The parser's methods

  lemma TextPartsStep(items: seq<Value>, i: nat)
    requires i < |items|
    ensures TextParts(items[..i + 1]) == TextParts(items[..i]) + TextPart(items[i])
  {
    assert items[..i + 1][..i] == items[..i];
  }

  lemma ContentMetadataStep(items: seq<Value>, i: nat, m: Fields)
    requires i < |items| && m == ItemMeta(items[i])
    ensures ContentMetadata(items[..i + 1]) == ContentMetadata(items[..i]) + (if m != [] then [Obj(m)] else [])
  {
    assert items[..i + 1][..i] == items[..i];
  }

  /** `extract_text_content`: appends the text of each text item in turn. */
  method ExtractTextContent(tool: Fields) returns (r: Result<string>)
    ensures r == TextContent(tool)
  {
    var contentItems := ContentItems(tool);
    if contentItems.Err? {
      return Err(contentItems.error);
    }
    var items := contentItems.value;
    var textParts: seq<string> := [];
    var i := 0;
    while i < |items|
      invariant 0 <= i <= |items|
      invariant textParts == TextParts(items[..i])
    {
      var item := items[i];
      TextPartsStep(items, i);
      ghost var part := TextPart(item);
      if item.Obj? && Lookup(item.fields, "type") == Some(Str("text")) {
        var text := GetOr(item.fields, "text", Str(""));
        if Truthy(text) {
          textParts := textParts + [Show(text)];
          assert part == [Show(text)];
        } else {
          assert part == [];
        }
      } else {
        assert part == [];
      }
      i := i + 1;
    }
    assert items[..|items|] == items;
    return Ok(Join(textParts, " "));
  }

  /** The `item_meta` dictionary of one dictionary item, key by key. */
  method BuildItemMeta(item: Value) returns (itemMeta: Fields)
    requires item.Obj?
    ensures itemMeta == ItemMeta(item)
  {
    itemMeta := [];
    var meta := Lookup(item.fields, "_meta");
    if meta.Some? && meta.value != Null {
      itemMeta := Put(itemMeta, "_meta", meta.value);
    }
    var annotations := Lookup(item.fields, "annotations");
    if annotations.Some? && annotations.value != Null {
      itemMeta := Put(itemMeta, "annotations", annotations.value);
    }
  }

  /** The loop of `extract_metadata` over the content items. */
  method CollectContentMetadata(items: seq<Value>) returns (contentMetadata: seq<Value>)
    ensures contentMetadata == ContentMetadata(items)
  {
    contentMetadata := [];
    var i := 0;
    while i < |items|
      invariant 0 <= i <= |items|
      invariant contentMetadata == ContentMetadata(items[..i])
    {
      var item := items[i];
      var itemMeta: Fields := [];
      if item.Obj? {
        itemMeta := BuildItemMeta(item);
      }
      ContentMetadataStep(items, i, itemMeta);
      if itemMeta != [] {
        contentMetadata := contentMetadata + [Obj(itemMeta)];
      }
      i := i + 1;
    }
    assert items[..|items|] == items;
  }

  /** `extract_metadata`: the top-level metadata, then one entry per content
      item that has any. */
  method ExtractMetadata(tool: Fields) returns (r: Result<Fields>)
    ensures r == Metadata(tool)
  {
    var metadata: Fields := [];
    var toolMeta := Lookup(tool, "_meta");
    if toolMeta.Some? && toolMeta.value != Null {
      metadata := Put(metadata, "tool_meta", toolMeta.value);
    }
    ghost var head := metadata;
    assert head == if GetOr(tool, "_meta", Null) != Null then [("tool_meta", GetOr(tool, "_meta", Null))] else [];
    var contentItems := ContentItems(tool);
    if contentItems.Err? {
      return Err(contentItems.error);
    }
    var contentMetadata := CollectContentMetadata(contentItems.value);
    if contentMetadata != [] {
      assert !HasKey(metadata, "content_metadata");
      metadata := Put(metadata, "content_metadata", List(contentMetadata));
      assert metadata == head + [("content_metadata", List(contentMetadata))];
    } else {
      assert metadata == head + [];
    }
    return Ok(metadata);
  }

  /** `extract_error_info`: the defaults "unknown", "Tool execution failed"
      and "", the message replaced by a non-empty text content, type and
      details taken from non-empty structured data. */
  method ExtractErrorInfo(tool: Fields) returns (r: Result<ErrorInfo>)
    ensures r.Err? <==> TextContent(tool).Err?
    ensures r.Ok? ==> var text := TextContent(tool).value;
                      r.value.message == if text != "" then text else "Tool execution failed"
    ensures r.Ok? && StructuredContent(tool) == [] ==>
              r.value.errorType == Str("unknown") && r.value.details == Str("")
    ensures r.Ok? && StructuredContent(tool) != [] ==>
              r.value.errorType == GetOr(StructuredContent(tool), "error_type", Str("unknown"))
              && r.value.details == GetOr(StructuredContent(tool), "details", Str(""))
  {
    var info := ErrorInfo(Str("unknown"), "Tool execution failed", Str(""));
    var text := ExtractTextContent(tool);
    if text.Err? {
      return Err(text.error);
    }
    if text.value != "" {
      info := info.(message := text.value);
    }
    var structured := StructuredContent(tool);
    if structured != [] {
      info := info.(errorType := GetOr(structured, "error_type", Str("unknown")),
                    details := GetOr(structured, "details", Str("")));
    }
    return Ok(info);
  }

  /** `get_result_summary`: the failure text, else a text summary, else the
      structured `result`, else the field count, else the bare success text. */
  method GetResultSummary(tool: Fields) returns (r: Result<string>)
    ensures Truthy(IsError(tool)) ==> r == Ok("Tool execution failed")
    ensures !Truthy(IsError(tool)) ==> (r.Err? <==> TextContent(tool).Err?)
    ensures !Truthy(IsError(tool)) && TextContent(tool).Ok? ==>
              var text := TextContent(tool).value;
              var sd := StructuredContent(tool);
              r.value == if text != "" then TextSummary(text)
                         else if sd != [] && HasKey(sd, "result")
                         then "Tool executed successfully with result: " + Show(Lookup(sd, "result").value)
                         else if sd != []
                         then "Tool executed successfully with " + NatToString(|sd|) + " data fields"
                         else "Tool executed successfully"
  {
    if Truthy(IsError(tool)) {
      return Ok("Tool execution failed");
    }
    var text := ExtractTextContent(tool);
    if text.Err? {
      return Err(text.error);
    }
    if text.value != "" {
      return Ok(TextSummary(text.value));
    }
    var structured := StructuredContent(tool);
    if structured != [] {
      var result := Lookup(structured, "result");
      if result.Some? {
        return Ok("Tool executed successfully with result: " + Show(result.value));
      }
      return Ok("Tool executed successfully with " + NatToString(|structured|) + " data fields");
    }
    return Ok("Tool executed successfully");
  }

  /** `n` is the normalised form of the result dictionary `tool`: every
      field as `parse` derives it. */
  predicate Normalizes(tool: Fields, n: NormalizedResult) {
    var sd := n.structuredData;
    n.success == !Truthy(IsError(tool))
    && (n.errorInfo.None? <==> n.success)
    && TextContent(tool) == Ok(n.textContent)
    && sd == StructuredContent(tool)
    && Metadata(tool) == Ok(n.metadata)
    && n.summary == (if !n.success then "Tool execution failed"
                     else if n.textContent != "" then TextSummary(n.textContent)
                     else if sd != [] && HasKey(sd, "result")
                     then "Tool executed successfully with result: " + Show(Lookup(sd, "result").value)
                     else if sd != [] then "Tool executed successfully with " + NatToString(|sd|) + " data fields"
                     else "Tool executed successfully")
    && (n.errorInfo.Some? ==>
          n.errorInfo.value.message == (if n.textContent != "" then n.textContent else "Tool execution failed")
          && n.errorInfo.value.errorType == (if sd == [] then Str("unknown") else GetOr(sd, "error_type", Str("unknown")))
          && n.errorInfo.value.details == (if sd == [] then Str("") else GetOr(sd, "details", Str(""))))
  }

  /** The normalised form is unique: `Normalizes` fixes every field. */
  lemma NormalizesUnique(tool: Fields, a: NormalizedResult, b: NormalizedResult)
    requires Normalizes(tool, a) && Normalizes(tool, b)
    ensures a == b
  {
  }

  /** `parse`: ValueError on an invalid structure; otherwise the normalised
      result, with error information exactly when the tool failed. */
  method Parse(v: Value) returns (r: Result<NormalizedResult>)
    ensures r.Err? <==> !ValidStructure(v)
    ensures r.Err? ==> r.error == ValueError("Invalid tool result structure")
    ensures r.Ok? ==> v.Obj? && Normalizes(v.fields, r.value)
    ensures r.Ok? ==> r.value.success == !Truthy(IsError(v.fields))
    ensures r.Ok? ==> (r.value.errorInfo.None? <==> r.value.success)
    ensures r.Ok? ==> TextContent(v.fields) == Ok(r.value.textContent)
    ensures r.Ok? ==> r.value.structuredData == StructuredContent(v.fields)
    ensures r.Ok? ==> Metadata(v.fields) == Ok(r.value.metadata)
    ensures r.Ok? && !r.value.success ==> r.value.summary == "Tool execution failed"
    ensures r.Ok? && r.value.success && r.value.textContent != "" ==>
              r.value.summary == TextSummary(r.value.textContent)
    ensures r.Ok? && r.value.success && r.value.textContent == "" ==>
              var sd := r.value.structuredData;
              r.value.summary == if sd != [] && HasKey(sd, "result")
                                 then "Tool executed successfully with result: " + Show(Lookup(sd, "result").value)
                                 else if sd != []
                                 then "Tool executed successfully with " + NatToString(|sd|) + " data fields"
                                 else "Tool executed successfully"
    ensures r.Ok? && r.value.errorInfo.Some? ==>
              r.value.errorInfo.value.message ==
                if r.value.textContent != "" then r.value.textContent else "Tool execution failed"
    ensures r.Ok? && r.value.errorInfo.Some? ==>
              var sd := r.value.structuredData;
              var info := r.value.errorInfo.value;
              (sd == [] ==> info.errorType == Str("unknown") && info.details == Str(""))
              && (sd != [] ==> info.errorType == GetOr(sd, "error_type", Str("unknown"))
                               && info.details == GetOr(sd, "details", Str("")))
  {
    var valid := ValidateResultStructure(v);
    if !valid {
      return Err(ValueError("Invalid tool result structure"));
    }
    var tool := v.fields;
    ValidContentIterable(v);
    var success := !Truthy(IsError(tool));
    var errorInfo: Option<ErrorInfo> := None;
    if !success {
      var info := ExtractErrorInfo(tool);
      errorInfo := Some(info.value);
    }
    var text := ExtractTextContent(tool);
    var structured := StructuredContent(tool);
    var metadata := ExtractMetadata(tool);
    var summary := GetResultSummary(tool);
    return Ok(NormalizedResult(success, text.value, structured, summary.value, metadata.value, errorInfo));
  }
}
