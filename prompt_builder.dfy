/** The prompt builder: a JSON template with doubled braces is normalised,
    decoded, and its first system message becomes the system content of
    the two-message initial prompt, the user's prompt being the second. */
module PromptBuilders {
  import opened Wrappers
  import opened Text
  import opened Json

  /** A builder with its template's name and text (the text read from the
      template file when the builder is created). */
  datatype PromptBuilder = PromptBuilder(templateName: string, templateContent: string)

  /** The brace normalisation: "{{" becomes "{", then "}}" becomes "}", then
      the "{user_prompt}" placeholder is removed. */
  function Normalize(template: string): string {
    var single := ReplaceAll(ReplaceAll(template, "{{", "{"), "}}", "}");
    ReplaceAll(single, "{user_prompt}", "")
  }

  /** A template with no doubled braces and no placeholder is decoded as it is. */
  lemma NormalizePlain(template: string)
    requires !Contains(template, "{{") && !Contains(template, "}}") && !Contains(template, "{user_prompt}")
    ensures Normalize(template) == template
  {
    ReplaceAbsent(template, "{{", "{");
    ReplaceAbsent(template, "}}", "}");
    ReplaceAbsent(template, "{user_prompt}", "");
  }

  /** The decoded template's `messages` is a non-empty list whose first
      item is a dictionary with role "system". */
  predicate StartsWithSystem(template: Value) {
    template.Obj? && Lookup(template.fields, "messages").Some?
    && var messages := Lookup(template.fields, "messages").value;
       messages.List? && messages.items != [] && messages.items[0].Obj?
       && Lookup(messages.items[0].fields, "role") == Some(Str("system"))
  }

  /** The system content taken from the decoded template: the `content` of
      the first message when the template starts with a system message (""
      when that message has no content); "" in every other case, including
      a template that is not a dictionary (whose `.get` raises and is
      caught). */
  function SystemContent(template: Value): (r: Value)
    ensures !StartsWithSystem(template) ==> r == Str("")
    ensures StartsWithSystem(template) ==>
              r == GetOr(Lookup(template.fields, "messages").value.items[0].fields, "content", Str(""))
  {
    if !template.Obj? then Str("")
    else
      var messages := GetOr(template.fields, "messages", List([]));
      if Truthy(messages) && messages.List? then
        var first := messages.items[0];
        if first.Obj? && GetOr(first.fields, "role", Null) == Str("system") then
          GetOr(first.fields, "content", Str(""))
        else Str("")
      else Str("")
  }

  /** The initial prompt dictionary: a system message, then the user's message. */
  function PromptPayload(systemContent: Value, userPrompt: Value): Value {
    Obj([("messages", List([Obj([("role", Str("system")), ("content", systemContent)]),
                            Obj([("role", Str("user")), ("content", userPrompt)])]))])
  }

  /** `build_initial_prompt(user_prompt)`, `loads` standing for `json.loads`:
      a ValueError naming the template when the normalised text is not JSON. */
  function BuildInitialPrompt(b: PromptBuilder, userPrompt: Value, loads: string -> Decoded): (r: Result<Value>)
    ensures loads(Normalize(b.templateContent)).DecodeError? <==> r.Err?
    ensures r.Err? ==> r.error == ValueError("Template '" + b.templateName
                                             + "' is not valid JSON after brace normalization: "
                                             + loads(Normalize(b.templateContent)).msg)
    ensures r.Ok? ==> r.value == PromptPayload(SystemContent(loads(Normalize(b.templateContent)).value), userPrompt)
  {
    match loads(Normalize(b.templateContent))
    case DecodeError(msg) =>
      Err(ValueError("Template '" + b.templateName + "' is not valid JSON after brace normalization: " + msg))
    case Parsed(template) => Ok(PromptPayload(SystemContent(template), userPrompt))
  }

  /** What the session reads back: `prompt["messages"][0]["content"]` is the
      system content and `prompt["messages"][1]["content"]` the user's prompt. */
  lemma PromptPayloadContents(systemContent: Value, userPrompt: Value)
    ensures var p := PromptPayload(systemContent, userPrompt);
            var messages := Lookup(p.fields, "messages");
            messages.Some? && messages.value.List? && |messages.value.items| == 2
            && messages.value.items[0].Obj? && messages.value.items[1].Obj?
            && Lookup(messages.value.items[0].fields, "role") == Some(Str("system"))
            && Lookup(messages.value.items[0].fields, "content") == Some(systemContent)
            && Lookup(messages.value.items[1].fields, "role") == Some(Str("user"))
            && Lookup(messages.value.items[1].fields, "content") == Some(userPrompt)
  {
    var system := Obj([("role", Str("system")), ("content", systemContent)]);
    var user := Obj([("role", Str("user")), ("content", userPrompt)]);
    assert Lookup(system.fields[1..], "content") == Some(systemContent);
    assert Lookup(user.fields[1..], "content") == Some(userPrompt);
  }

  /** A template whose first message is a system message with a content
      yields that content as the system prompt. */
  lemma SystemMessageTemplate(content: Value, rest: seq<Value>)
    ensures SystemContent(Obj([("messages", List([Obj([("role", Str("system")), ("content", content)])] + rest))]))
            == content
  {
    var first := Obj([("role", Str("system")), ("content", content)]);
    assert Lookup(first.fields[1..], "content") == Some(content);
    assert ([first] + rest)[0] == first;
  }

  /** A template whose first message is not a system message gives "". */
  lemma NonSystemFirstMessage(first: Value, rest: seq<Value>)
    requires first.Obj? && GetOr(first.fields, "role", Null) != Str("system")
    ensures SystemContent(Obj([("messages", List([first] + rest))])) == Str("")
  {
    assert ([first] + rest)[0] == first;
  }
}
