/** The execution context: the root of the command chain and the prompt
    read from the root's options when the context is created, and the
    context manager that dispatches on the chain's tail command. */
module Contexts {
  import opened Wrappers
  import opened Json
  import opened Commands

  const PromptNotSet := "Prompt is not set in command options"

  /** `_get_prompt`: `options["prompt"]`, which raises when the options are
      not a dictionary holding that key (TypeError or KeyError), and a
      ValueError when the prompt is falsy. */
  function PromptOf(options: Value): (r: Result<Value>)
    ensures r.Ok? <==> options.Obj? && HasKey(options.fields, "prompt")
                       && Truthy(Lookup(options.fields, "prompt").value)
    ensures r.Ok? ==> Lookup(options.fields, "prompt") == Some(r.value)
    ensures options.Obj? && HasKey(options.fields, "prompt") && !Truthy(Lookup(options.fields, "prompt").value)
            ==> r == Err(ValueError(PromptNotSet))
    ensures options.Obj? && !HasKey(options.fields, "prompt") ==> r == Err(KeyError(Str("prompt")))
  {
    var prompt :- Subscript(options, "prompt");
    if !Truthy(prompt) then Err(ValueError(PromptNotSet)) else Ok(prompt)
  }

  class Context {
    var root: Command
    var prompt: Value

    constructor(root: Command, prompt: Value)
      ensures this.root == root && this.prompt == prompt
    {
      this.root := root;
      this.prompt := prompt;
    }

    /** `get_root_command`. */
    function GetRoot(): (c: Command)
      reads this
      ensures c == root
    {
      root
    }

    /** `set_root_command`: the prompt read at creation stays as it was. */
    method SetRoot(command: Command)
      modifies this
      ensures root == command && prompt == old(prompt)
    {
      root := command;
    }
  }

  /** `Context(command)`: a context with the root's prompt, or the exception
      `_get_prompt` raises. */
  method NewContext(command: Command) returns (r: Result<Context>)
    ensures PromptOf(command.options).Err? ==> r == Err(PromptOf(command.options).error)
    ensures PromptOf(command.options).Ok? ==>
              r.Ok? && fresh(r.value) && r.value.root == command
              && r.value.prompt == PromptOf(command.options).value
  {
    var prompt := PromptOf(command.options);
    if prompt.Err? {
      return Err(prompt.error);
    }
    var ctx := new Context(command, prompt.value);
    return Ok(ctx);
  }

  class ContextManager {
    const ctx: Context

    constructor(ctx: Context)
      ensures this.ctx == ctx
    {
      this.ctx := ctx;
    }

    /** `run`: dispatches to the stdio handler exactly when the tail of the
        root's chain is the "stdio" command; reports whether it did. */
    method Run(ghost nodes: seq<Command>) returns (dispatched: bool)
      requires IsChain(nodes) && nodes[0] == ctx.root
      ensures dispatched <==> nodes[|nodes| - 1].cmd == "stdio"
    {
      var main := ctx.GetRoot();
      var leaf := main.GetTail(nodes);
      dispatched := false;
      if leaf.cmd == "stdio" {
        ExecuteStdio(leaf);
        dispatched := true;
      }
    }

    /** `_execute_stdio` has an empty body: no state changes. */
    method ExecuteStdio(cmd: Command) {
    }
  }
}
