/** The command chain: each command has a name, an options dictionary (or
    None) and at most one nested command, forming a singly linked list from
    the root command to its tail. A chain is described by the sequence of
    its nodes from a given command to the node without a nested command. */
module Commands {
  import opened Text
  import opened Json

  class Command {
    var cmd: string
    var options: Value          // None is `Null`
    var nested: Command?

    constructor(cmd: string, options: Value, nested: Command?)
      ensures this.cmd == cmd && this.options == options && this.nested == nested
    {
      this.cmd := cmd;
      this.options := options;
      this.nested := nested;
    }

    /** `has_options`: the options are not None. */
    function HasOptions(): (b: bool)
      reads this
      ensures b <==> options != Null
    {
      options != Null
    }

    /** `has_nested_command`: a nested command is present. */
    function HasNested(): (b: bool)
      reads this
      ensures b <==> nested != null
    {
      nested != null
    }

    /** `set_nested_command`: replaces the nested command, detaching the old
        suffix; nothing else changes. */
    method SetNested(next: Command)
      modifies this
      ensures nested == next
      ensures cmd == old(cmd) && options == old(options)
    {
      nested := next;
    }

    /** `get_tail_command`: follows nested links to the last node. */
    method GetTail(ghost nodes: seq<Command>) returns (tail: Command)
      requires IsChain(nodes) && nodes[0] == this
      ensures tail == nodes[|nodes| - 1]
      ensures tail.nested == null
    {
      tail := this;
      ghost var i := 0;
      while tail.nested != null
        invariant 0 <= i < |nodes| && tail == nodes[i]
        decreases |nodes| - i
      {
        tail := tail.nested;
        i := i + 1;
      }
      OnlyTailEnds(nodes, i);
    }

    /** `calculate_chain_length`: the number of nodes from this command to the tail. */
    function ChainLength(ghost nodes: seq<Command>): (n: nat)
      reads set x | x in nodes
      requires IsChain(nodes) && nodes[0] == this
      ensures n == |nodes| && n >= 1
      decreases |nodes|
    {
      if nested != null then
        assert IsChain(nodes[1..]);
        1 + nested.ChainLength(nodes[1..])
      else
        OnlyTailEnds(nodes, 0);
        1
    }

    /** `str(command)`: "Command(a) -> Command(b) -> ..." in chain order. */
    function ToString(ghost nodes: seq<Command>): (r: string)
      reads set x | x in nodes
      requires IsChain(nodes) && nodes[0] == this
      ensures r == Join(Labels(nodes), " -> ")
      decreases |nodes|
    {
      if nested != null then
        assert IsChain(nodes[1..]);
        assert Labels(nodes) == [Label(this)] + Labels(nodes[1..]);
        Label(this) + " -> " + nested.ToString(nodes[1..])
      else
        assert Labels(nodes) == [Label(this)];
        Label(this)
    }
  }

  /** `nodes` lists a whole chain: each node's nested command is the next
      node, and the last node has none. */
  ghost predicate IsChain(nodes: seq<Command>)
    reads set x | x in nodes
  {
    |nodes| > 0
    && (forall i :: 0 <= i < |nodes| - 1 ==> nodes[i].nested == nodes[i + 1])
    && nodes[|nodes| - 1].nested == null
  }

  function Label(c: Command): string
    reads c
  {
    "Command(" + c.cmd + ")"
  }

  ghost function Labels(nodes: seq<Command>): (r: seq<string>)
    reads set x | x in nodes
    ensures |r| == |nodes|
  {
    if nodes == [] then [] else [Label(nodes[0])] + Labels(nodes[1..])
  }

  /** Only the tail of a chain lacks a nested command, so the tail occurs
      once in the chain. */
  lemma {:induction false} OnlyTailEnds(nodes: seq<Command>, i: int)
    requires IsChain(nodes) && 0 <= i < |nodes|
    ensures nodes[i].nested == null <==> i == |nodes| - 1
  {
    if i < |nodes| - 1 {
      assert nodes[i].nested == nodes[i + 1];
    }
  }

  /** Appending a fresh command at the tail: after `tail.SetNested(c)` the
      chain is one node longer and ends in `c`. */
  method AppendAtTail(ghost nodes: seq<Command>, tail: Command, c: Command)
    requires IsChain(nodes) && tail == nodes[|nodes| - 1]
    requires c !in nodes && c.nested == null
    modifies tail
    ensures IsChain(nodes + [c])
    ensures nodes[0].ChainLength(nodes + [c]) == |nodes| + 1
    ensures nodes[0].cmd == old(nodes[0].cmd)
  {
    forall i | 0 <= i < |nodes| - 1 ensures nodes[i] != tail {
      OnlyTailEnds(nodes, i);
    }
    tail.SetNested(c);
    assert forall i :: 0 <= i < |nodes| - 1 ==> nodes[i].nested == nodes[i + 1];
    assert (nodes + [c])[|nodes|] == c;
  }
}
