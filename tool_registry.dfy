/**
 * The tool registry: tool names mapped to handlers, listed in the order
 * names were first registered (the order of a Python dict).
 */
module ToolRegistry {
  import opened Wrappers
  import opened Settings

  /**
   * A tool handler. The built-in ones are closures over the sandbox root
   * or the settings; `Custom` stands for any other callable.
   */
  datatype Handler =
    | ReadTextHandler(root: string)
    | WriteTextHandler(root: string)
    | ListDirHandler(root: string)
    | ShellExecHandler(root: string)
    | HttpGetHandler(settings: ToolSettings)
    | Custom(id: string)

  datatype ToolSpec = ToolSpec(name: string, handler: Handler)

  class Registry {
    var tools: map<string, ToolSpec>
    /** The dict's key order: names in first-registration order. */
    var order: seq<string>

    ghost predicate Valid()
      reads this
    {
      && (forall i, j :: 0 <= i < j < |order| ==> order[i] != order[j])
      && (forall n :: n in tools <==> n in order)
      && (forall n :: n in tools ==> tools[n].name == n)
    }

    constructor ()
      ensures Valid() && tools == map[] && order == []
    {
      tools := map[];
      order := [];
    }

    /** `register`: a new name goes last; a known name keeps its place and gets the new handler. */
    method Register(name: string, handler: Handler)
      requires Valid()
      modifies this
      ensures Valid()
      ensures tools == old(tools)[name := ToolSpec(name, handler)]
      ensures order == if name in old(tools) then old(order) else old(order) + [name]
    {
      if name !in tools {
        order := order + [name];
      }
      tools := tools[name := ToolSpec(name, handler)];
    }

    /** `get`: the spec registered under the name, `None` for an unknown name. */
    function Get(name: string): (r: Option<ToolSpec>)
      reads this
      requires Valid()
      ensures r.Some? <==> name in order
      ensures r.Some? ==> r.value.name == name && r.value == tools[name]
    {
      if name in tools then Some(tools[name]) else None
    }

    /** `list_tools`: one spec per name, in first-registration order. */
    function ListTools(): (r: seq<ToolSpec>)
      reads this
      requires Valid()
      ensures |r| == |order|
      ensures forall k :: 0 <= k < |order| ==> r[k].name == order[k] && r[k] == tools[order[k]]
    {
      seq(|order|, k requires 0 <= k < |order| && order[k] in tools reads this => tools[order[k]])
    }
  }
}
