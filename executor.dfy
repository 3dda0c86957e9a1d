/**
 * The tool executor: each call is looked up in the registry and run by
 * its handler; every outcome, failures included, becomes a `ToolResult`.
 * Handlers are foreign code, so running one is the parameter `invoke`,
 * which answers the handler's return value or the message of the
 * exception it raised.
 */
module Executor {
  import opened Wrappers
  import opened JsonValue
  import opened ToolCalls
  import opened ToolRegistry
  import opened Results

  type Invoke = (Handler, map<string, Json>) -> Result<Json>

  const UnknownTool: string := "unknown tool"

  /** The result of one call. */
  function ExecuteOne(tools: map<string, ToolSpec>, call: ToolCall, invoke: Invoke): (r: ToolResult)
    ensures r.id == call.id && r.tool == call.tool && r.metadata == None
    ensures r.ok <==> r.error.None?
    ensures call.tool !in tools ==> !r.ok && r.output == JNull && r.error == Some(UnknownTool)
    ensures call.tool in tools && invoke(tools[call.tool].handler, call.args).Err? ==>
              !r.ok && r.output == JNull && r.error == Some(invoke(tools[call.tool].handler, call.args).msg)
    ensures call.tool in tools && invoke(tools[call.tool].handler, call.args).Ok? ==>
              r.ok && r.output == invoke(tools[call.tool].handler, call.args).value
  {
    if call.tool !in tools then ToolResult(call.id, call.tool, false, JNull, Some(UnknownTool), None)
    else
      match invoke(tools[call.tool].handler, call.args)
      case Err(msg) => ToolResult(call.id, call.tool, false, JNull, Some(msg), None)
      case Ok(output) => ToolResult(call.id, call.tool, true, output, None, None)
  }

  /** One result per call, in call order. */
  function ExecuteAll(tools: map<string, ToolSpec>, calls: seq<ToolCall>, invoke: Invoke): (rs: seq<ToolResult>)
    ensures |rs| == |calls|
    ensures forall k :: 0 <= k < |calls| ==> rs[k] == ExecuteOne(tools, calls[k], invoke)
  {
    seq(|calls|, k requires 0 <= k < |calls| => ExecuteOne(tools, calls[k], invoke))
  }

  /** Running calls one at a time, each as a batch of one, gives the same results as one batch. */
  lemma ExecuteOneByOne(tools: map<string, ToolSpec>, calls: seq<ToolCall>, invoke: Invoke)
    ensures ExecuteAll(tools, calls, invoke)
            == seq(|calls|, k requires 0 <= k < |calls| => ExecuteAll(tools, [calls[k]], invoke)[0])
  {
  }

  /** A failing call does not stop the batch: later calls have their own results. */
  lemma ExecuteAllSplit(tools: map<string, ToolSpec>, a: seq<ToolCall>, b: seq<ToolCall>, invoke: Invoke)
    ensures ExecuteAll(tools, a + b, invoke) == ExecuteAll(tools, a, invoke) + ExecuteAll(tools, b, invoke)
  {
  }

  class ToolExecutor {
    const root: string
    const registry: Registry

    constructor (root: string, registry: Registry)
      ensures this.root == root && this.registry == registry
    {
      this.root := root;
      this.registry := registry;
    }

    /** `execute_calls`: the loop appends one result per call and never fails. */
    method ExecuteCalls(calls: seq<ToolCall>, invoke: Invoke) returns (results: seq<ToolResult>)
      requires registry.Valid()
      ensures results == ExecuteAll(registry.tools, calls, invoke)
    {
      results := [];
      var i := 0;
      while i < |calls|
        invariant 0 <= i <= |calls|
        invariant results == ExecuteAll(registry.tools, calls[..i], invoke)
      {
        var call := calls[i];
        var spec := registry.Get(call.tool);
        if spec.None? {
          results := results + [ToolResult(call.id, call.tool, false, JNull, Some(UnknownTool), None)];
        } else {
          var outcome := invoke(spec.value.handler, call.args);
          if outcome.Err? {
            results := results + [ToolResult(call.id, call.tool, false, JNull, Some(outcome.msg), None)];
          } else {
            results := results + [ToolResult(call.id, call.tool, true, outcome.value, None, None)];
          }
        }
        assert calls[..i + 1] == calls[..i] + [call];
        i := i + 1;
      }
      assert calls[..i] == calls;
    }
  }
}
