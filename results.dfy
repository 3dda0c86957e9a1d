/**
 * The result of one tool call, and the chat message it becomes.
 */
module Results {
  import opened Wrappers
  import opened JsonValue
  import opened Types

  /** `ToolResult`; `None` output is `JNull`, and metadata defaults to `None`. */
  datatype ToolResult = ToolResult(
    id: string,
    tool: string,
    ok: bool,
    output: Json,
    error: Option<string>,
    metadata: Option<map<string, Json>>)

  /** The object `to_tool_message` serialises: the five reported fields, never the metadata. */
  function ToolPayload(r: ToolResult): (payload: map<string, Json>)
    ensures payload.Keys == {"id", "tool", "ok", "output", "error"}
    ensures payload["id"] == JStr(r.id) && payload["tool"] == JStr(r.tool) && payload["ok"] == JBool(r.ok)
    ensures payload["output"] == r.output
    ensures payload["error"] == (if r.error.Some? then JStr(r.error.value) else JNull)
  {
    map["id" := JStr(r.id), "tool" := JStr(r.tool), "ok" := JBool(r.ok), "output" := r.output,
        "error" := if r.error.Some? then JStr(r.error.value) else JNull]
  }

  /** `to_tool_message`, with `json.dumps` as the parameter `dumps`. */
  function ToToolMessage(r: ToolResult, dumps: Json -> string): (m: ChatMessage)
    ensures m.role == "tool"
    ensures m.content == dumps(JObj(ToolPayload(r)))
  {
    ChatMessage("tool", dumps(JObj(ToolPayload(r))))
  }

  /** The message does not depend on the metadata. */
  lemma MetadataExcluded(r: ToolResult, md: Option<map<string, Json>>, dumps: Json -> string)
    ensures ToToolMessage(r.(metadata := md), dumps) == ToToolMessage(r, dumps)
  {
  }
}
