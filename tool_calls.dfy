/**
 * The tool-call protocol: a role asks for tools with a JSON object or list
 * framed by `<<<TOOL_CALLS_JSON>>>` and `<<<END_TOOL_CALLS_JSON>>>`.
 */
module ToolCalls {
  import opened Wrappers
  import opened Strings
  import opened JsonValue
  import opened MarkerBlock

  const StartMarker: string := "<<<TOOL_CALLS_JSON>>>"
  const EndMarker: string := "<<<END_TOOL_CALLS_JSON>>>"

  datatype ToolCall = ToolCall(id: string, tool: string, args: map<string, Json>)

  /** The answer of `extract_tool_calls`: the visible text and the calls. */
  datatype CallsResult = CallsResult(visible: string, calls: seq<ToolCall>)

  /** One item of the batch is usable: an object with a string id, a string tool and object args. */
  predicate ValidItem(item: Json) {
    item.JObj? && Get(item.fields, "id").JStr? && Get(item.fields, "tool").JStr?
    && Get(item.fields, "args").JObj?
  }

  function CallOf(item: Json): ToolCall
    requires ValidItem(item)
  {
    ToolCall(Get(item.fields, "id").s, Get(item.fields, "tool").s, Get(item.fields, "args").fields)
  }

  /** The loop of `_coerce_tool_calls` over the object items, one call per item. */
  function CoerceItems(items: seq<Json>): (r: Option<seq<ToolCall>>)
    ensures r.Some? <==> forall k :: 0 <= k < |items| ==> ValidItem(items[k])
    ensures r.Some? ==> |r.value| == |items|
    ensures r.Some? ==> forall k :: 0 <= k < |items| ==> r.value[k] == CallOf(items[k])
  {
    if |items| == 0 then Some([])
    else if !ValidItem(items[0]) then None
    else
      match CoerceItems(items[1..])
      case None => None
      case Some(rest) => Some([CallOf(items[0])] + rest)
  }

  /** `_coerce_tool_calls`: one object is one call; a list must hold objects only. */
  function CoerceToolCalls(data: Json): (r: Option<seq<ToolCall>>)
    ensures data.JObj? ==> r == CoerceItems([data])
    ensures data.JArr? && (forall k :: 0 <= k < |data.items| ==> data.items[k].JObj?) ==> r == CoerceItems(data.items)
    ensures data.JArr? && (exists k :: 0 <= k < |data.items| && !data.items[k].JObj?) ==> r.None?
    ensures !data.JObj? && !data.JArr? ==> r.None?
  {
    if data.JObj? then CoerceItems([data])
    else if data.JArr? then
      if forall k :: 0 <= k < |data.items| ==> data.items[k].JObj? then CoerceItems(data.items)
      else None
    else None
  }

  /** A call written as the JSON object it was read from. */
  function EncodeCall(c: ToolCall): (item: Json)
    ensures ValidItem(item) && CallOf(item) == c
  {
    JObj(map["id" := JStr(c.id), "tool" := JStr(c.tool), "args" := JObj(c.args)])
  }

  function EncodeCalls(calls: seq<ToolCall>): (data: Json)
    ensures data.JArr? && |data.items| == |calls|
  {
    JArr(seq(|calls|, k requires 0 <= k < |calls| => EncodeCall(calls[k])))
  }

  /** Round trip: coercing encoded calls, as a list or as one object, gives them back in order. */
  lemma CoerceEncodedCalls(calls: seq<ToolCall>)
    ensures CoerceToolCalls(EncodeCalls(calls)) == Some(calls)
    ensures |calls| == 1 ==> CoerceToolCalls(EncodeCall(calls[0])) == Some(calls)
  {
    var data := EncodeCalls(calls);
    assert forall k :: 0 <= k < |data.items| ==> data.items[k] == EncodeCall(calls[k]);
    var r := CoerceToolCalls(data);
    assert r.Some?;
    assert r.value == calls;
  }

  /** An empty list is a valid, empty batch. */
  lemma EmptyListAccepted()
    ensures CoerceToolCalls(JArr([])) == Some([])
  {
  }

  /** `extract_tool_calls`, with `json.loads` as the parameter `decode`. */
  function ExtractToolCalls(text: string, decode: Decoder): (r: CallsResult)
    ensures r.visible == text || ExtractBlock(text, StartMarker, EndMarker).Some?
  {
    match ExtractBlock(text, StartMarker, EndMarker)
    case None => CallsResult(text, [])
    case Some(b) =>
      match decode(b.payload)
      case None => CallsResult(text, [])
      case Some(data) =>
        match CoerceToolCalls(data)
        case None => CallsResult(text, [])
        case Some(calls) =>
          ExtractBlockBounds(text, StartMarker, EndMarker);
          CallsResult(Splice(text, b), calls)
  }

  /**
   * The visible text loses the first framed block exactly when its payload
   * decodes to an acceptable batch, and the calls are then that batch in
   * payload order; in every other case the text is unchanged and there are
   * no calls.
   */
  lemma ExtractToolCallsCases(text: string, decode: Decoder)
    ensures var r := ExtractToolCalls(text, decode);
            var found := ExtractBlock(text, StartMarker, EndMarker);
            var accepted := found.Some? && decode(found.value.payload).Some?
                            && CoerceToolCalls(decode(found.value.payload).value).Some?;
      && (!accepted ==> r == CallsResult(text, []))
      && (accepted ==>
            && found.value.start <= found.value.stop <= |text|
            && r.visible == Splice(text, found.value)
            && Some(r.calls) == CoerceToolCalls(decode(found.value.payload).value))
  {
    ExtractBlockBounds(text, StartMarker, EndMarker);
  }

  /** With no start marker, or no end marker after the first one, nothing changes. */
  lemma ExtractToolCallsNoBlock(text: string, decode: Decoder)
    requires !Contains(text, StartMarker)
          || exists s :: Find(text, StartMarker) == Some(s) && FindFrom(text, EndMarker, s).None?
    ensures ExtractToolCalls(text, decode) == CallsResult(text, [])
  {
    if !Contains(text, StartMarker) {
      FindIsContains(text, StartMarker);
    }
  }

  lemma ToolCallMarkersSeparated()
    ensures Separated(StartMarker, EndMarker)
  {
  }

  /**
   * Round trip: prose, a framed payload that decodes to encoded calls, then
   * more prose, gives back the calls in order and the two prose parts joined.
   */
  lemma {:induction false} ExtractToolCallsRoundTrip(pre: string, payload: string, post: string,
                                                     calls: seq<ToolCall>, decode: Decoder)
    requires !Contains(pre, StartMarker) && !Contains(payload, EndMarker)
    requires decode(Strip(payload)) == Some(EncodeCalls(calls))
    ensures ExtractToolCalls(pre + StartMarker + payload + EndMarker + post, decode) == CallsResult(pre + post, calls)
  {
    ToolCallMarkersSeparated();
    ExtractFramed(pre, payload, post, StartMarker, EndMarker);
    CoerceEncodedCalls(calls);
  }

  /** A framed empty list is still cut out of the text, with no calls. */
  lemma {:induction false} ExtractEmptyBatch(pre: string, payload: string, post: string, decode: Decoder)
    requires !Contains(pre, StartMarker) && !Contains(payload, EndMarker)
    requires decode(Strip(payload)) == Some(JArr([]))
    ensures ExtractToolCalls(pre + StartMarker + payload + EndMarker + post, decode) == CallsResult(pre + post, [])
  {
    ToolCallMarkersSeparated();
    ExtractFramed(pre, payload, post, StartMarker, EndMarker);
    EmptyListAccepted();
  }
}
