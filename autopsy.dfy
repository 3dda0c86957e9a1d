/**
 * The trace autopsy: a trace file (one JSON object per line) is read into
 * events, folded into LLM stages, tool calls, sanitizer records and
 * anomalies, and the anomalies are turned into deduplicated
 * recommendations. JSON decoding and Python's `str()` of values other than
 * `None`, booleans, integers and strings are parameters.
 */
module Autopsy {
  import opened Wrappers
  import opened JsonValue
  import opened Strings
  import Condense

  /** A trace event: a decoded JSON object. */
  type Event = map<string, Json>

  /** Python `str()` of a list, a dict or a float. */
  type Repr = Json -> string

  /** An anomaly; `invariantText` is the record's `invariant` field. */
  datatype Anomaly = Anomaly(code: string, severity: string, evidence: string, category: string, invariantText: string)

  /** Python `str(v)` (and an f-string field): exact for `None`, booleans, integers and strings. */
  function PyStr(v: Json, repr: Repr): (r: string)
    ensures v.JStr? ==> r == v.s
    ensures v.JNull? ==> r == "None"
  {
    match v
    case JNull => "None"
    case JBool(b) => if b then "True" else "False"
    case JInt(i) => IntToString(i)
    case JStr(s) => s
    case _ => repr(v)
  }

  // ------------------------------------------------------------ loading

  /** The event that stands for an undecodable line: its 1-based number and its first 200 characters. */
  function ParseErrorEvent(index: nat, stripped: string): Event {
    map["ts" := JNull, "kind" := JStr("trace_parse_error"),
        "data" := JObj(map["line" := JInt(index), "raw" := JStr(Prefix(stripped, 200))])]
  }

  /** What line number `index` contributes: nothing when blank or not an object, a parse error when undecodable. */
  function LineEvents(line: string, index: nat, decode: Decoder): (r: seq<Event>)
    ensures |r| <= 1
  {
    var stripped := Strip(line);
    if stripped == [] then []
    else match decode(stripped)
      case None => [ParseErrorEvent(index, stripped)]
      case Some(JObj(fields)) => [fields]
      case Some(_) => []
  }

  /** The events of a trace file's lines, in file order. */
  function TraceEventsOf(lines: seq<string>, decode: Decoder): seq<Event> {
    if lines == [] then []
    else TraceEventsOf(lines[..|lines| - 1], decode) + LineEvents(lines[|lines| - 1], |lines|, decode)
  }

  /** `_load_trace_events` on the lines of the file. */
  method LoadTraceEvents(lines: seq<string>, decode: Decoder) returns (events: seq<Event>)
    ensures events == TraceEventsOf(lines, decode)
  {
    events := [];
    var index := 0;
    while index < |lines|
      invariant index <= |lines|
      invariant events == TraceEventsOf(lines[..index], decode)
    {
      var stripped := Strip(lines[index]);
      assert lines[..index + 1][..index] == lines[..index];
      index := index + 1;
      if stripped != [] {
        var payload := decode(stripped);
        if payload.None? {
          events := events + [ParseErrorEvent(index, stripped)];
        } else if payload.value.JObj? {
          events := events + [payload.value.fields];
        }
      }
    }
    assert lines[..|lines|] == lines;
  }

  /** Every non-blank line contributes: a decoded object itself, an undecodable line its parse error. */
  lemma {:induction false} TraceEventsComplete(lines: seq<string>, decode: Decoder, k: nat)
    requires k < |lines| && Strip(lines[k]) != []
    ensures decode(Strip(lines[k])).None? ==> ParseErrorEvent(k + 1, Strip(lines[k])) in TraceEventsOf(lines, decode)
    ensures decode(Strip(lines[k])).Some? && decode(Strip(lines[k])).value.JObj? ==>
              decode(Strip(lines[k])).value.fields in TraceEventsOf(lines, decode)
  {
    var init := lines[..|lines| - 1];
    if k < |lines| - 1 {
      assert init[k] == lines[k];
      TraceEventsComplete(init, decode, k);
    }
  }

  /** No line contributes more than one event. */
  lemma {:induction false} TraceEventsBound(lines: seq<string>, decode: Decoder)
    ensures |TraceEventsOf(lines, decode)| <= |lines|
  {
    if lines != [] {
      TraceEventsBound(lines[..|lines| - 1], decode);
    }
  }

  // ------------------------------------------------------------ bare tool JSON

  /** A decoded object carrying a tool-call payload's keys. */
  predicate IsToolPayload(fields: map<string, Json>) {
    ("name" in fields && "arguments" in fields)
    || ("tool" in fields && "args" in fields)
    || ("tool" in fields && "arguments" in fields)
  }

  /** `_bare_tool_json`: the whole text, outer whitespace aside, is a brace-delimited tool-call object. */
  function BareToolJson(text: string, decode: Decoder): (r: bool)
    ensures r <==> var s := Strip(text);
      && s != [] && s[0] == '{' && s[|s| - 1] == '}'
      && decode(s).Some? && decode(s).value.JObj? && IsToolPayload(decode(s).value.fields)
  {
    var stripped := Strip(text);
    if stripped == [] || !(IsPrefix("{", stripped) && IsSuffix("}", stripped)) then false
    else match decode(stripped)
      case None => false
      case Some(JObj(fields)) =>
        if "name" in fields && "arguments" in fields then true
        else if "tool" in fields && "args" in fields then true
        else if "tool" in fields && "arguments" in fields then true
        else false
      case Some(_) => false
  }

  /** Surrounding whitespace never changes the verdict. */
  lemma BareToolJsonStripped(text: string, decode: Decoder)
    ensures BareToolJson(Strip(text), decode) == BareToolJson(text, decode)
  {
    StripShape(text);
    StripOfStripped(Strip(text));
  }

  // ------------------------------------------------------------ categories

  const KnownCodes: seq<string> := [
    "tool_calls_parse_warning", "visible_tool_json_leak", "tool_failed", "tool_missing_done",
    "llm_req_done_mismatch", "sanitize_warning", "tool_results_truncated", "trace_parse_error"]

  /** `_categorize_anomaly`: the (category, invariant) an anomaly code maps to. */
  function Categorize(code: string): (r: (string, string)) {
    if code == "tool_calls_parse_warning" then
      ("tool_call_format", "Tool calls must be canonical or parseable.")
    else if code == "visible_tool_json_leak" then
      ("visible_leak", "Visible output must not contain tool-call payloads.")
    else if code == "tool_failed" then
      ("tool_execution", "Tool execution must succeed or surface error explicitly.")
    else if code == "tool_missing_done" then
      ("tool_execution", "Tool execution must produce a tool_done event.")
    else if code == "llm_req_done_mismatch" then
      ("trace_integrity", "Trace must pair llm_req and llm_done events.")
    else if code == "sanitize_warning" then
      ("sanitize_output", "Sanitizer must not empty visible output.")
    else if code == "tool_results_truncated" then
      ("tool_results_budget", "Tool results should fit within the configured budget.")
    else if code == "trace_parse_error" then
      ("trace_integrity", "Trace lines must be valid JSON.")
    else ("unknown", "Unmapped invariant")
  }

  /** Exactly the eight known codes have a category; every other code is unmapped. */
  lemma CategorizeKnown(code: string)
    ensures code in KnownCodes <==> Categorize(code).0 != "unknown"
    ensures code !in KnownCodes <==> Categorize(code) == ("unknown", "Unmapped invariant")
    ensures Categorize(code).1 == "Unmapped invariant" ==> code !in KnownCodes
  {
  }

  /** An anomaly with its category and invariant filled in from its code. */
  function MakeAnomaly(code: string, severity: string, evidence: string): (a: Anomaly)
    ensures a.code == code && a.severity == severity && a.evidence == evidence
    ensures (a.category, a.invariantText) == Categorize(code)
  {
    var pair := Categorize(code);
    Anomaly(code, severity, evidence, pair.0, pair.1)
  }

  // ------------------------------------------------------------ dedupe

  /** A recommendation item: `action` and `rationale`, each read with `""` as the default. */
  function KeyOf(item: map<string, string>): (string, string) {
    (if "action" in item then item["action"] else "", if "rationale" in item then item["rationale"] else "")
  }

  /** No two items share a key. */
  predicate DistinctKeys(items: seq<map<string, string>>) {
    forall p, q :: 0 <= p < q < |items| ==> KeyOf(items[p]) != KeyOf(items[q])
  }

  /** The keys of a list of items. */
  function KeySet(items: seq<map<string, string>>): set<(string, string)> {
    if items == [] then {} else KeySet(items[..|items| - 1]) + {KeyOf(items[|items| - 1])}
  }

  lemma {:induction false} KeySetMember(items: seq<map<string, string>>, key: (string, string))
    ensures key in KeySet(items) <==> exists k :: 0 <= k < |items| && KeyOf(items[k]) == key
  {
    if items != [] {
      var init := items[..|items| - 1];
      KeySetMember(init, key);
      if key in KeySet(init) {
        var k :| 0 <= k < |init| && KeyOf(init[k]) == key;
        assert items[k] == init[k];
      }
      if exists k :: 0 <= k < |items| && KeyOf(items[k]) == key {
        var k :| 0 <= k < |items| && KeyOf(items[k]) == key;
        if k < |init| {
          assert items[k] == init[k];
        }
      }
    }
  }

  /** The reference: each item is kept when no kept item before it has its key. */
  function DedupeSpec(items: seq<map<string, string>>): seq<map<string, string>> {
    if items == [] then []
    else
      var out := DedupeSpec(items[..|items| - 1]);
      var last := items[|items| - 1];
      if KeyOf(last) in KeySet(out) then out else out + [last]
  }

  /** `_dedupe`. */
  method Dedupe(items: seq<map<string, string>>) returns (output: seq<map<string, string>>)
    ensures output == DedupeSpec(items)
  {
    var seen: set<(string, string)> := {};
    output := [];
    var i := 0;
    while i < |items|
      invariant i <= |items|
      invariant output == DedupeSpec(items[..i])
      invariant seen == KeySet(output)
    {
      var item := items[i];
      var key := KeyOf(item);
      assert items[..i + 1][..i] == items[..i];
      if key !in seen {
        seen := seen + {key};
        output := output + [item];
      }
      i := i + 1;
    }
    assert items[..|items|] == items;
  }

  /** The position of the first item with a key. */
  function FirstIndex(items: seq<map<string, string>>, key: (string, string)): (k: nat)
    requires key in KeySet(items)
    ensures k < |items| && KeyOf(items[k]) == key
  {
    var init := items[..|items| - 1];
    if key in KeySet(init) then FirstIndex(init, key) else |init|
  }

  /** No item before the first position has the key. */
  lemma {:induction false} FirstIndexIsFirst(items: seq<map<string, string>>, key: (string, string), j: nat)
    requires key in KeySet(items) && j < FirstIndex(items, key)
    ensures KeyOf(items[j]) != key
  {
    var init := items[..|items| - 1];
    assert items[j] == init[j];
    if key in KeySet(init) {
      FirstIndexIsFirst(init, key, j);
    } else {
      KeySetMember(init, key);
    }
  }

  /** Every item's key is among the keys. */
  lemma KeysIn(items: seq<map<string, string>>)
    ensures forall k :: 0 <= k < |items| ==> KeyOf(items[k]) in KeySet(items)
  {
    forall k | 0 <= k < |items|
      ensures KeyOf(items[k]) in KeySet(items)
    {
      KeySetMember(items, KeyOf(items[k]));
    }
  }

  /** Deduplication loses no key. */
  lemma {:induction false} DedupeKeys(items: seq<map<string, string>>)
    ensures KeySet(DedupeSpec(items)) == KeySet(items)
  {
    if items != [] {
      var init := items[..|items| - 1];
      DedupeKeys(init);
      var out := DedupeSpec(items);
      if out != DedupeSpec(init) {
        assert out[..|out| - 1] == DedupeSpec(init);
      }
    }
  }

  /** The deduplicated list repeats no key. */
  lemma {:induction false} DedupeNoRepeat(items: seq<map<string, string>>)
    ensures DistinctKeys(DedupeSpec(items))
  {
    if items != [] {
      var init := items[..|items| - 1];
      var prev := DedupeSpec(init);
      DedupeNoRepeat(init);
      KeysIn(prev);
      var last := items[|items| - 1];
      if KeyOf(last) !in KeySet(prev) {
        var out := prev + [last];
        assert DedupeSpec(items) == out;
        forall p, q | 0 <= p < q < |out|
          ensures KeyOf(out[p]) != KeyOf(out[q])
        {
          assert out[p] == prev[p];
          if q < |prev| {
            assert out[q] == prev[q];
          } else {
            assert out[q] == last;
            assert KeyOf(prev[p]) in KeySet(prev);
          }
        }
      }
    }
  }

  /** Each kept item is the input's first item with its key. */
  lemma {:induction false} DedupeKeepsFirst(items: seq<map<string, string>>)
    ensures var out := DedupeSpec(items);
      forall p :: 0 <= p < |out| ==>
        KeyOf(out[p]) in KeySet(items) && out[p] == items[FirstIndex(items, KeyOf(out[p]))]
  {
    if items != [] {
      var init := items[..|items| - 1];
      var prev := DedupeSpec(init);
      DedupeKeepsFirst(init);
      DedupeKeys(init);
      var out := DedupeSpec(items);
      forall p | 0 <= p < |out|
        ensures KeyOf(out[p]) in KeySet(items) && out[p] == items[FirstIndex(items, KeyOf(out[p]))]
      {
        if p < |prev| {
          assert out[p] == prev[p];
          assert items[FirstIndex(init, KeyOf(prev[p]))] == init[FirstIndex(init, KeyOf(prev[p]))];
        }
      }
    }
  }

  /** The items of `out` come in the order their keys first appear in `items`. */
  predicate FirstOrdered(out: seq<map<string, string>>, items: seq<map<string, string>>) {
    forall p, q :: 0 <= p < q < |out| ==>
      KeyOf(out[p]) in KeySet(items) && KeyOf(out[q]) in KeySet(items)
      && FirstIndex(items, KeyOf(out[p])) < FirstIndex(items, KeyOf(out[q]))
  }

  /** The kept items come in the order their keys first appear. */
  lemma {:induction false} DedupeOrder(items: seq<map<string, string>>)
    ensures FirstOrdered(DedupeSpec(items), items)
  {
    if items != [] {
      var init := items[..|items| - 1];
      var prev := DedupeSpec(init);
      DedupeOrder(init);
      DedupeKeys(init);
      KeysIn(prev);
      FirstOrderedGrow(prev, items);
      var last := items[|items| - 1];
      if KeyOf(last) !in KeySet(prev) {
        FirstOrderedAppend(prev, items);
      }
    }
  }

  /** Appending an item to the input keeps the order of a list drawn from the earlier items. */
  lemma FirstOrderedGrow(out: seq<map<string, string>>, items: seq<map<string, string>>)
    requires items != [] && FirstOrdered(out, items[..|items| - 1])
    requires forall p :: 0 <= p < |out| ==> KeyOf(out[p]) in KeySet(items[..|items| - 1])
    ensures FirstOrdered(out, items)
  {
    forall p | 0 <= p < |out|
      ensures KeyOf(out[p]) in KeySet(items)
      ensures FirstIndex(items, KeyOf(out[p])) == FirstIndex(items[..|items| - 1], KeyOf(out[p]))
    {
      FirstIndexInit(items, KeyOf(out[p]));
    }
  }

  /** An item whose key is new comes after every earlier key. */
  lemma FirstOrderedAppend(out: seq<map<string, string>>, items: seq<map<string, string>>)
    requires items != [] && FirstOrdered(out, items)
    requires forall p :: 0 <= p < |out| ==> KeyOf(out[p]) in KeySet(items[..|items| - 1])
    requires KeyOf(items[|items| - 1]) !in KeySet(items[..|items| - 1])
    ensures FirstOrdered(out + [items[|items| - 1]], items)
  {
    var init, last := items[..|items| - 1], items[|items| - 1];
    var ext := out + [last];
    assert KeySet(items) == KeySet(init) + {KeyOf(last)};
    assert FirstIndex(items, KeyOf(last)) == |items| - 1;
    forall p, q | 0 <= p < q < |ext|
      ensures && KeyOf(ext[p]) in KeySet(items) && KeyOf(ext[q]) in KeySet(items)
              && FirstIndex(items, KeyOf(ext[p])) < FirstIndex(items, KeyOf(ext[q]))
    {
      assert ext[p] == out[p];
      if q < |out| {
        assert ext[q] == out[q];
      } else {
        FirstIndexInit(items, KeyOf(out[p]));
        assert FirstIndex(init, KeyOf(out[p])) < |init|;
      }
    }
  }

  /** A key already among the earlier items keeps its first position. */
  lemma FirstIndexInit(items: seq<map<string, string>>, key: (string, string))
    requires items != [] && key in KeySet(items[..|items| - 1])
    ensures key in KeySet(items) && FirstIndex(items, key) == FirstIndex(items[..|items| - 1], key)
  {
  }

  /** A list without repeated keys is its own deduplication. */
  lemma {:induction false} DedupeDistinct(items: seq<map<string, string>>)
    requires DistinctKeys(items)
    ensures DedupeSpec(items) == items
  {
    if items != [] {
      var init := items[..|items| - 1];
      DedupeDistinct(init);
      assert KeyOf(items[|items| - 1]) !in KeySet(init) by {
        KeySetMember(init, KeyOf(items[|items| - 1]));
        forall p | 0 <= p < |init|
          ensures KeyOf(init[p]) != KeyOf(items[|items| - 1])
        {
          assert init[p] == items[p];
        }
      }
      assert items == init + [items[|items| - 1]];
    }
  }

  // ------------------------------------------------------------ events

  /** `event.get("kind") == kind`. */
  predicate IsKind(e: Event, kind: string) {
    Get(e, "kind") == JStr(kind)
  }

  /** The event's `data` when it is an object, `{}` otherwise. */
  function DataOf(e: Event): map<string, Json> {
    var d := Get(e, "data");
    if d.JObj? then d.fields else map[]
  }

  /** The event's `role` when it is a string. */
  function RoleOf(e: Event): Option<string> {
    var r := Get(DataOf(e), "role");
    if r.JStr? then Some(r.s) else None
  }

  /** A truthy role: a non-empty string. */
  predicate HasRole(role: Option<string>) {
    role.Some? && role.value != ""
  }

  /** `len(v) if isinstance(v, str) else None`. */
  function CharsOf(v: Json): Option<nat> {
    if v.JStr? then Some(|v.s|) else None
  }

  function KindCount(events: seq<Event>, kind: string): nat {
    if events == [] then 0
    else KindCount(events[..|events| - 1], kind) + (if IsKind(events[|events| - 1], kind) then 1 else 0)
  }

  /** The `data` of every event of a kind, in order. */
  function DataOfKind(events: seq<Event>, kind: string): seq<map<string, Json>> {
    if events == [] then []
    else
      var e := events[|events| - 1];
      DataOfKind(events[..|events| - 1], kind) + (if IsKind(e, kind) then [DataOf(e)] else [])
  }

  /** The text of a `visible_response` event whose `visible_response` is a string. */
  function VisibleText(e: Event): Option<string> {
    var v := Get(DataOf(e), "visible_response");
    if IsKind(e, "visible_response") && v.JStr? then Some(v.s) else None
  }

  /** The last `visible_response` that is a string. */
  function FinalVisible(events: seq<Event>): Option<string> {
    if events == [] then None
    else if VisibleText(events[|events| - 1]).Some? then VisibleText(events[|events| - 1])
    else FinalVisible(events[..|events| - 1])
  }

  // ------------------------------------------------------------ stages

  datatype Stage = Stage(role: Option<string>, reqTs: Json, doneTs: Json, reqChars: Option<nat>, doneChars: Option<nat>)

  /**
   * The stages so far and, per truthy role, the stack of that role's open
   * stages as positions in `stages` (Python keeps the same entry in both).
   */
  datatype StageLog = StageLog(stages: seq<Stage>, open: map<string, seq<nat>>)

  /** `open_stages.get(role, [])`. */
  function OpenOf(open: map<string, seq<nat>>, role: string): seq<nat> {
    if role in open then open[role] else []
  }

  /** A stage of `role` still waiting for its `llm_done`. */
  predicate IsOpen(s: Stage, role: string) {
    s.role == Some(role) && s.doneTs == JNull && s.doneChars == None
  }

  /** A role's stack: open stages of that role, oldest first. */
  predicate OpenStack(stages: seq<Stage>, role: string, ids: seq<nat>) {
    && (forall k :: 0 <= k < |ids| ==> ids[k] < |stages| && IsOpen(stages[ids[k]], role))
    && (forall i, j :: 0 <= i < j < |ids| ==> ids[i] < ids[j])
  }

  /** The invariant of the stage bookkeeping. */
  predicate ValidLog(log: StageLog) {
    forall role :: role in log.open ==> OpenStack(log.stages, role, log.open[role])
  }

  /** An `llm_req`: a new stage, pushed on its role's stack when the role is truthy. */
  function OpenRequest(log: StageLog, e: Event): StageLog {
    var role := RoleOf(e);
    var entry := Stage(role, Get(e, "ts"), JNull, CharsOf(Get(DataOf(e), "prompt")), None);
    var open := if HasRole(role) then log.open[role.value := OpenOf(log.open, role.value) + [|log.stages|]] else log.open;
    StageLog(log.stages + [entry], open)
  }

  /** An `llm_done`: completes the top of its role's stack, or records a stage of its own. */
  function CloseRequest(log: StageLog, e: Event): StageLog
    requires ValidLog(log)
  {
    var role := RoleOf(e);
    var chars := CharsOf(Get(DataOf(e), "response"));
    if HasRole(role) && OpenOf(log.open, role.value) != [] then
      var ids := log.open[role.value];
      var idx := ids[|ids| - 1];
      StageLog(log.stages[idx := log.stages[idx].(doneTs := Get(e, "ts"), doneChars := chars)],
               log.open[role.value := ids[..|ids| - 1]])
    else StageLog(log.stages + [Stage(role, JNull, Get(e, "ts"), None, chars)], log.open)
  }

  lemma OpenRequestValid(log: StageLog, e: Event)
    requires ValidLog(log)
    ensures ValidLog(OpenRequest(log, e))
  {
    var next := OpenRequest(log, e);
    forall role | role in next.open
      ensures OpenStack(next.stages, role, next.open[role])
    {
      var ids := OpenOf(log.open, role);
      assert OpenStack(log.stages, role, ids);
      forall k | 0 <= k < |ids|
        ensures next.stages[ids[k]] == log.stages[ids[k]]
      {
      }
    }
  }

  lemma CloseRequestValid(log: StageLog, e: Event)
    requires ValidLog(log)
    ensures ValidLog(CloseRequest(log, e))
  {
    var next := CloseRequest(log, e);
    var role := RoleOf(e);
    if HasRole(role) && OpenOf(log.open, role.value) != [] {
      var ids := log.open[role.value];
      var idx := ids[|ids| - 1];
      forall r | r in next.open
        ensures OpenStack(next.stages, r, next.open[r])
      {
        var rs := log.open[r];
        assert OpenStack(log.stages, r, rs);
        forall k | 0 <= k < |next.open[r]|
          ensures next.open[r][k] != idx
        {
          if r == role.value {
            assert next.open[r][k] == ids[k];
          } else {
            assert log.stages[idx].role == Some(role.value);
          }
        }
      }
    } else {
      forall r | r in next.open
        ensures OpenStack(next.stages, r, next.open[r])
      {
        assert OpenStack(log.stages, r, log.open[r]);
      }
    }
  }

  /** One event's effect on the stages. */
  function StageStep(log: StageLog, e: Event): (next: StageLog)
    requires ValidLog(log)
    ensures ValidLog(next)
  {
    if IsKind(e, "llm_req") then OpenRequestValid(log, e); OpenRequest(log, e)
    else if IsKind(e, "llm_done") then CloseRequestValid(log, e); CloseRequest(log, e)
    else log
  }

  /** The stages after a run of events. */
  function Log(events: seq<Event>): (log: StageLog)
    ensures ValidLog(log)
  {
    if events == [] then StageLog([], map[])
    else StageStep(Log(events[..|events| - 1]), events[|events| - 1])
  }

  /**
   * An `llm_done` of a truthy role with open stages completes the most recent
   * of them and changes no other stage; otherwise it adds a stage of its own
   * that has no request.
   */
  lemma DoneClosesLatest(log: StageLog, e: Event)
    requires ValidLog(log) && IsKind(e, "llm_done")
    ensures var next := StageStep(log, e);
      var role := RoleOf(e);
      if HasRole(role) && OpenOf(log.open, role.value) != [] then
        var ids := log.open[role.value];
        var idx := ids[|ids| - 1];
        && (forall k :: 0 <= k < |ids| ==> ids[k] <= idx)
        && IsOpen(log.stages[idx], role.value)
        && |next.stages| == |log.stages|
        && next.stages[idx].doneTs == Get(e, "ts") && next.stages[idx].doneChars == CharsOf(Get(DataOf(e), "response"))
        && next.stages[idx].reqTs == log.stages[idx].reqTs && next.stages[idx].reqChars == log.stages[idx].reqChars
        && (forall k :: 0 <= k < |log.stages| && k != idx ==> next.stages[k] == log.stages[k])
        && next.open[role.value] == ids[..|ids| - 1]
      else
        && next.stages[..|log.stages|] == log.stages && |next.stages| == |log.stages| + 1
        && next.stages[|log.stages|].reqTs == JNull && next.stages[|log.stages|].reqChars == None
        && next.stages[|log.stages|].doneTs == Get(e, "ts")
        && next.open == log.open
  {
    var role := RoleOf(e);
    if HasRole(role) && OpenOf(log.open, role.value) != [] {
      var ids := log.open[role.value];
      assert OpenStack(log.stages, role.value, ids);
    }
  }

  /** Under the invariant, the re-request check reduces to: the role still has an open stage. */
  predicate ReqMismatch(log: StageLog, e: Event)
    requires ValidLog(log)
  {
    var role := RoleOf(e);
    && IsKind(e, "llm_req") && HasRole(role) && OpenOf(log.open, role.value) != []
    && var ids := log.open[role.value];
       assert OpenStack(log.stages, role.value, ids);
       log.stages[ids[|ids| - 1]].doneTs == JNull
  }

  /** A new `llm_req` is flagged exactly when its truthy role still has an open stage. */
  lemma ReqMismatchIff(log: StageLog, e: Event)
    requires ValidLog(log)
    ensures ReqMismatch(log, e) <==>
      IsKind(e, "llm_req") && HasRole(RoleOf(e)) && OpenOf(log.open, RoleOf(e).value) != []
  {
    var role := RoleOf(e);
    if IsKind(e, "llm_req") && HasRole(role) && OpenOf(log.open, role.value) != [] {
      assert OpenStack(log.stages, role.value, log.open[role.value]);
    }
  }

  /** Every `llm_req` has a stage and every `llm_done` adds at most one. */
  lemma {:induction false} StageCount(events: seq<Event>)
    ensures KindCount(events, "llm_req") <= |Log(events).stages|
              <= KindCount(events, "llm_req") + KindCount(events, "llm_done")
  {
    if events != [] {
      StageCount(events[..|events| - 1]);
    }
  }

  // ------------------------------------------------------------ anomalies seen while folding

  /** The anomalies an event adds while it is folded. */
  function EventAnomalies(log: StageLog, e: Event, repr: Repr): seq<Anomaly>
    requires ValidLog(log)
  {
    var data := DataOf(e);
    (if IsKind(e, "trace_parse_error")
     then [MakeAnomaly("trace_parse_error", "warn", "line=" + PyStr(Get(data, "line"), repr))] else [])
    + (if ReqMismatch(log, e)
       then [MakeAnomaly("llm_req_done_mismatch", "warn", "role=" + RoleOf(e).value + " missing llm_done before new llm_req")]
       else [])
    + (if IsKind(e, "sanitize_warning")
       then [MakeAnomaly("sanitize_warning", "warn", PyStr(GetOr(data, "message", JStr("sanitize_warning")), repr))]
       else [])
    + (if IsKind(e, "tool_calls_parse_warning")
       then [MakeAnomaly("tool_calls_parse_warning", "warn", PyStr(GetOr(data, "reason", JStr("parse_warning")), repr))]
       else [])
  }

  function LoopAnomalies(events: seq<Event>, repr: Repr): seq<Anomaly> {
    if events == [] then []
    else
      var init := events[..|events| - 1];
      LoopAnomalies(init, repr) + EventAnomalies(Log(init), events[|events| - 1], repr)
  }

  // ------------------------------------------------------------ tool calls

  datatype ToolEntry = ToolEntry(id: string, tool: Json, args: Json, durationMs: Json, ok: Json, error: Json, truncated: bool)

  /**
   * The tool bookkeeping: the entries and their insertion order (the order
   * of the Python dict), `tool_order`, the started and the finished ids, and
   * the tool names reported truncated.
   */
  datatype ToolLog = ToolLog(entries: map<string, ToolEntry>, entryOrder: seq<string>, toolOrder: seq<string>,
                             startIds: set<string>, doneIds: set<string>, truncatedTools: set<string>)

  const NoTools := ToolLog(map[], [], [], {}, {}, {})

  function NewEntry(id: string, data: map<string, Json>): ToolEntry {
    ToolEntry(id, Get(data, "tool"), Get(data, "args"), JNull, JNull, JNull, false)
  }

  /** `tool_entries.setdefault(id, ...)`: an existing entry is kept as it is. */
  function Register(t: ToolLog, id: string, data: map<string, Json>): (r: ToolLog)
    ensures id in r.entries
  {
    if id in t.entries then t
    else t.(entries := t.entries[id := NewEntry(id, data)], entryOrder := t.entryOrder + [id])
  }

  /** A `tool_start` with a string id. */
  function StartTool(t: ToolLog, id: string, data: map<string, Json>): ToolLog {
    var r := Register(t, id, data);
    r.(startIds := t.startIds + {id}, toolOrder := if id in t.toolOrder then t.toolOrder else t.toolOrder + [id])
  }

  /** What a `tool_done` writes into its entry: tool and args only when present, the outcome always. */
  function Completed(entry: ToolEntry, data: map<string, Json>): ToolEntry {
    entry.(tool := GetOr(data, "tool", entry.tool), args := GetOr(data, "args", entry.args),
           durationMs := Get(data, "duration_ms"), ok := Get(data, "ok"), error := Get(data, "error"))
  }

  /** A `tool_done` with a string id. */
  function FinishTool(t: ToolLog, id: string, data: map<string, Json>): ToolLog {
    var r := Register(t, id, data);
    r.(doneIds := t.doneIds + {id}, entries := r.entries[id := Completed(r.entries[id], data)])
  }

  /** The strings of a list; nothing when the value is not a list. */
  function StringsIn(v: Json): set<string> {
    if v.JArr? then set x | x in v.items && x.JStr? :: x.s else {}
  }

  /** One event's effect on the tool bookkeeping. */
  function ToolStep(t: ToolLog, e: Event): ToolLog {
    var data := DataOf(e);
    var id := Get(data, "id");
    if IsKind(e, "tool_start") then (if id.JStr? then StartTool(t, id.s, data) else t)
    else if IsKind(e, "tool_done") then (if id.JStr? then FinishTool(t, id.s, data) else t)
    else if IsKind(e, "tool_result_truncated") then
      t.(truncatedTools := t.truncatedTools + StringsIn(Get(data, "tools")))
    else t
  }

  /** The invariant of the tool bookkeeping. */
  ghost predicate ValidTools(t: ToolLog) {
    && Condense.NoDup(t.entryOrder) && (forall id :: id in t.entries <==> id in t.entryOrder)
    && (forall id :: id in t.entries ==> t.entries[id].id == id)
    && Condense.NoDup(t.toolOrder) && (forall id :: id in t.toolOrder <==> id in t.startIds)
    && t.startIds <= t.entries.Keys && t.doneIds <= t.entries.Keys
  }

  lemma RegisterValid(t: ToolLog, id: string, data: map<string, Json>)
    requires ValidTools(t)
    ensures ValidTools(Register(t, id, data))
  {
  }

  lemma StartToolValid(t: ToolLog, id: string, data: map<string, Json>)
    requires ValidTools(t)
    ensures ValidTools(StartTool(t, id, data))
  {
    RegisterValid(t, id, data);
  }

  lemma FinishToolValid(t: ToolLog, id: string, data: map<string, Json>)
    requires ValidTools(t)
    ensures ValidTools(FinishTool(t, id, data))
  {
    RegisterValid(t, id, data);
  }

  lemma ToolStepValid(t: ToolLog, e: Event)
    requires ValidTools(t)
    ensures ValidTools(ToolStep(t, e))
  {
    var data := DataOf(e);
    var id := Get(data, "id");
    if IsKind(e, "tool_start") && id.JStr? {
      StartToolValid(t, id.s, data);
    } else if IsKind(e, "tool_done") && id.JStr? {
      FinishToolValid(t, id.s, data);
    }
  }

  /** The tool bookkeeping after a run of events. */
  function Tools(events: seq<Event>): (t: ToolLog)
    ensures ValidTools(t)
  {
    if events == [] then NoTools
    else
      var prev := Tools(events[..|events| - 1]);
      ToolStepValid(prev, events[|events| - 1]);
      ToolStep(prev, events[|events| - 1])
  }

  /** An event of the given kind whose `id` is the string `id`. */
  predicate CarriesId(e: Event, kind: string, id: string) {
    IsKind(e, kind) && Get(DataOf(e), "id") == JStr(id)
  }

  /** One event adds its id to the started or the finished ids, and nothing else does. */
  lemma ToolStepIds(t: ToolLog, e: Event, id: string)
    ensures id in ToolStep(t, e).startIds <==> id in t.startIds || CarriesId(e, "tool_start", id)
    ensures id in ToolStep(t, e).doneIds <==> id in t.doneIds || CarriesId(e, "tool_done", id)
  {
  }

  /** The string ids of the events of one kind. */
  function IdsOfKind(events: seq<Event>, kind: string): set<string> {
    if events == [] then {}
    else
      var e := events[|events| - 1];
      var id := Get(DataOf(e), "id");
      IdsOfKind(events[..|events| - 1], kind) + (if IsKind(e, kind) && id.JStr? then {id.s} else {})
  }

  lemma {:induction false} IdsOfKindMember(events: seq<Event>, kind: string, id: string)
    ensures id in IdsOfKind(events, kind) <==> exists k :: 0 <= k < |events| && CarriesId(events[k], kind, id)
  {
    if events != [] {
      var init := events[..|events| - 1];
      IdsOfKindMember(init, kind, id);
      if exists k :: 0 <= k < |init| && CarriesId(init[k], kind, id) {
        var k :| 0 <= k < |init| && CarriesId(init[k], kind, id);
        assert events[k] == init[k];
      }
      if exists k :: 0 <= k < |events| && CarriesId(events[k], kind, id) {
        var k :| 0 <= k < |events| && CarriesId(events[k], kind, id);
        if k < |init| {
          assert events[k] == init[k];
        }
      }
    }
  }

  /** The started and the finished ids are the ids of the `tool_start` and of the `tool_done` events. */
  lemma {:induction false} IdsAre(events: seq<Event>)
    ensures Tools(events).startIds == IdsOfKind(events, "tool_start")
    ensures Tools(events).doneIds == IdsOfKind(events, "tool_done")
  {
    if events != [] {
      var init := events[..|events| - 1];
      IdsAre(init);
      forall id
        ensures id in Tools(events).startIds <==> id in IdsOfKind(events, "tool_start")
        ensures id in Tools(events).doneIds <==> id in IdsOfKind(events, "tool_done")
      {
        ToolStepIds(Tools(init), events[|events| - 1], id);
      }
    }
  }

  /** `tool_order` holds exactly the ids of the `tool_start` events, once each; ids seen only in `tool_done` are not in it. */
  lemma ToolOrderStarted(events: seq<Event>, id: string)
    ensures Condense.NoDup(Tools(events).toolOrder)
    ensures id in Tools(events).toolOrder <==> exists k :: 0 <= k < |events| && CarriesId(events[k], "tool_start", id)
  {
    IdsAre(events);
    IdsOfKindMember(events, "tool_start", id);
  }

  /** The finished ids are those of the `tool_done` events. */
  lemma DoneIdsOf(events: seq<Event>, id: string)
    ensures id in Tools(events).doneIds <==> exists k :: 0 <= k < |events| && CarriesId(events[k], "tool_done", id)
  {
    IdsAre(events);
    IdsOfKindMember(events, "tool_done", id);
  }


  /** The position of the first `tool_start` of an id. */
  function FirstStart(events: seq<Event>, id: string): (k: nat)
    requires id in IdsOfKind(events, "tool_start")
    ensures k < |events| && CarriesId(events[k], "tool_start", id)
  {
    var init := events[..|events| - 1];
    if id in IdsOfKind(init, "tool_start") then FirstStart(init, id) else |init|
  }

  /** The ids of `order` come in the order of their first `tool_start`. */
  predicate StartOrdered(order: seq<string>, events: seq<Event>) {
    forall p, q :: 0 <= p < q < |order| ==>
      order[p] in IdsOfKind(events, "tool_start") && order[q] in IdsOfKind(events, "tool_start")
      && FirstStart(events, order[p]) < FirstStart(events, order[q])
  }

  /** `tool_order` lists the started ids in the order of their first `tool_start`. */
  lemma {:induction false} ToolOrderFirstStart(events: seq<Event>)
    ensures StartOrdered(Tools(events).toolOrder, events)
  {
    if events != [] {
      var init := events[..|events| - 1];
      var last := events[|events| - 1];
      ToolOrderFirstStart(init);
      IdsAre(init);
      var prev := Tools(init).toolOrder;
      StartOrderedGrow(prev, events);
      ToolOrderStep(Tools(init), last);
      if Tools(events).toolOrder != prev {
        StartOrderedAppend(prev, events, Tools(events).toolOrder[|prev|]);
        assert Tools(events).toolOrder == prev + [Tools(events).toolOrder[|prev|]];
      }
    }
  }

  /** A later event keeps the order of ids started before it. */
  lemma StartOrderedGrow(order: seq<string>, events: seq<Event>)
    requires events != [] && StartOrdered(order, events[..|events| - 1])
    requires forall p :: 0 <= p < |order| ==> order[p] in IdsOfKind(events[..|events| - 1], "tool_start")
    ensures StartOrdered(order, events)
  {
    forall p | 0 <= p < |order|
      ensures order[p] in IdsOfKind(events, "tool_start")
      ensures FirstStart(events, order[p]) == FirstStart(events[..|events| - 1], order[p])
    {
    }
  }

  /** An id first started by the last event comes after every id started before. */
  lemma StartOrderedAppend(order: seq<string>, events: seq<Event>, id: string)
    requires events != [] && StartOrdered(order, events)
    requires forall p :: 0 <= p < |order| ==> order[p] in IdsOfKind(events[..|events| - 1], "tool_start")
    requires id !in IdsOfKind(events[..|events| - 1], "tool_start") && CarriesId(events[|events| - 1], "tool_start", id)
    ensures StartOrdered(order + [id], events)
  {
    var ext := order + [id];
    assert id in IdsOfKind(events, "tool_start") && FirstStart(events, id) == |events| - 1;
    forall p, q | 0 <= p < q < |ext|
      ensures ext[p] in IdsOfKind(events, "tool_start") && ext[q] in IdsOfKind(events, "tool_start")
      ensures FirstStart(events, ext[p]) < FirstStart(events, ext[q])
    {
      assert ext[p] == order[p];
      if q < |order| {
        assert ext[q] == order[q];
      } else {
        assert ext[q] == id;
      }
    }
  }

  /** `tool_order` only ever grows by the id of a first `tool_start`. */
  lemma ToolOrderStep(t: ToolLog, e: Event)
    requires ValidTools(t)
    ensures var next := ToolStep(t, e).toolOrder;
      next == t.toolOrder
      || (&& |next| == |t.toolOrder| + 1 && next[..|t.toolOrder|] == t.toolOrder
          && next[|t.toolOrder|] !in t.startIds && CarriesId(e, "tool_start", next[|t.toolOrder|]))
  {
  }

  // ------------------------------------------------------------ after the fold

  /** An entry is marked truncated when its tool's name was reported truncated. */
  function Mark(entry: ToolEntry, names: set<string>): ToolEntry {
    if entry.tool.JStr? && entry.tool.s in names then entry.(truncated := true) else entry
  }

  function MarkAll(entries: map<string, ToolEntry>, names: set<string>): (r: map<string, ToolEntry>)
    ensures r.Keys == entries.Keys
  {
    map id | id in entries :: Mark(entries[id], names)
  }

  /** A high-severity `tool_missing_done` for every listed id that never finished. */
  function MissingDone(order: seq<string>, done: set<string>): (r: seq<Anomaly>)
    ensures forall a :: a in r ==> a.code == "tool_missing_done"
  {
    if order == [] then []
    else
      var id := order[|order| - 1];
      MissingDone(order[..|order| - 1], done)
      + (if id !in done then [MakeAnomaly("tool_missing_done", "high", "id=" + id)] else [])
  }

  /** The `tool_failed` anomaly of an entry: its tool and its error, as `str` renders them. */
  function FailedAnomaly(entry: ToolEntry, repr: Repr): Anomaly {
    MakeAnomaly("tool_failed", "high", PyStr(entry.tool, repr) + ": " + PyStr(entry.error, repr))
  }

  /** A high-severity `tool_failed` for every entry, in entry order, whose `ok` is `False`. */
  function FailedTools(order: seq<string>, entries: map<string, ToolEntry>, repr: Repr): (r: seq<Anomaly>)
    requires forall id :: id in order ==> id in entries
    ensures forall a :: a in r ==> a.code == "tool_failed"
  {
    if order == [] then []
    else
      var entry := entries[order[|order| - 1]];
      FailedTools(order[..|order| - 1], entries, repr)
      + (if entry.ok == JBool(false) then [FailedAnomaly(entry, repr)] else [])
  }

  /** The totals check: one anomaly when the request and completion counts differ. */
  function TotalsMismatch(requests: nat, completions: nat): (r: seq<Anomaly>)
    ensures forall a :: a in r ==> a.code == "llm_req_done_mismatch" && "llm_req=" <= a.evidence
  {
    if requests != completions
    then [MakeAnomaly("llm_req_done_mismatch", "warn",
                      "llm_req=" + IntToString(requests) + " llm_done=" + IntToString(completions))]
    else []
  }

  /** The leak check on the final visible response. */
  function VisibleLeak(final: Option<string>, decode: Decoder): (r: seq<Anomaly>)
    ensures forall a :: a in r ==> a.code == "visible_tool_json_leak"
  {
    if final.Some? && final.value != "" && BareToolJson(final.value, decode)
    then [MakeAnomaly("visible_tool_json_leak", "high", Prefix(final.value, 200))]
    else []
  }

  function TruncatedResults(seen: bool): (r: seq<Anomaly>)
    ensures forall a :: a in r ==> a.code == "tool_results_truncated"
  {
    if seen then [MakeAnomaly("tool_results_truncated", "warn", "tool_results_truncated")] else []
  }

  /** The anomalies raised after the loop, appended to those the loop raised. */
  function Assemble(loop: seq<Anomaly>, t: ToolLog, requests: nat, completions: nat, final: Option<string>,
                    truncated: bool, decode: Decoder, repr: Repr): seq<Anomaly>
    requires forall id :: id in t.entryOrder ==> id in t.entries
  {
    loop
    + MissingDone(t.toolOrder, t.doneIds)
    + FailedTools(t.entryOrder, MarkAll(t.entries, t.truncatedTools), repr)
    + TotalsMismatch(requests, completions)
    + VisibleLeak(final, decode)
    + TruncatedResults(truncated)
  }

  /** All anomalies of a trace, in the order they are raised. */
  function AnomaliesOf(events: seq<Event>, decode: Decoder, repr: Repr): seq<Anomaly> {
    Assemble(LoopAnomalies(events, repr), Tools(events), KindCount(events, "llm_req"), KindCount(events, "llm_done"),
             FinalVisible(events), KindCount(events, "tool_result_truncated") > 0, decode, repr)
  }

  /** The recommendation an anomaly code calls for. */
  function Recommendation(code: string): Option<map<string, string>> {
    var pair :=
      if code == "visible_tool_json_leak" then
        Some(("Add or extend tool-call parsing tests for bare JSON leaks.", "Visible output contained a tool-call payload."))
      else if code == "tool_calls_parse_warning" then
        Some(("Prefer canonical TOOL_CALLS_JSON wrapper in prompts.", "Tool-call parser emitted warnings."))
      else if code == "tool_failed" then
        Some(("Verify tool args and allowlists for failing tool.", "Tool execution returned ok=false."))
      else if code == "tool_missing_done" then
        Some(("Inspect tool executor for missing tool_done events.", "Tool started without completion."))
      else if code == "sanitize_warning" then
        Some(("Review sanitizer rules for unexpected output removal.", "Sanitizer reported empty output."))
      else if code == "tool_results_truncated" then
        Some(("Reduce tool output size or raise tool result budget.", "Tool results were truncated."))
      else if code == "llm_req_done_mismatch" then
        Some(("Check trace logging around llm_req/llm_done.", "Trace has mismatched request/response events."))
      else if code == "trace_parse_error" then
        Some(("Validate trace JSONL writer integrity.", "Trace contains invalid JSON lines."))
      else None;
    if pair.Some? then Some(map["action" := pair.value.0, "rationale" := pair.value.1]) else None
  }

  /** The recommendations of the anomalies, in order, before deduplication. */
  function Recommendations(anomalies: seq<Anomaly>): seq<map<string, string>> {
    if anomalies == [] then []
    else
      var r := Recommendation(anomalies[|anomalies| - 1].code);
      Recommendations(anomalies[..|anomalies| - 1]) + (if r.Some? then [r.value] else [])
  }

  /** `[tool_entries[id] for id in tool_order]`. */
  function ToolList(order: seq<string>, entries: map<string, ToolEntry>): (r: seq<ToolEntry>)
    requires forall id :: id in order ==> id in entries
    ensures |r| == |order| && forall k :: 0 <= k < |order| ==> r[k] == entries[order[k]]
  {
    seq(|order|, k requires 0 <= k < |order| => entries[order[k]])
  }

  /** The parts of the autopsy this model computes. */
  datatype Report = Report(
    stages: seq<Stage>,
    tools: seq<ToolEntry>,
    sanitizerActions: seq<map<string, Json>>,
    sanitizerWarnings: seq<map<string, Json>>,
    anomalies: seq<Anomaly>,
    recommendations: seq<map<string, string>>)

  /** The reference autopsy of a run of events. */
  function AutopsyOf(events: seq<Event>, decode: Decoder, repr: Repr): Report {
    var t := Tools(events);
    var anomalies := AnomaliesOf(events, decode, repr);
    Report(Log(events).stages, ToolList(t.toolOrder, MarkAll(t.entries, t.truncatedTools)),
           DataOfKind(events, "sanitize"), DataOfKind(events, "sanitize_warning"),
           anomalies, DedupeSpec(Recommendations(anomalies)))
  }

  // ------------------------------------------------------------ the fold, step by step

  /**
   * The loop's local state: stages and open stages, the tool bookkeeping,
   * the sanitizer records, the anomalies, the two counters and the final
   * visible response.
   */
  datatype Scan = Scan(log: StageLog, tools: ToolLog, actions: seq<map<string, Json>>,
                       warnings: seq<map<string, Json>>, anomalies: seq<Anomaly>,
                       requests: nat, completions: nat, final: Option<string>)

  /** The loop's state after a prefix of the events. */
  ghost predicate Scanned(events: seq<Event>, repr: Repr, s: Scan) {
    && s.log == Log(events) && s.tools == Tools(events)
    && s.actions == DataOfKind(events, "sanitize") && s.warnings == DataOfKind(events, "sanitize_warning")
    && s.anomalies == LoopAnomalies(events, repr)
    && s.requests == KindCount(events, "llm_req") && s.completions == KindCount(events, "llm_done")
    && s.final == FinalVisible(events)
  }

  /** The folds of a run extended by one event. */
  lemma FoldSnoc(events: seq<Event>, e: Event, repr: Repr)
    ensures Log(events + [e]) == StageStep(Log(events), e)
    ensures Tools(events + [e]) == ToolStep(Tools(events), e)
    ensures LoopAnomalies(events + [e], repr) == LoopAnomalies(events, repr) + EventAnomalies(Log(events), e, repr)
    ensures DataOfKind(events + [e], "sanitize") == DataOfKind(events, "sanitize") + (if IsKind(e, "sanitize") then [DataOf(e)] else [])
    ensures DataOfKind(events + [e], "sanitize_warning")
            == DataOfKind(events, "sanitize_warning") + (if IsKind(e, "sanitize_warning") then [DataOf(e)] else [])
    ensures KindCount(events + [e], "llm_req") == KindCount(events, "llm_req") + (if IsKind(e, "llm_req") then 1 else 0)
    ensures KindCount(events + [e], "llm_done") == KindCount(events, "llm_done") + (if IsKind(e, "llm_done") then 1 else 0)
    ensures FinalVisible(events + [e]) == if VisibleText(e).Some? then VisibleText(e) else FinalVisible(events)
  {
    assert (events + [e])[..|events|] == events;
  }

  /** The `llm_req` branch. */
  method RecordRequest(log: StageLog, event: Event, repr: Repr) returns (log': StageLog, flagged: seq<Anomaly>)
    requires ValidLog(log) && IsKind(event, "llm_req")
    ensures log' == StageStep(log, event)
    ensures flagged == EventAnomalies(log, event, repr)
  {
    var data := DataOf(event);
    var role := RoleOf(event);
    var stages, openStages := log.stages, log.open;
    flagged := [];
    if HasRole(role) && role.value in openStages && openStages[role.value] != [] {
      var ids := openStages[role.value];
      assert OpenStack(stages, role.value, ids);
      if stages[ids[|ids| - 1]].doneTs == JNull {
        flagged := [MakeAnomaly("llm_req_done_mismatch", "warn", "role=" + role.value + " missing llm_done before new llm_req")];
      }
    }
    var entry := Stage(role, Get(event, "ts"), JNull, CharsOf(Get(data, "prompt")), None);
    if HasRole(role) {
      openStages := openStages[role.value := OpenOf(openStages, role.value) + [|stages|]];
    }
    stages := stages + [entry];
    log' := StageLog(stages, openStages);
  }

  /** The `llm_done` branch. */
  method RecordCompletion(log: StageLog, event: Event) returns (log': StageLog)
    requires ValidLog(log) && IsKind(event, "llm_done")
    ensures log' == StageStep(log, event)
  {
    var data := DataOf(event);
    var role := RoleOf(event);
    var chars := CharsOf(Get(data, "response"));
    var stages, openStages := log.stages, log.open;
    if HasRole(role) && role.value in openStages && openStages[role.value] != [] {
      var ids := openStages[role.value];
      var idx := ids[|ids| - 1];
      assert OpenStack(stages, role.value, ids);
      openStages := openStages[role.value := ids[..|ids| - 1]];
      stages := stages[idx := stages[idx].(doneTs := Get(event, "ts"), doneChars := chars)];
    } else {
      stages := stages + [Stage(role, JNull, Get(event, "ts"), None, chars)];
    }
    log' := StageLog(stages, openStages);
  }

  /** The `tool_start` branch. */
  method RecordStart(t: ToolLog, event: Event) returns (t': ToolLog)
    requires IsKind(event, "tool_start")
    ensures t' == ToolStep(t, event)
  {
    var data := DataOf(event);
    var id := Get(data, "id");
    t' := t;
    if id.JStr? {
      var startIds := t.startIds + {id.s};
      var entries := t.entries;
      var entryOrder := t.entryOrder;
      if id.s !in entries {
        entries := entries[id.s := NewEntry(id.s, data)];
        entryOrder := entryOrder + [id.s];
      }
      var toolOrder := t.toolOrder;
      if id.s !in toolOrder {
        toolOrder := toolOrder + [id.s];
      }
      t' := t.(entries := entries, entryOrder := entryOrder, toolOrder := toolOrder, startIds := startIds);
    }
  }

  /** The `tool_done` branch. */
  method RecordDone(t: ToolLog, event: Event) returns (t': ToolLog)
    requires IsKind(event, "tool_done")
    ensures t' == ToolStep(t, event)
  {
    var data := DataOf(event);
    var id := Get(data, "id");
    t' := t;
    if id.JStr? {
      var doneIds := t.doneIds + {id.s};
      var entries := t.entries;
      var entryOrder := t.entryOrder;
      if id.s !in entries {
        entries := entries[id.s := NewEntry(id.s, data)];
        entryOrder := entryOrder + [id.s];
      }
      var entry := entries[id.s];
      entry := entry.(tool := GetOr(data, "tool", entry.tool), args := GetOr(data, "args", entry.args));
      entry := entry.(durationMs := Get(data, "duration_ms"), ok := Get(data, "ok"), error := Get(data, "error"));
      entries := entries[id.s := entry];
      t' := t.(entries := entries, entryOrder := entryOrder, doneIds := doneIds);
    }
  }

  /** The `tool_result_truncated` branch. */
  method RecordTruncated(t: ToolLog, event: Event) returns (t': ToolLog)
    requires IsKind(event, "tool_result_truncated")
    ensures t' == ToolStep(t, event)
  {
    var tools := Get(DataOf(event), "tools");
    t' := t;
    if tools.JArr? {
      var names := t.truncatedTools;
      var k := 0;
      while k < |tools.items|
        invariant k <= |tools.items|
        invariant names == t.truncatedTools + set x | x in tools.items[..k] && x.JStr? :: x.s
      {
        assert tools.items[..k + 1] == tools.items[..k] + [tools.items[k]];
        if tools.items[k].JStr? {
          names := names + {tools.items[k].s};
        }
        k := k + 1;
      }
      assert tools.items[..k] == tools.items;
      t' := t.(truncatedTools := names);
    }
  }

  /** The `llm_req` and `llm_done` branches of the loop. */
  method FoldLlm(ghost prefix: seq<Event>, event: Event, repr: Repr, s: Scan) returns (s': Scan)
    requires Scanned(prefix, repr, s) && (IsKind(event, "llm_req") || IsKind(event, "llm_done"))
    ensures Scanned(prefix + [event], repr, s')
  {
    FoldSnoc(prefix, event, repr);
    if IsKind(event, "llm_req") {
      var log, flagged := RecordRequest(s.log, event, repr);
      s' := s.(log := log, anomalies := s.anomalies + flagged, requests := s.requests + 1);
    } else {
      var log := RecordCompletion(s.log, event);
      s' := s.(log := log, completions := s.completions + 1);
    }
  }

  /** The `tool_start`, `tool_done` and `tool_result_truncated` branches of the loop. */
  method FoldTool(ghost prefix: seq<Event>, event: Event, repr: Repr, s: Scan) returns (s': Scan)
    requires Scanned(prefix, repr, s)
    requires IsKind(event, "tool_start") || IsKind(event, "tool_done") || IsKind(event, "tool_result_truncated")
    ensures Scanned(prefix + [event], repr, s')
  {
    FoldSnoc(prefix, event, repr);
    var tools;
    if IsKind(event, "tool_start") {
      tools := RecordStart(s.tools, event);
    } else if IsKind(event, "tool_done") {
      tools := RecordDone(s.tools, event);
    } else {
      tools := RecordTruncated(s.tools, event);
    }
    s' := s.(tools := tools);
  }

  /** An event of none of the stage and tool kinds changes neither the stages nor the tools. */
  lemma QuietStep(log: StageLog, t: ToolLog, e: Event)
    requires ValidLog(log)
    requires !IsKind(e, "llm_req") && !IsKind(e, "llm_done")
    requires !IsKind(e, "tool_start") && !IsKind(e, "tool_done") && !IsKind(e, "tool_result_truncated")
    ensures StageStep(log, e) == log && ToolStep(t, e) == t && !ReqMismatch(log, e)
  {
  }

  /** The `sanitize_warning` and `tool_calls_parse_warning` branches of the loop. */
  method FoldWarning(ghost prefix: seq<Event>, event: Event, repr: Repr, s: Scan) returns (s': Scan)
    requires Scanned(prefix, repr, s)
    requires IsKind(event, "sanitize_warning") || IsKind(event, "tool_calls_parse_warning")
    ensures Scanned(prefix + [event], repr, s')
  {
    FoldSnoc(prefix, event, repr);
    QuietStep(s.log, s.tools, event);
    var data := DataOf(event);
    var warning;
    if IsKind(event, "sanitize_warning") {
      warning := MakeAnomaly("sanitize_warning", "warn", PyStr(GetOr(data, "message", JStr("sanitize_warning")), repr));
      s' := s.(warnings := s.warnings + [data]);
    } else {
      warning := MakeAnomaly("tool_calls_parse_warning", "warn", PyStr(GetOr(data, "reason", JStr("parse_warning")), repr));
      s' := s;
    }
    assert EventAnomalies(s.log, event, repr) == [warning];
    s' := s'.(anomalies := s.anomalies + [warning]);
  }

  /**
   * The `trace_parse_error` check and the `sanitize` and `visible_response`
   * branches. The source checks `trace_parse_error` before its chain of
   * kinds; the kinds exclude each other, so only events of none of the
   * chain's other kinds reach it.
   */
  method FoldOther(ghost prefix: seq<Event>, event: Event, repr: Repr, s: Scan) returns (s': Scan)
    requires Scanned(prefix, repr, s)
    requires !IsKind(event, "llm_req") && !IsKind(event, "llm_done")
    requires !IsKind(event, "tool_start") && !IsKind(event, "tool_done") && !IsKind(event, "tool_result_truncated")
    requires !IsKind(event, "sanitize_warning") && !IsKind(event, "tool_calls_parse_warning")
    ensures Scanned(prefix + [event], repr, s')
  {
    FoldSnoc(prefix, event, repr);
    QuietStep(s.log, s.tools, event);
    var data := DataOf(event);
    s' := s;
    if IsKind(event, "trace_parse_error") {
      s' := s.(anomalies := s.anomalies + [MakeAnomaly("trace_parse_error", "warn", "line=" + PyStr(Get(data, "line"), repr))]);
    } else if IsKind(event, "sanitize") {
      s' := s.(actions := s.actions + [data]);
    } else if IsKind(event, "visible_response") {
      var visible := Get(data, "visible_response");
      if visible.JStr? {
        s' := s.(final := Some(visible.s));
      }
    }
  }

  /** One pass of the loop of `autopsy_from_trace`. */
  method FoldEvent(ghost prefix: seq<Event>, event: Event, repr: Repr, s: Scan) returns (s': Scan)
    requires Scanned(prefix, repr, s)
    ensures Scanned(prefix + [event], repr, s')
  {
    if IsKind(event, "llm_req") || IsKind(event, "llm_done") {
      s' := FoldLlm(prefix, event, repr, s);
    } else if IsKind(event, "tool_start") || IsKind(event, "tool_done") || IsKind(event, "tool_result_truncated") {
      s' := FoldTool(prefix, event, repr, s);
    } else if IsKind(event, "sanitize_warning") || IsKind(event, "tool_calls_parse_warning") {
      s' := FoldWarning(prefix, event, repr, s);
    } else {
      s' := FoldOther(prefix, event, repr, s);
    }
  }

  /**
   * `autopsy_from_trace` on the lines of the trace file, as far as this
   * model goes. Reading the file and splitting it with `splitlines()` is
   * left to the caller: `lines` is that list.
   */
  method AutopsyFromTrace(lines: seq<string>, decode: Decoder, repr: Repr) returns (report: Report)
    ensures report == AutopsyOf(TraceEventsOf(lines, decode), decode, repr)
  {
    var events := LoadTraceEvents(lines, decode);
    var s := ScanEvents(events, repr);
    report := Conclude(events, decode, repr, s);
  }

  /** The loop of `autopsy_from_trace` over the events. */
  method ScanEvents(events: seq<Event>, repr: Repr) returns (s: Scan)
    ensures Scanned(events, repr, s)
  {
    s := Scan(StageLog([], map[]), NoTools, [], [], [], 0, 0, None);
    var i := 0;
    while i < |events|
      invariant i <= |events| && Scanned(events[..i], repr, s)
    {
      assert events[..i + 1] == events[..i] + [events[i]];
      s := FoldEvent(events[..i], events[i], repr, s);
      i := i + 1;
    }
    assert events[..i] == events;
  }

  /** The loop that marks the entries whose tool's name was reported truncated. */
  method MarkEntries(order: seq<string>, entries: map<string, ToolEntry>, names: set<string>)
    returns (marked: map<string, ToolEntry>)
    requires forall id :: id in entries <==> id in order
    ensures marked == MarkAll(entries, names)
  {
    marked := entries;
    var i := 0;
    while i < |order|
      invariant 0 <= i <= |order|
      invariant marked.Keys == entries.Keys
      invariant forall id :: id in entries ==> marked[id] == if id in order[..i] then Mark(entries[id], names) else entries[id]
    {
      var id := order[i];
      assert order[..i + 1] == order[..i] + [id];
      marked := marked[id := Mark(entries[id], names)];
      i := i + 1;
    }
    assert order[..i] == order;
  }

  /** The loop over the started ids that never finished. */
  method FlagMissing(order: seq<string>, done: set<string>) returns (flagged: seq<Anomaly>)
    ensures flagged == MissingDone(order, done)
  {
    flagged := [];
    var i := 0;
    while i < |order|
      invariant 0 <= i <= |order|
      invariant flagged == MissingDone(order[..i], done)
    {
      var id := order[i];
      assert order[..i + 1][..i] == order[..i];
      if id !in done {
        flagged := flagged + [MakeAnomaly("tool_missing_done", "high", "id=" + id)];
      }
      i := i + 1;
    }
    assert order[..i] == order;
  }

  /** The loop over the entries whose `ok` is `False`. */
  method FlagFailed(order: seq<string>, entries: map<string, ToolEntry>, repr: Repr) returns (flagged: seq<Anomaly>)
    requires forall id :: id in order ==> id in entries
    ensures flagged == FailedTools(order, entries, repr)
  {
    flagged := [];
    var i := 0;
    while i < |order|
      invariant 0 <= i <= |order|
      invariant flagged == FailedTools(order[..i], entries, repr)
    {
      var entry := entries[order[i]];
      assert order[..i + 1][..i] == order[..i];
      if entry.ok == JBool(false) {
        flagged := flagged + [FailedAnomaly(entry, repr)];
      }
      i := i + 1;
    }
    assert order[..i] == order;
  }

  /** The loop that collects the recommendation of each anomaly. */
  method Recommend(anomalies: seq<Anomaly>) returns (items: seq<map<string, string>>)
    ensures items == Recommendations(anomalies)
  {
    items := [];
    var i := 0;
    while i < |anomalies|
      invariant 0 <= i <= |anomalies|
      invariant items == Recommendations(anomalies[..i])
    {
      var advice := Recommendation(anomalies[i].code);
      assert anomalies[..i + 1][..i] == anomalies[..i];
      if advice.Some? {
        items := items + [advice.value];
      }
      i := i + 1;
    }
    assert anomalies[..i] == anomalies;
  }

  /** What follows the loop: the checks over the whole trace, the recommendations and the tool list. */
  method Conclude(events: seq<Event>, decode: Decoder, repr: Repr, s: Scan) returns (report: Report)
    requires Scanned(events, repr, s)
    ensures report == AutopsyOf(events, decode, repr)
  {
    var tools := s.tools;
    var entries := MarkEntries(tools.entryOrder, tools.entries, tools.truncatedTools);
    var anomalies := s.anomalies;
    var missing := FlagMissing(tools.toolOrder, tools.doneIds);
    var failed := FlagFailed(tools.entryOrder, entries, repr);
    anomalies := anomalies + missing + failed;
    anomalies := anomalies + TotalsMismatch(s.requests, s.completions);
    anomalies := anomalies + VisibleLeak(s.final, decode);
    anomalies := anomalies + TruncatedResults(KindCount(events, "tool_result_truncated") > 0);
    assert anomalies == Assemble(s.anomalies, tools, s.requests, s.completions, s.final,
                                 KindCount(events, "tool_result_truncated") > 0, decode, repr);
    var items := Recommend(anomalies);
    var recommendations := Dedupe(items);
    report := Report(s.log.stages, ToolList(tools.toolOrder, entries), s.actions, s.warnings,
                     anomalies, recommendations);
  }

  // ------------------------------------------------------------ properties of the anomalies

  /** An anomaly the loop may raise: one of its four codes, and a request/completion mismatch names a role. */
  predicate RaisedInLoop(a: Anomaly) {
    && a.code in ["trace_parse_error", "llm_req_done_mismatch", "sanitize_warning", "tool_calls_parse_warning"]
    && (a.code == "llm_req_done_mismatch" ==> "role=" <= a.evidence)
  }

  /** What one event raises inside the loop. */
  lemma EventCodes(log: StageLog, e: Event, repr: Repr)
    requires ValidLog(log)
    ensures forall a :: a in EventAnomalies(log, e, repr) ==> RaisedInLoop(a)
  {
    var role := RoleOf(e);
    if ReqMismatch(log, e) {
      var rest := " missing llm_done before new llm_req";
      assert ("role=" + role.value + rest)[..5] == "role=";
    }
  }

  lemma {:induction false} LoopCodes(events: seq<Event>, repr: Repr)
    ensures forall a :: a in LoopAnomalies(events, repr) ==> RaisedInLoop(a)
  {
    if events != [] {
      var init := events[..|events| - 1];
      LoopCodes(init, repr);
      EventCodes(Log(init), events[|events| - 1], repr);
      assert LoopAnomalies(events, repr) == LoopAnomalies(init, repr) + EventAnomalies(Log(init), events[|events| - 1], repr);
    }
  }

  /** `tool_missing_done` is raised once for each listed id that is not finished, and for nothing else. */
  lemma {:induction false} MissingDoneExactly(order: seq<string>, done: set<string>, id: string)
    ensures MakeAnomaly("tool_missing_done", "high", "id=" + id) in MissingDone(order, done) <==> id in order && id !in done
  {
    if order != [] {
      var init, last := order[..|order| - 1], order[|order| - 1];
      MissingDoneExactly(init, done, id);
      assert order == init + [last];
      if MakeAnomaly("tool_missing_done", "high", "id=" + last) == MakeAnomaly("tool_missing_done", "high", "id=" + id) {
        assert last == ("id=" + last)[3..] == ("id=" + id)[3..] == id;
      }
    }
  }

  /** Every listed entry whose `ok` is `False` raises its `tool_failed`. */
  lemma {:induction false} FailedListed(order: seq<string>, entries: map<string, ToolEntry>, repr: Repr, id: string)
    requires forall id :: id in order ==> id in entries
    requires id in order && entries[id].ok == JBool(false)
    ensures FailedAnomaly(entries[id], repr) in FailedTools(order, entries, repr)
  {
    var init, last := order[..|order| - 1], order[|order| - 1];
    assert order == init + [last];
    if id != last {
      FailedListed(init, entries, repr, id);
    }
  }

  /** A `tool_failed` is raised only for a listed entry whose `ok` is `False`. */
  lemma {:induction false} FailedSource(order: seq<string>, entries: map<string, ToolEntry>, repr: Repr, a: Anomaly)
    requires forall id :: id in order ==> id in entries
    ensures a in FailedTools(order, entries, repr) ==>
              exists id :: id in order && entries[id].ok == JBool(false) && a == FailedAnomaly(entries[id], repr)
  {
    if order != [] {
      var init, last := order[..|order| - 1], order[|order| - 1];
      assert order == init + [last];
      FailedSource(init, entries, repr, a);
    }
  }

  /**
   * Where an anomaly comes from, by its code, when the parts of the list
   * carry the codes of the loop and of the five checks after it: every code
   * is one of the eight known ones, and each code raised after the loop has
   * one source.
   */
  lemma PartOrigin(loop: seq<Anomaly>, missing: seq<Anomaly>, failed: seq<Anomaly>, totals: seq<Anomaly>,
                   leak: seq<Anomaly>, truncated: seq<Anomaly>, a: Anomaly)
    requires forall b :: b in loop ==> RaisedInLoop(b)
    requires forall b :: b in missing ==> b.code == "tool_missing_done"
    requires forall b :: b in failed ==> b.code == "tool_failed"
    requires forall b :: b in totals ==> b.code == "llm_req_done_mismatch" && "llm_req=" <= b.evidence
    requires forall b :: b in leak ==> b.code == "visible_tool_json_leak"
    requires forall b :: b in truncated ==> b.code == "tool_results_truncated"
    requires a in loop + missing + failed + totals + leak + truncated
    ensures a.code in KnownCodes
    ensures a.code == "tool_missing_done" ==> a in missing
    ensures a.code == "tool_failed" ==> a in failed
    ensures a.code == "llm_req_done_mismatch" && !("role=" <= a.evidence) ==> a in totals
    ensures a.code == "visible_tool_json_leak" ==> a in leak
    ensures a.code == "tool_results_truncated" ==> a in truncated
  {
  }

  /** A count is positive exactly when some event has the kind. */
  lemma {:induction false} KindCountPositive(events: seq<Event>, kind: string)
    ensures KindCount(events, kind) > 0 <==> exists k :: 0 <= k < |events| && IsKind(events[k], kind)
  {
    if events != [] {
      var init := events[..|events| - 1];
      KindCountPositive(init, kind);
      assert forall k :: 0 <= k < |init| ==> init[k] == events[k];
    }
  }

  /** The final visible response is that of the last event that shows text, and absent when none does. */
  lemma {:induction false} FinalVisibleIsLast(events: seq<Event>)
    ensures FinalVisible(events).None? <==> forall k :: 0 <= k < |events| ==> VisibleText(events[k]).None?
    ensures FinalVisible(events).Some? ==>
              exists k :: 0 <= k < |events| && VisibleText(events[k]) == FinalVisible(events)
                          && forall j :: k < j < |events| ==> VisibleText(events[j]).None?
  {
    if events != [] {
      var init := events[..|events| - 1];
      FinalVisibleIsLast(init);
      assert forall k :: 0 <= k < |init| ==> init[k] == events[k];
      if VisibleText(events[|events| - 1]).None? && FinalVisible(init).Some? {
        var k :| 0 <= k < |init| && VisibleText(init[k]) == FinalVisible(init)
                 && forall j :: k < j < |init| ==> VisibleText(init[j]).None?;
        assert VisibleText(events[k]) == FinalVisible(events);
      }
    }
  }

  /** Every anomaly of a trace has one of the eight known codes. */
  lemma AnomalyCodesKnown(events: seq<Event>, decode: Decoder, repr: Repr)
    ensures forall a :: a in AnomaliesOf(events, decode, repr) ==> a.code in KnownCodes
  {
    forall a | a in AnomaliesOf(events, decode, repr)
      ensures a.code in KnownCodes
    {
      AnomalyOrigin(events, decode, repr, a);
    }
  }

  /** The origin of one anomaly of a trace. */
  lemma AnomalyOrigin(events: seq<Event>, decode: Decoder, repr: Repr, a: Anomaly)
    requires a in AnomaliesOf(events, decode, repr)
    ensures a.code in KnownCodes
    ensures var t := Tools(events);
            a.code == "tool_missing_done" ==> a in MissingDone(t.toolOrder, t.doneIds)
    ensures var t := Tools(events);
            a.code == "tool_failed" ==> a in FailedTools(t.entryOrder, MarkAll(t.entries, t.truncatedTools), repr)
    ensures a.code == "llm_req_done_mismatch" && !("role=" <= a.evidence) ==>
              a in TotalsMismatch(KindCount(events, "llm_req"), KindCount(events, "llm_done"))
    ensures a.code == "visible_tool_json_leak" ==> a in VisibleLeak(FinalVisible(events), decode)
    ensures a.code == "tool_results_truncated" ==> a in TruncatedResults(KindCount(events, "tool_result_truncated") > 0)
  {
    var t := Tools(events);
    LoopCodes(events, repr);
    PartOrigin(LoopAnomalies(events, repr), MissingDone(t.toolOrder, t.doneIds),
               FailedTools(t.entryOrder, MarkAll(t.entries, t.truncatedTools), repr),
               TotalsMismatch(KindCount(events, "llm_req"), KindCount(events, "llm_done")),
               VisibleLeak(FinalVisible(events), decode), TruncatedResults(KindCount(events, "tool_result_truncated") > 0), a);
  }

  /**
   * A tool is reported missing its completion exactly when some `tool_start`
   * carries its id and no `tool_done` does.
   */
  lemma MissingDoneReported(events: seq<Event>, decode: Decoder, repr: Repr, id: string)
    ensures MakeAnomaly("tool_missing_done", "high", "id=" + id) in AnomaliesOf(events, decode, repr)
            <==> && (exists k :: 0 <= k < |events| && CarriesId(events[k], "tool_start", id))
                 && !(exists k :: 0 <= k < |events| && CarriesId(events[k], "tool_done", id))
  {
    var t := Tools(events);
    var missing := MakeAnomaly("tool_missing_done", "high", "id=" + id);
    MissingDoneExactly(t.toolOrder, t.doneIds, id);
    ToolOrderStarted(events, id);
    DoneIdsOf(events, id);
    if missing in AnomaliesOf(events, decode, repr) {
      AnomalyOrigin(events, decode, repr, missing);
    }
  }

  /** Every recorded entry whose `ok` is `False` is reported failed, with its tool and error as the evidence. */
  lemma FailuresReported(events: seq<Event>, decode: Decoder, repr: Repr, id: string)
    ensures var t := Tools(events);
            id in t.entries && t.entries[id].ok == JBool(false) ==>
              FailedAnomaly(t.entries[id], repr) in AnomaliesOf(events, decode, repr)
  {
    var t := Tools(events);
    var marked := MarkAll(t.entries, t.truncatedTools);
    if id in t.entries && t.entries[id].ok == JBool(false) {
      assert marked[id].ok == t.entries[id].ok && FailedAnomaly(marked[id], repr) == FailedAnomaly(t.entries[id], repr);
      FailedListed(t.entryOrder, marked, repr, id);
    }
  }

  /** Marking leaves what a failure reports untouched: a `tool_failed` of the marked entries is one of the entries'. */
  lemma FailedMarkedSource(order: seq<string>, entries: map<string, ToolEntry>, names: set<string>, repr: Repr, a: Anomaly)
    requires forall id :: id in order ==> id in entries
    requires a in FailedTools(order, MarkAll(entries, names), repr)
    ensures exists id :: id in entries && entries[id].ok == JBool(false) && a == FailedAnomaly(entries[id], repr)
  {
    var marked := MarkAll(entries, names);
    FailedSource(order, marked, repr, a);
    var id :| id in order && marked[id].ok == JBool(false) && a == FailedAnomaly(marked[id], repr);
    assert marked[id] == Mark(entries[id], names);
  }

  /** A reported failure is that of a recorded entry whose `ok` is `False`. */
  lemma FailureSource(events: seq<Event>, decode: Decoder, repr: Repr, a: Anomaly)
    ensures a in AnomaliesOf(events, decode, repr) && a.code == "tool_failed" ==>
              exists id :: id in Tools(events).entries && Tools(events).entries[id].ok == JBool(false)
                           && a == FailedAnomaly(Tools(events).entries[id], repr)
  {
    var t := Tools(events);
    if a in AnomaliesOf(events, decode, repr) && a.code == "tool_failed" {
      AnomalyOrigin(events, decode, repr, a);
      FailedMarkedSource(t.entryOrder, t.entries, t.truncatedTools, repr, a);
    }
  }

  /** The totals check reports the two counts exactly when they differ. */
  lemma TotalsReported(events: seq<Event>, decode: Decoder, repr: Repr)
    ensures var requests := KindCount(events, "llm_req");
            var completions := KindCount(events, "llm_done");
            MakeAnomaly("llm_req_done_mismatch", "warn", "llm_req=" + IntToString(requests) + " llm_done=" + IntToString(completions))
              in AnomaliesOf(events, decode, repr)
            <==> requests != completions
  {
    var evidence := "llm_req=" + IntToString(KindCount(events, "llm_req")) + " llm_done=" + IntToString(KindCount(events, "llm_done"));
    var totals := MakeAnomaly("llm_req_done_mismatch", "warn", evidence);
    assert evidence[0] == 'l';
    assert !("role=" <= evidence);
    if totals in AnomaliesOf(events, decode, repr) {
      AnomalyOrigin(events, decode, repr, totals);
    }
  }

  /**
   * A leak is reported exactly when the final visible response is a
   * non-empty bare tool-call payload, with its first 200 characters as the
   * evidence.
   */
  lemma LeakReported(events: seq<Event>, decode: Decoder, repr: Repr, a: Anomaly)
    ensures var final := FinalVisible(events);
            final.Some? && final.value != "" && BareToolJson(final.value, decode) ==>
              MakeAnomaly("visible_tool_json_leak", "high", Prefix(final.value, 200)) in AnomaliesOf(events, decode, repr)
    ensures a in AnomaliesOf(events, decode, repr) && a.code == "visible_tool_json_leak" ==>
              var final := FinalVisible(events);
              && final.Some? && final.value != "" && BareToolJson(final.value, decode)
              && a == MakeAnomaly("visible_tool_json_leak", "high", Prefix(final.value, 200))
  {
    if a in AnomaliesOf(events, decode, repr) {
      AnomalyOrigin(events, decode, repr, a);
    }
  }

  /** Truncation is reported, once, exactly when some event is a `tool_result_truncated`. */
  lemma TruncationReported(events: seq<Event>, decode: Decoder, repr: Repr, a: Anomaly)
    ensures (exists k :: 0 <= k < |events| && IsKind(events[k], "tool_result_truncated")) ==>
              MakeAnomaly("tool_results_truncated", "warn", "tool_results_truncated") in AnomaliesOf(events, decode, repr)
    ensures a in AnomaliesOf(events, decode, repr) && a.code == "tool_results_truncated" ==>
              && (exists k :: 0 <= k < |events| && IsKind(events[k], "tool_result_truncated"))
              && a == MakeAnomaly("tool_results_truncated", "warn", "tool_results_truncated")
  {
    KindCountPositive(events, "tool_result_truncated");
    if a in AnomaliesOf(events, decode, repr) {
      AnomalyOrigin(events, decode, repr, a);
    }
  }

  // ------------------------------------------------------------ properties of the report

  /** Exactly the eight known codes have a recommendation, and each has an action and a rationale. */
  lemma RecommendationKnown(code: string)
    ensures Recommendation(code).Some? <==> code in KnownCodes
    ensures Recommendation(code).Some? ==> Recommendation(code).value.Keys == {"action", "rationale"}
  {
  }

  /** When every code has a recommendation, each anomaly contributes its own, in order. */
  lemma {:induction false} RecommendationsOfKnown(anomalies: seq<Anomaly>)
    requires forall a :: a in anomalies ==> Recommendation(a.code).Some?
    ensures |Recommendations(anomalies)| == |anomalies|
    ensures forall k :: 0 <= k < |anomalies| ==> Recommendations(anomalies)[k] == Recommendation(anomalies[k].code).value
  {
    if anomalies != [] {
      var init, last := anomalies[..|anomalies| - 1], anomalies[|anomalies| - 1];
      assert anomalies == init + [last];
      RecommendationsOfKnown(init);
      var items := Recommendations(anomalies);
      assert items == Recommendations(init) + [Recommendation(last.code).value];
      forall k | 0 <= k < |anomalies|
        ensures items[k] == Recommendation(anomalies[k].code).value
      {
        if k < |init| {
          assert anomalies[k] == init[k];
        }
      }
    }
  }

  /**
   * The deduplicated recommendations of anomalies whose codes all have one:
   * something for every anomaly, each (action, rationale) once, and nothing
   * that no anomaly calls for.
   */
  lemma RecommendedOnce(anomalies: seq<Anomaly>)
    requires forall a :: a in anomalies ==> Recommendation(a.code).Some?
    ensures var out := DedupeSpec(Recommendations(anomalies));
            && DistinctKeys(out)
            && (forall k :: 0 <= k < |anomalies| ==> KeyOf(Recommendation(anomalies[k].code).value) in KeySet(out))
            && (forall p :: 0 <= p < |out| ==>
                  exists k :: 0 <= k < |anomalies| && out[p] == Recommendation(anomalies[k].code).value)
  {
    var items := Recommendations(anomalies);
    RecommendationsOfKnown(anomalies);
    DedupeNoRepeat(items);
    DedupeKeys(items);
    KeysIn(items);
    DedupeKeepsFirst(items);
    var out := DedupeSpec(items);
    forall p | 0 <= p < |out|
      ensures exists k :: 0 <= k < |anomalies| && out[p] == Recommendation(anomalies[k].code).value
    {
      var k := FirstIndex(items, KeyOf(out[p]));
      assert out[p] == items[k];
    }
  }

  /** The report recommends something for every anomaly, each (action, rationale) once, and nothing else. */
  lemma ReportRecommendations(events: seq<Event>, decode: Decoder, repr: Repr)
    ensures var r := AutopsyOf(events, decode, repr);
            && (forall a :: a in r.anomalies ==> Recommendation(a.code).Some?)
            && r.recommendations == DedupeSpec(Recommendations(r.anomalies))
  {
    AnomalyCodesKnown(events, decode, repr);
    forall a | a in AnomaliesOf(events, decode, repr)
      ensures Recommendation(a.code).Some?
    {
      RecommendationKnown(a.code);
    }
  }

  /** No entry is marked truncated before the loop ends. */
  lemma {:induction false} EntriesUnmarked(events: seq<Event>)
    ensures forall id :: id in Tools(events).entries ==> !Tools(events).entries[id].truncated
  {
    if events != [] {
      EntriesUnmarked(events[..|events| - 1]);
    }
  }

  /**
   * The report lists the entries of `tool_order`, in that order, and an
   * entry is marked truncated exactly when its tool's name was reported
   * truncated.
   */
  lemma ReportedTools(events: seq<Event>, decode: Decoder, repr: Repr)
    ensures var r := AutopsyOf(events, decode, repr);
            var t := Tools(events);
            && |r.tools| == |t.toolOrder|
            && forall k :: 0 <= k < |r.tools| ==>
                 && t.toolOrder[k] in t.entries
                 && r.tools[k].id == t.toolOrder[k]
                 && r.tools[k].tool == t.entries[t.toolOrder[k]].tool
                 && r.tools[k].ok == t.entries[t.toolOrder[k]].ok
                 && (r.tools[k].truncated <==> r.tools[k].tool.JStr? && r.tools[k].tool.s in t.truncatedTools)
  {
    EntriesUnmarked(events);
  }
}
