/**
 * The admin UI's trace reader: the prompt of an `llm_req` is split into
 * sections under `NAME:` header lines, and a trace file (one JSON object
 * per line) is gathered into events, events by role, per-role request and
 * completion pairs, tool calls, sanitizer records and the last visible
 * response. The file's content is a parameter (`None` when it does not
 * exist); JSON decoding and pretty-printing are parameters too.
 */
module TraceParser {
  import opened Wrappers
  import opened JsonValue
  import opened Strings
  import opened Sorting
  import Condense

  // ------------------------------------------------------------ prompt sections

  /** A character of `[A-Z_]`. */
  predicate IsHeaderChar(c: char) {
    'A' <= c <= 'Z' || c == '_'
  }

  /** A non-empty run of `[A-Z_]`. */
  predicate IsHeaderName(s: string) {
    |s| > 0 && forall k :: 0 <= k < |s| ==> IsHeaderChar(s[k])
  }

  /** The length of the leading `[A-Z_]` run. */
  function NameLength(line: string): (n: nat)
    ensures n <= |line|
    ensures forall k :: 0 <= k < n ==> IsHeaderChar(line[k])
    ensures n < |line| ==> !IsHeaderChar(line[n])
  {
    if line == [] || !IsHeaderChar(line[0]) then 0 else 1 + NameLength(line[1..])
  }

  /** `_PROMPT_HEADER_RE.match(line)`, `^([A-Z_]+):\s*$`: the header's name when the line is one. */
  function HeaderOf(line: string): Option<string> {
    var n := NameLength(line);
    if 0 < n < |line| && line[n] == ':' && AllSpace(line[n + 1..]) then Some(line[..n]) else None
  }

  /** A header line is exactly a name, a colon and nothing but whitespace after it. */
  lemma HeaderOfIff(line: string, name: string)
    ensures HeaderOf(line) == Some(name) <==>
              IsHeaderName(name) && IsPrefix(name + ":", line) && AllSpace(line[|name| + 1..])
  {
    var n := NameLength(line);
    if IsHeaderName(name) && IsPrefix(name + ":", line) {
      assert line[..|name|] == name && line[|name|] == ':';
      assert n == |name|;
    }
    if HeaderOf(line) == Some(name) {
      assert (name + ":")[..|name|] == name;
      assert line[..|name| + 1] == name + ":";
    }
  }

  /** Python `s.strip("\n")`. */
  function StripNewlines(s: string): (r: string)
    ensures |r| <= |s|
    ensures r == [] || (r[0] != '\n' && r[|r| - 1] != '\n')
    ensures StripsOuterNewlines(s, r)
    decreases |s|
  {
    if s == [] then assert OuterNewlinesAt(s, s, 0, 0); s
    else if s[0] == '\n' then
      var r := StripNewlines(s[1..]);
      assert StripsOuterNewlines(s, r) by {
        var a, b :| OuterNewlinesAt(s[1..], r, a, b);
        assert s[1..][a..b] == s[a + 1..b + 1];
        assert OuterNewlinesAt(s, r, a + 1, b + 1);
      }
      r
    else if s[|s| - 1] == '\n' then
      var r := StripNewlines(s[..|s| - 1]);
      assert StripsOuterNewlines(s, r) by {
        var a, b :| OuterNewlinesAt(s[..|s| - 1], r, a, b);
        assert s[..|s| - 1][a..b] == s[a..b];
        assert OuterNewlinesAt(s, r, a, b);
      }
      r
    else assert OuterNewlinesAt(s, s, 0, |s|); s
  }

  /** `r` is `s[a..b]`, and everything outside `a..b` is a newline. */
  ghost predicate OuterNewlinesAt(s: string, r: string, a: int, b: int) {
    0 <= a <= b <= |s| && r == s[a..b] &&
    (forall k :: 0 <= k < a ==> s[k] == '\n') && (forall k :: b <= k < |s| ==> s[k] == '\n')
  }

  /** `r` is `s` with some outer newlines removed and the middle kept. */
  ghost predicate StripsOuterNewlines(s: string, r: string) {
    exists a, b :: OuterNewlinesAt(s, r, a, b)
  }

  /** A section's body: its lines joined by `"\n"`, outer newlines stripped. */
  function Body(lines: seq<string>): string {
    StripNewlines(Join(lines, "\n"))
  }

  /** The index of the last header line. */
  function LastHeader(lines: seq<string>): (r: Option<nat>)
    ensures r.None? <==> forall k :: 0 <= k < |lines| ==> HeaderOf(lines[k]).None?
    ensures r.Some? ==> r.value < |lines| && HeaderOf(lines[r.value]).Some?
    ensures r.Some? ==> forall k :: r.value < k < |lines| ==> HeaderOf(lines[k]).None?
  {
    if lines == [] then None
    else if HeaderOf(lines[|lines| - 1]).Some? then Some(|lines| - 1)
    else
      var r := LastHeader(lines[..|lines| - 1]);
      assert forall k :: 0 <= k < |lines| - 1 ==> lines[..|lines| - 1][k] == lines[k];
      r
  }

  /**
   * The sections of a prompt's lines: the last header's section holds the
   * lines after it, and the sections of the lines before it come first,
   * so that a repeated header keeps its last body.
   */
  function SectionsSpec(lines: seq<string>): map<string, string>
    decreases |lines|
  {
    match LastHeader(lines)
    case None => map[]
    case Some(last) => SectionsSpec(lines[..last])[HeaderOf(lines[last]).value := Body(lines[last + 1..])]
  }

  /** A section exists for exactly the headers that occur. */
  lemma {:induction false} SectionKeys(lines: seq<string>, name: string)
    ensures name in SectionsSpec(lines) <==> exists k :: 0 <= k < |lines| && HeaderOf(lines[k]) == Some(name)
    decreases |lines|
  {
    match LastHeader(lines)
    case None =>
    case Some(last) =>
      SectionKeys(lines[..last], name);
      if exists k :: 0 <= k < |lines| && HeaderOf(lines[k]) == Some(name) {
        var k :| 0 <= k < |lines| && HeaderOf(lines[k]) == Some(name);
        if k < last {
          assert lines[..last][k] == lines[k];
        }
      }
      if exists k :: 0 <= k < last && HeaderOf(lines[..last][k]) == Some(name) {
        var k :| 0 <= k < last && HeaderOf(lines[..last][k]) == Some(name);
        assert lines[k] == lines[..last][k];
      }
  }

  /**
   * The section of a header is the body of the lines between its last
   * occurrence `i` and the next header `j` (or the end): lines before the
   * first header belong to no section, and a repeated header keeps the
   * last body.
   */
  lemma {:induction false} SectionBody(lines: seq<string>, name: string, i: nat, j: nat)
    requires i < j <= |lines| && HeaderOf(lines[i]) == Some(name)
    requires forall k :: i < k < j ==> HeaderOf(lines[k]).None?
    requires j == |lines| || HeaderOf(lines[j]).Some?
    requires forall k :: i < k < |lines| ==> HeaderOf(lines[k]) != Some(name)
    ensures name in SectionsSpec(lines) && SectionsSpec(lines)[name] == Body(lines[i + 1..j])
    decreases |lines|
  {
    var last := LastHeader(lines).value;
    var header := HeaderOf(lines[last]).value;
    var init := lines[..last];
    assert SectionsSpec(lines) == SectionsSpec(init)[header := Body(lines[last + 1..])];
    if last == i {
      assert j == |lines|;
      assert lines[i + 1..j] == lines[last + 1..];
    } else {
      SectionBodyEarlier(lines, name, i, j, last);
      SectionBody(init, name, i, j);
      SliceOfPrefix(lines, last, i + 1, j);
    }
  }

  lemma SliceOfPrefix(lines: seq<string>, n: nat, lo: nat, hi: nat)
    requires lo <= hi <= n <= |lines|
    ensures lines[..n][lo..hi] == lines[lo..hi]
  {
  }

  /** The facts the induction step of `SectionBody` hands down to the lines before the last header. */
  lemma SectionBodyEarlier(lines: seq<string>, name: string, i: nat, j: nat, last: nat)
    requires i < j <= |lines| && HeaderOf(lines[i]) == Some(name)
    requires forall k :: i < k < j ==> HeaderOf(lines[k]).None?
    requires j == |lines| || HeaderOf(lines[j]).Some?
    requires forall k :: i < k < |lines| ==> HeaderOf(lines[k]) != Some(name)
    requires LastHeader(lines) == Some(last) && last != i
    ensures j <= last && HeaderOf(lines[last]).value != name
    ensures var init := lines[..last];
            && i < j <= |init| && HeaderOf(init[i]) == Some(name)
            && (forall k :: i < k < j ==> HeaderOf(init[k]).None?)
            && (j == |init| || HeaderOf(init[j]).Some?)
            && (forall k :: i < k < |init| ==> HeaderOf(init[k]) != Some(name))
  {
  }

  /**
   * What the scan has built after some of the lines: no header yet, or
   * the sections before the last header, that header, and the lines since.
   */
  predicate ScanState(lines: seq<string>, sections: map<string, string>, current: Option<string>, buffer: seq<string>) {
    match LastHeader(lines)
    case None => current.None? && buffer == [] && sections == map[]
    case Some(last) =>
      current == HeaderOf(lines[last]) && buffer == lines[last + 1..] && sections == SectionsSpec(lines[..last])
  }

  /** The nested `flush()`: store the buffered body under the current header. */
  function Flush(sections: map<string, string>, current: Option<string>, buffer: seq<string>): map<string, string> {
    if current.None? then sections else sections[current.value := Body(buffer)]
  }

  lemma FlushScanState(lines: seq<string>, sections: map<string, string>, current: Option<string>, buffer: seq<string>)
    requires ScanState(lines, sections, current, buffer)
    ensures Flush(sections, current, buffer) == SectionsSpec(lines)
  {
  }

  /** A header line flushes the current section and opens its own. */
  lemma ScanHeader(lines: seq<string>, i: nat, sections: map<string, string>, current: Option<string>, buffer: seq<string>)
    requires i < |lines| && HeaderOf(lines[i]).Some?
    requires ScanState(lines[..i], sections, current, buffer)
    ensures ScanState(lines[..i + 1], Flush(sections, current, buffer), HeaderOf(lines[i]), [])
  {
    var prefix := lines[..i + 1];
    assert prefix[..i] == lines[..i];
    assert LastHeader(prefix) == Some(i);
    FlushScanState(lines[..i], sections, current, buffer);
  }

  /** Any other line joins the open section's body, or is dropped before the first header. */
  lemma ScanText(lines: seq<string>, i: nat, sections: map<string, string>, current: Option<string>, buffer: seq<string>)
    requires i < |lines| && HeaderOf(lines[i]).None?
    requires ScanState(lines[..i], sections, current, buffer)
    ensures ScanState(lines[..i + 1], sections, current, if current.Some? then buffer + [lines[i]] else buffer)
  {
    var prefix := lines[..i + 1];
    assert prefix[..i] == lines[..i];
    assert LastHeader(prefix) == LastHeader(lines[..i]);
    match LastHeader(lines[..i])
    case None =>
    case Some(last) =>
      assert prefix[last + 1..] == lines[..i][last + 1..] + [lines[i]];
      assert prefix[..last] == lines[..i][..last];
  }

  /** `_parse_prompt_sections(prompt)` */
  method ParsePromptSections(prompt: string) returns (sections: map<string, string>)
    ensures sections == SectionsSpec(SplitLines(prompt))
  {
    var lines := SplitLines(prompt);
    sections := map[];
    var current: Option<string> := None;
    var buffer: seq<string> := [];
    for i := 0 to |lines|
      invariant ScanState(lines[..i], sections, current, buffer)
    {
      var line := lines[i];
      var header := HeaderOf(line);
      if header.Some? {
        ScanHeader(lines, i, sections, current, buffer);
        sections := Flush(sections, current, buffer);
        buffer := [];
        current := header;
        continue;
      }
      ScanText(lines, i, sections, current, buffer);
      if current.Some? {
        buffer := buffer + [line];
      }
    }
    assert lines[..|lines|] == lines;
    FlushScanState(lines, sections, current, buffer);
    sections := Flush(sections, current, buffer);
  }

  // ------------------------------------------------------------ trace lines

  /** `_parse_line(line)`: the line's JSON object, `None` for anything else. */
  function ParseLine(line: string, decode: Decoder): (r: Option<map<string, Json>>)
    ensures r.Some? <==> decode(line).Some? && decode(line).value.JObj?
    ensures r.Some? ==> decode(line) == Some(JObj(r.value))
  {
    match decode(line)
    case Some(JObj(fields)) => Some(fields)
    case _ => None
  }

  /** `_extract_role(event)`: the string `role` of an object `data`. */
  function ExtractRole(payload: map<string, Json>): (r: Option<string>)
    ensures r.Some? <==> Get(payload, "data").JObj? && Get(Get(payload, "data").fields, "role").JStr?
    ensures r.Some? ==> Get(Get(payload, "data").fields, "role") == JStr(r.value)
  {
    var data := Get(payload, "data");
    if data.JObj? && Get(data.fields, "role").JStr? then Some(Get(data.fields, "role").s) else None
  }

  /** The event record built for each parsed line. */
  datatype Event = Event(ts: Json, kind: Json, role: Option<string>, data: map<string, Json>)

  function ToEvent(payload: map<string, Json>): Event {
    var data := Get(payload, "data");
    Event(Get(payload, "ts"), Get(payload, "kind"), ExtractRole(payload), if data.JObj? then data.fields else map[])
  }

  /** The events of the lines that are JSON objects, in order. */
  function EventsOf(lines: seq<string>, decode: Decoder): seq<Event> {
    if lines == [] then []
    else
      var init := EventsOf(lines[..|lines| - 1], decode);
      match ParseLine(lines[|lines| - 1], decode)
      case None => init
      case Some(payload) => init + [ToEvent(payload)]
  }

  /** A line that is not a JSON object adds no event, and every other line adds one. */
  lemma {:induction false} EventsOfCount(lines: seq<string>, decode: Decoder)
    ensures |EventsOf(lines, decode)| <= |lines|
    ensures (forall k :: 0 <= k < |lines| ==> ParseLine(lines[k], decode).None?) ==> EventsOf(lines, decode) == []
    ensures (forall k :: 0 <= k < |lines| ==> ParseLine(lines[k], decode).Some?) ==> |EventsOf(lines, decode)| == |lines|
  {
    if lines != [] {
      var init := lines[..|lines| - 1];
      assert forall k :: 0 <= k < |init| ==> init[k] == lines[k];
      EventsOfCount(init, decode);
    }
  }

  function KindIs(e: Event, kind: string): bool {
    e.kind == JStr(kind)
  }

  /** A kind Python cannot hash, so that testing it against a set of kinds raises `TypeError`. */
  predicate Unhashable(e: Event) {
    e.kind.JArr? || e.kind.JObj?
  }

  /** The message of that `TypeError`. */
  function UnhashableMessage(e: Event): string {
    if e.kind.JArr? then "unhashable type: 'list'" else "unhashable type: 'dict'"
  }

  /** The position of the first event with an unhashable kind, if any. */
  function FirstUnhashable(events: seq<Event>): (r: Option<nat>)
    ensures r.Some? ==> r.value < |events| && Unhashable(events[r.value])
  {
    if events == [] then None
    else if Unhashable(events[0]) then Some(0)
    else match FirstUnhashable(events[1..])
         case None => None
         case Some(k) => Some(k + 1)
  }

  /** The first unhashable event is the first: none before it, and none at all without it. */
  lemma {:induction false} FirstUnhashableIsFirst(events: seq<Event>)
    ensures FirstUnhashable(events).None? <==> forall k :: 0 <= k < |events| ==> !Unhashable(events[k])
    ensures FirstUnhashable(events).Some? ==> forall j :: 0 <= j < FirstUnhashable(events).value ==> !Unhashable(events[j])
    decreases |events|
  {
    if events != [] && !Unhashable(events[0]) {
      FirstUnhashableIsFirst(events[1..]);
      assert forall k :: 1 <= k < |events| ==> events[k] == events[1..][k - 1];
    }
  }

  /** A hashable run followed by an unhashable event fixes the first unhashable position. */
  lemma {:induction false} FirstUnhashableAt(events: seq<Event>, k: nat)
    requires k < |events| && Unhashable(events[k])
    requires forall j :: 0 <= j < k ==> !Unhashable(events[j])
    ensures FirstUnhashable(events) == Some(k)
    decreases k
  {
    if k > 0 {
      FirstUnhashableAt(events[1..], k - 1);
    }
  }

  /** The events of the first `n` lines come first among the events of all lines. */
  lemma {:induction false} EventsOfPrefix(lines: seq<string>, n: nat, decode: Decoder)
    requires n <= |lines|
    ensures var front := EventsOf(lines[..n], decode);
            |front| <= |EventsOf(lines, decode)| && EventsOf(lines, decode)[..|front|] == front
    decreases |lines|
  {
    if n < |lines| {
      var init := lines[..|lines| - 1];
      EventsOfPrefix(init, n, decode);
      assert init[..n] == lines[..n];
    } else {
      assert lines[..n] == lines;
    }
  }

  // ------------------------------------------------------------ events by role

  /** `events_by_role`: each role's events, in order. */
  function ByRole(events: seq<Event>): map<string, seq<Event>> {
    if events == [] then map[]
    else
      var m := ByRole(events[..|events| - 1]);
      var e := events[|events| - 1];
      match e.role
      case None => m
      case Some(role) => m[role := (if role in m then m[role] else []) + [e]]
  }

  /** The events of one role, in order. */
  function WithRole(events: seq<Event>, role: string): (r: seq<Event>)
    ensures |r| <= |events|
  {
    if events == [] then []
    else WithRole(events[..|events| - 1], role) + (if events[|events| - 1].role == Some(role) then [events[|events| - 1]] else [])
  }

  /** A role has a list exactly when some event carries it, and the list is its events in trace order. */
  lemma {:induction false} ByRoleFilters(events: seq<Event>, role: string)
    ensures role in ByRole(events) <==> exists k :: 0 <= k < |events| && events[k].role == Some(role)
    ensures role in ByRole(events) ==> ByRole(events)[role] == WithRole(events, role)
    ensures role !in ByRole(events) ==> WithRole(events, role) == []
  {
    if events != [] {
      var init := events[..|events| - 1];
      ByRoleFilters(init, role);
      assert forall k :: 0 <= k < |init| ==> init[k] == events[k];
      if exists k :: 0 <= k < |events| && events[k].role == Some(role) {
        var k :| 0 <= k < |events| && events[k].role == Some(role);
        if k < |init| {
          assert init[k].role == Some(role);
        }
      }
    }
  }

  // ------------------------------------------------------------ per role

  /** One `per_role` entry: the role's last request and completion, and the last request's prompt sections. */
  datatype RoleEntry = RoleEntry(
    role: string,
    llmReq: Option<Event>,
    llmDone: Option<Event>,
    promptSections: map<string, string>,
    historyPretty: Option<string>)

  /** `_pretty_history_json`, which re-indents valid JSON and returns anything else as it is. */
  type Pretty = string -> string

  const HistorySection: string := "HISTORY_JSON"

  /** The role of an `llm_req` or `llm_done` event that has one. */
  function PairRole(e: Event): Option<string> {
    if (KindIs(e, "llm_req") || KindIs(e, "llm_done")) && e.role.Some? then e.role else None
  }

  /** A request records itself and, with a string prompt, its sections and the pretty history; a completion records itself. */
  function UpdateEntry(entry: RoleEntry, e: Event, pretty: Pretty): RoleEntry {
    if KindIs(e, "llm_req") then
      var withReq := entry.(llmReq := Some(e));
      var prompt := Get(e.data, "prompt");
      if prompt.JStr? then
        var sections := SectionsSpec(SplitLines(prompt.s));
        withReq.(promptSections := sections,
                 historyPretty := if HistorySection in sections then Some(pretty(sections[HistorySection])) else withReq.historyPretty)
      else withReq
    else entry.(llmDone := Some(e))
  }

  function NewEntry(role: string): RoleEntry {
    RoleEntry(role, None, None, map[], None)
  }

  /** `per_role`, keyed by role. */
  function PerRole(events: seq<Event>, pretty: Pretty): map<string, RoleEntry> {
    if events == [] then map[]
    else
      var m := PerRole(events[..|events| - 1], pretty);
      var e := events[|events| - 1];
      match PairRole(e)
      case None => m
      case Some(role) => m[role := UpdateEntry(if role in m then m[role] else NewEntry(role), e, pretty)]
  }

  /** The roles of `per_role` in the order they first appear. */
  function RoleOrder(events: seq<Event>): seq<string> {
    if events == [] then []
    else
      var order := RoleOrder(events[..|events| - 1]);
      match PairRole(events[|events| - 1])
      case None => order
      case Some(role) => if role in order then order else order + [role]
  }

  /** The last event of a role with the given kind. */
  function LastOf(events: seq<Event>, role: string, kind: string): Option<Event> {
    if events == [] then None
    else
      var e := events[|events| - 1];
      if e.role == Some(role) && KindIs(e, kind) then Some(e) else LastOf(events[..|events| - 1], role, kind)
  }

  /** A role has an entry exactly when some request or completion carries it, and is then in the order. */
  lemma {:induction false} PerRoleKeys(events: seq<Event>, pretty: Pretty, role: string)
    ensures role in PerRole(events, pretty) <==> exists k :: 0 <= k < |events| && PairRole(events[k]) == Some(role)
    ensures role in PerRole(events, pretty) <==> role in RoleOrder(events)
  {
    if events != [] {
      var init := events[..|events| - 1];
      PerRoleKeys(init, pretty, role);
      assert forall k :: 0 <= k < |init| ==> init[k] == events[k];
      if exists k :: 0 <= k < |events| && PairRole(events[k]) == Some(role) {
        var k :| 0 <= k < |events| && PairRole(events[k]) == Some(role);
        if k < |init| {
          assert PairRole(init[k]) == Some(role);
        }
      }
    }
  }

  /** A request replaces the entry's request, a completion its completion. */
  lemma UpdateEntryPairs(entry: RoleEntry, e: Event, pretty: Pretty)
    requires KindIs(e, "llm_req") || KindIs(e, "llm_done")
    ensures var r := UpdateEntry(entry, e, pretty);
            && r.role == entry.role
            && r.llmReq == (if KindIs(e, "llm_req") then Some(e) else entry.llmReq)
            && r.llmDone == (if KindIs(e, "llm_done") then Some(e) else entry.llmDone)
  {
    assert "llm_req"[4] != "llm_done"[4];
  }

  /** The entry of a role holds its last request and its last completion. */
  lemma {:induction false} PerRolePairs(events: seq<Event>, pretty: Pretty, role: string)
    requires role in PerRole(events, pretty)
    ensures var entry := PerRole(events, pretty)[role];
            entry.role == role && entry.llmReq == LastOf(events, role, "llm_req") && entry.llmDone == LastOf(events, role, "llm_done")
  {
    var init, e := events[..|events| - 1], events[|events| - 1];
    var m := PerRole(init, pretty);
    if role in m {
      PerRolePairs(init, pretty, role);
    } else {
      PerRoleKeys(init, pretty, role);
      LastOfNone(init, role, "llm_req");
      LastOfNone(init, role, "llm_done");
    }
    if PairRole(e) == Some(role) {
      UpdateEntryPairs(if role in m then m[role] else NewEntry(role), e, pretty);
    }
  }

  /** Without a request or completion of the role, there is no last one. */
  lemma {:induction false} LastOfNone(events: seq<Event>, role: string, kind: string)
    requires kind == "llm_req" || kind == "llm_done"
    requires forall k :: 0 <= k < |events| ==> PairRole(events[k]) != Some(role)
    ensures LastOf(events, role, kind) == None
  {
    if events != [] {
      var init := events[..|events| - 1];
      assert forall k :: 0 <= k < |init| ==> init[k] == events[k];
      LastOfNone(init, role, kind);
    }
  }

  /** Each role appears once in the order. */
  lemma {:induction false} RoleOrderDistinct(events: seq<Event>, pretty: Pretty)
    ensures Condense.NoDup(RoleOrder(events))
    ensures forall k :: 0 <= k < |RoleOrder(events)| ==> RoleOrder(events)[k] in PerRole(events, pretty)
  {
    if events != [] {
      var init := events[..|events| - 1];
      RoleOrderDistinct(init, pretty);
    }
  }

  /** `per_role_list`: the entries sorted by role. */
  function PerRoleList(events: seq<Event>, pretty: Pretty): (r: seq<RoleEntry>)
    ensures SortedBy(r, (x: RoleEntry) => x.role)
  {
    var m := PerRole(events, pretty);
    var order := RoleOrder(events);
    RoleOrderDistinct(events, pretty);
    SortBy(seq(|order|, k requires 0 <= k < |order| => m[order[k]]), (x: RoleEntry) => x.role)
  }

  // ------------------------------------------------------------ tool calls

  /** One `tool_calls` entry. */
  datatype ToolCall = ToolCall(
    id: string, tool: Json, role: Option<string>, args: Json,
    ok: Json, error: Json, durationMs: Json, metadata: map<string, Json>)

  /** The keys of a `tool_done` that are not metadata. */
  const Reserved: set<string> := {"id", "tool", "role", "args", "ok", "error", "duration_ms"}

  /** The `tool_done` data that is not one of the reserved keys. */
  function Extras(data: map<string, Json>): (r: map<string, Json>)
    ensures r.Keys == data.Keys - Reserved
    ensures forall key :: key in r ==> r[key] == data[key]
  {
    map key | key in data && key !in Reserved :: data[key]
  }

  /** The string id of a `tool_start` or `tool_done` event. */
  function ToolId(e: Event): Option<string> {
    if (KindIs(e, "tool_start") || KindIs(e, "tool_done")) && Get(e.data, "id").JStr? then Some(Get(e.data, "id").s) else None
  }

  /** The entry a `tool_start` writes, and the default of a `tool_done` with no entry. */
  function NewCall(id: string, e: Event): ToolCall {
    ToolCall(id, Get(e.data, "tool"), e.role, Get(e.data, "args"), JNull, JNull, JNull, map[])
  }

  /**
   * A `tool_done` keeps the entry's tool, role and args unless it gives
   * its own (an empty role does not count), takes its `ok`, `error` and
   * `duration_ms`, and replaces the metadata when it has extra keys.
   */
  function CompleteCall(entry: ToolCall, e: Event): ToolCall {
    var data := e.data;
    var updated := entry.(
      tool := GetOr(data, "tool", entry.tool),
      role := if e.role.Some? && e.role.value != "" then e.role else entry.role,
      args := GetOr(data, "args", entry.args),
      ok := Get(data, "ok"),
      error := Get(data, "error"),
      durationMs := Get(data, "duration_ms"));
    var metadata := Extras(data);
    if metadata != map[] then updated.(metadata := metadata) else updated
  }

  /** `tool_calls`, keyed by id. */
  function ToolsOf(events: seq<Event>): map<string, ToolCall> {
    if events == [] then map[]
    else
      var m := ToolsOf(events[..|events| - 1]);
      var e := events[|events| - 1];
      match ToolId(e)
      case None => m
      case Some(id) =>
        if KindIs(e, "tool_start") then m[id := NewCall(id, e)]
        else m[id := CompleteCall(if id in m then m[id] else NewCall(id, e), e)]
  }

  /** The ids of `tool_calls` in the order they first appear. */
  function ToolOrder(events: seq<Event>): seq<string> {
    if events == [] then []
    else
      var order := ToolOrder(events[..|events| - 1]);
      match ToolId(events[|events| - 1])
      case None => order
      case Some(id) => if id in order then order else order + [id]
  }

  /** Each id appears once in the order, the order lists exactly the keys, and each entry carries its key. */
  lemma {:induction false} ToolOrderKeys(events: seq<Event>)
    ensures Condense.NoDup(ToolOrder(events))
    ensures forall id :: id in ToolsOf(events) <==> id in ToolOrder(events)
    ensures forall id :: id in ToolsOf(events) ==> ToolsOf(events)[id].id == id
  {
    if events != [] {
      ToolOrderKeys(events[..|events| - 1]);
    }
  }

  /** A tool has an entry exactly when a `tool_start` or `tool_done` carries its string id. */
  lemma {:induction false} ToolKeys(events: seq<Event>, id: string)
    ensures id in ToolsOf(events) <==> exists k :: 0 <= k < |events| && ToolId(events[k]) == Some(id)
  {
    if events != [] {
      var init := events[..|events| - 1];
      ToolKeys(init, id);
      assert forall k :: 0 <= k < |init| ==> init[k] == events[k];
      if exists k :: 0 <= k < |events| && ToolId(events[k]) == Some(id) {
        var k :| 0 <= k < |events| && ToolId(events[k]) == Some(id);
        if k < |init| {
          assert ToolId(init[k]) == Some(id);
        }
      }
    }
  }

  /**
   * After a `tool_done` with extra keys, the call's metadata is exactly
   * those keys with their values, and its outcome is the done's.
   */
  lemma ToolDoneMetadata(events: seq<Event>, e: Event, id: string)
    requires KindIs(e, "tool_done") && Get(e.data, "id") == JStr(id)
    ensures var call := ToolsOf(events + [e])[id];
            && call.ok == Get(e.data, "ok") && call.error == Get(e.data, "error")
            && call.durationMs == Get(e.data, "duration_ms")
            && (Extras(e.data) != map[] ==> call.metadata.Keys == e.data.Keys - Reserved
                                            && forall key :: key in call.metadata ==> call.metadata[key] == e.data[key])
  {
    assert (events + [e])[..|events|] == events;
    assert "tool_start"[5] != "tool_done"[5];
  }

  /** `tool_calls_list`: the entries sorted by id. */
  function ToolCallList(events: seq<Event>): (r: seq<ToolCall>)
    ensures SortedBy(r, (c: ToolCall) => c.id)
  {
    var m := ToolsOf(events);
    var order := ToolOrder(events);
    ToolOrderKeys(events);
    SortBy(seq(|order|, k requires 0 <= k < |order| => m[order[k]]), (c: ToolCall) => c.id)
  }

  /** The sorted list holds one entry per id. */
  lemma ToolCallListEntries(events: seq<Event>)
    ensures var r := ToolCallList(events);
            |r| == |ToolsOf(events)| && forall k :: 0 <= k < |r| ==> r[k].id in ToolsOf(events) && r[k] == ToolsOf(events)[r[k].id]
  {
    var m := ToolsOf(events);
    var order := ToolOrder(events);
    ToolOrderKeys(events);
    var values := seq(|order|, k requires 0 <= k < |order| => m[order[k]]);
    var r := ToolCallList(events);
    assert multiset(r) == multiset(values);
    forall k | 0 <= k < |r| ensures r[k].id in m && r[k] == m[r[k].id] {
      assert r[k] in multiset(values);
    }
    NoRepeatCard(order, m.Keys);
  }

  /** A repetition-free list of exactly the keys has as many items as there are keys. */
  lemma {:induction false} NoRepeatCard(order: seq<string>, keys: set<string>)
    requires Condense.NoDup(order) && forall id :: id in keys <==> id in order
    ensures |keys| == |order|
  {
    if order != [] {
      var init, last := order[..|order| - 1], order[|order| - 1];
      assert forall id :: id in keys - {last} <==> id in init;
      NoRepeatCard(init, keys - {last});
    }
  }

  // ------------------------------------------------------------ sanitizer and final response

  /** The data of the events of one kind, in order. */
  function DataOfKind(events: seq<Event>, kind: string): seq<map<string, Json>> {
    if events == [] then []
    else
      DataOfKind(events[..|events| - 1], kind)
      + (if KindIs(events[|events| - 1], kind) then [events[|events| - 1].data] else [])
  }

  /** The string response of a `visible_response` event. */
  function VisibleOf(e: Event): Option<string> {
    if KindIs(e, "visible_response") && Get(e.data, "visible_response").JStr? then Some(Get(e.data, "visible_response").s) else None
  }

  /** `final_visible_response` after the events. */
  function FinalOf(events: seq<Event>): Option<string> {
    if events == [] then None
    else if VisibleOf(events[|events| - 1]).Some? then VisibleOf(events[|events| - 1])
    else FinalOf(events[..|events| - 1])
  }

  /** The final response is the last string `visible_response`, and `None` when there is none. */
  lemma {:induction false} FinalIsLast(events: seq<Event>)
    ensures FinalOf(events).None? <==> forall k :: 0 <= k < |events| ==> VisibleOf(events[k]).None?
    ensures FinalOf(events).Some? ==>
              exists k :: 0 <= k < |events| && VisibleOf(events[k]) == FinalOf(events)
                          && forall j :: k < j < |events| ==> VisibleOf(events[j]).None?
  {
    if events != [] {
      var init := events[..|events| - 1];
      FinalIsLast(init);
      assert forall k :: 0 <= k < |init| ==> init[k] == events[k];
      if VisibleOf(events[|events| - 1]).None? && FinalOf(init).Some? {
        var k :| 0 <= k < |init| && VisibleOf(init[k]) == FinalOf(init) && forall j :: k < j < |init| ==> VisibleOf(init[j]).None?;
        assert VisibleOf(events[k]) == FinalOf(events);
      }
    }
  }

  // ------------------------------------------------------------ parse_trace_file

  /** What `parse_trace_file` returns. */
  datatype TraceView = TraceView(
    events: seq<Event>,
    eventsByRole: map<string, seq<Event>>,
    perRole: seq<RoleEntry>,
    toolCalls: seq<ToolCall>,
    sanitize: seq<map<string, Json>>,
    sanitizeWarnings: seq<map<string, Json>>,
    finalResponse: Option<string>)

  /** The view of a trace whose file does not exist. */
  const EmptyView := TraceView([], map[], [], [], [], [], None)

  /** Every part of the view, each computed from the parsed events. */
  function ViewOf(events: seq<Event>, pretty: Pretty): TraceView {
    TraceView(events, ByRole(events), PerRoleList(events, pretty), ToolCallList(events),
              DataOfKind(events, "sanitize"), DataOfKind(events, "sanitize_warning"), FinalOf(events))
  }

  /** What parsing the events gives: the `TypeError` of the first unhashable kind, otherwise the view. */
  function ParseOutcome(events: seq<Event>, pretty: Pretty): Result<TraceView> {
    match FirstUnhashable(events)
    case Some(k) => Err(UnhashableMessage(events[k]))
    case None => Ok(ViewOf(events, pretty))
  }

  /** The parse fails exactly when some kind is unhashable, and then with the first one's message. */
  lemma ParseOutcomeCases(events: seq<Event>, pretty: Pretty)
    ensures var r := ParseOutcome(events, pretty);
            && (r.Ok? <==> forall k :: 0 <= k < |events| ==> !Unhashable(events[k]))
            && (r.Ok? ==> r.value == ViewOf(events, pretty))
            && (r.Err? ==> exists k :: 0 <= k < |events| && Unhashable(events[k])
                                       && (forall j :: 0 <= j < k ==> !Unhashable(events[j]))
                                       && r.msg == UnhashableMessage(events[k]))
  {
    FirstUnhashableIsFirst(events);
  }

  /** The `llm_req`/`llm_done` branch of the loop, for one more event. */
  method RecordPair(perRole: map<string, RoleEntry>, roles: seq<string>, e: Event, pretty: Pretty, ghost events: seq<Event>)
    returns (m: map<string, RoleEntry>, order: seq<string>)
    requires perRole == PerRole(events, pretty) && roles == RoleOrder(events)
    requires !Unhashable(e)
    ensures m == PerRole(events + [e], pretty) && order == RoleOrder(events + [e])
  {
    assert (events + [e])[..|events|] == events;
    m, order := perRole, roles;
    if (KindIs(e, "llm_req") || KindIs(e, "llm_done")) && e.role.Some? {
      var role := e.role.value;
      PerRoleKeys(events, pretty, role);
      var entry := if role in perRole then perRole[role] else NewEntry(role);
      if role !in perRole {
        order := order + [role];
      }
      if KindIs(e, "llm_req") {
        entry := RecordRequest(entry, e, pretty);
      }
      if KindIs(e, "llm_done") {
        assert "llm_req"[4] != "llm_done"[4];
        entry := entry.(llmDone := Some(e));
      }
      m := m[role := entry];
    }
  }

  /** A request's update of its role's entry. */
  method RecordRequest(entry: RoleEntry, e: Event, pretty: Pretty) returns (r: RoleEntry)
    requires KindIs(e, "llm_req")
    ensures r == UpdateEntry(entry, e, pretty)
  {
    r := entry.(llmReq := Some(e));
    var prompt := Get(e.data, "prompt");
    if prompt.JStr? {
      var sections := ParsePromptSections(prompt.s);
      r := r.(promptSections := sections);
      if HistorySection in sections {
        r := r.(historyPretty := Some(pretty(sections[HistorySection])));
      }
    }
  }

  /** The `tool_start`/`tool_done` branches of the loop, for one more event. */
  method RecordTool(tools: map<string, ToolCall>, ids: seq<string>, e: Event, ghost events: seq<Event>)
    returns (m: map<string, ToolCall>, order: seq<string>)
    requires tools == ToolsOf(events) && ids == ToolOrder(events)
    ensures m == ToolsOf(events + [e]) && order == ToolOrder(events + [e])
  {
    assert (events + [e])[..|events|] == events;
    ToolOrderKeys(events);
    m, order := tools, ids;
    var toolId := Get(e.data, "id");
    if KindIs(e, "tool_start") && toolId.JStr? {
      m := m[toolId.s := NewCall(toolId.s, e)];
    }
    if KindIs(e, "tool_done") && toolId.JStr? {
      assert "tool_start"[5] != "tool_done"[5];
      var id := toolId.s;
      var entry := if id in m then m[id] else NewCall(id, e);
      var metadata := Extras(e.data);
      entry := entry.(
        tool := GetOr(e.data, "tool", entry.tool),
        role := if e.role.Some? && e.role.value != "" then e.role else entry.role,
        args := GetOr(e.data, "args", entry.args),
        ok := Get(e.data, "ok"),
        error := Get(e.data, "error"),
        durationMs := Get(e.data, "duration_ms"));
      if metadata != map[] {
        entry := entry.(metadata := metadata);
      }
      m := m[id := entry];
    }
    if ToolId(e).Some? && ToolId(e).value !in order {
      order := order + [ToolId(e).value];
    }
  }

  /** `events_by_role` for one more event. */
  method RecordRole(byRole: map<string, seq<Event>>, e: Event, ghost events: seq<Event>) returns (m: map<string, seq<Event>>)
    requires byRole == ByRole(events)
    ensures m == ByRole(events + [e])
  {
    assert (events + [e])[..|events|] == events;
    m := byRole;
    if e.role.Some? {
      var role := e.role.value;
      m := m[role := (if role in m then m[role] else []) + [e]];
    }
  }

  /** The sanitizer lists and the final response for one more event. */
  method RecordOutput(sanitize: seq<map<string, Json>>, warnings: seq<map<string, Json>>, final: Option<string>, e: Event, ghost events: seq<Event>)
    returns (sanitize': seq<map<string, Json>>, warnings': seq<map<string, Json>>, final': Option<string>)
    requires sanitize == DataOfKind(events, "sanitize") && warnings == DataOfKind(events, "sanitize_warning") && final == FinalOf(events)
    ensures sanitize' == DataOfKind(events + [e], "sanitize") && warnings' == DataOfKind(events + [e], "sanitize_warning")
    ensures final' == FinalOf(events + [e])
  {
    assert (events + [e])[..|events|] == events;
    sanitize', warnings', final' := sanitize, warnings, final;
    if KindIs(e, "sanitize") {
      sanitize' := sanitize' + [e.data];
    }
    if KindIs(e, "sanitize_warning") {
      warnings' := warnings' + [e.data];
    }
    if KindIs(e, "visible_response") {
      var visible := Get(e.data, "visible_response");
      if visible.JStr? {
        final' := Some(visible.s);
      }
    }
  }

  /**
   * `parse_trace_file(path)`, `text` being the file's content (`None`
   * when it does not exist): the events of the lines that are JSON
   * objects, and every part of the view built from them. The first event
   * whose kind is a list or an object stops the parse with `TypeError`.
   */
  method ParseTraceFile(text: Option<string>, decode: Decoder, pretty: Pretty) returns (view: Result<TraceView>)
    ensures text.None? ==> view == Ok(EmptyView)
    ensures text.Some? ==> view == ParseOutcome(EventsOf(SplitLines(text.value), decode), pretty)
  {
    if text.None? {
      return Ok(EmptyView);
    }
    var lines := SplitLines(text.value);
    var events: seq<Event> := [];
    var byRole: map<string, seq<Event>> := map[];
    var perRole: map<string, RoleEntry> := map[];
    var roles: seq<string> := [];
    var tools: map<string, ToolCall> := map[];
    var toolIds: seq<string> := [];
    var sanitize: seq<map<string, Json>> := [];
    var warnings: seq<map<string, Json>> := [];
    var final: Option<string> := None;
    for i := 0 to |lines|
      invariant events == EventsOf(lines[..i], decode)
      invariant Gathered(events, pretty, byRole, perRole, roles, tools, toolIds, sanitize, warnings, final)
      invariant forall k :: 0 <= k < |events| ==> !Unhashable(events[k])
    {
      EventsOfSnoc(lines, i, decode);
      var payload := ParseLine(lines[i], decode);
      if payload.None? {
        continue;
      }
      var e := ToEvent(payload.value);
      ghost var before := events;
      events := events + [e];
      byRole := RecordRole(byRole, e, before);
      if Unhashable(e) {
        UnhashableStops(lines, i, decode, before, e);
        return Err(UnhashableMessage(e));
      }
      perRole, roles := RecordPair(perRole, roles, e, pretty, before);
      tools, toolIds := RecordTool(tools, toolIds, e, before);
      sanitize, warnings, final := RecordOutput(sanitize, warnings, final, e, before);
    }
    assert lines[..|lines|] == lines;
    FirstUnhashableIsFirst(events);
    var roleList := SortRoles(perRole, roles, pretty, events);
    var toolList := SortTools(tools, toolIds, events);
    view := Ok(TraceView(events, byRole, roleList, toolList, sanitize, warnings, final));
  }

  /** An unhashable event after hashable ones decides the outcome of the whole file. */
  lemma UnhashableStops(lines: seq<string>, i: nat, decode: Decoder, before: seq<Event>, e: Event)
    requires i < |lines| && before == EventsOf(lines[..i], decode)
    requires EventsOf(lines[..i + 1], decode) == before + [e]
    requires Unhashable(e) && forall k :: 0 <= k < |before| ==> !Unhashable(before[k])
    ensures var all := EventsOf(lines, decode);
            |before| < |all| && all[|before|] == e && FirstUnhashable(all) == Some(|before|)
  {
    var all := EventsOf(lines, decode);
    EventsOfPrefix(lines, i + 1, decode);
    PrefixFacts(all, before, e);
    FirstUnhashableAt(all, |before|);
  }

  lemma PrefixFacts(all: seq<Event>, before: seq<Event>, e: Event)
    requires |before| + 1 <= |all| && all[..|before| + 1] == before + [e]
    ensures all[|before|] == e && forall j :: 0 <= j < |before| ==> all[j] == before[j]
  {
    assert all[|before|] == all[..|before| + 1][|before|];
    forall j | 0 <= j < |before| ensures all[j] == before[j] {
      assert all[j] == all[..|before| + 1][j];
    }
  }

  /** The loop's collections are those of the events parsed so far. */
  ghost predicate Gathered(events: seq<Event>, pretty: Pretty, byRole: map<string, seq<Event>>,
                           perRole: map<string, RoleEntry>, roles: seq<string>,
                           tools: map<string, ToolCall>, toolIds: seq<string>,
                           sanitize: seq<map<string, Json>>, warnings: seq<map<string, Json>>, final: Option<string>)
  {
    && byRole == ByRole(events)
    && perRole == PerRole(events, pretty) && roles == RoleOrder(events)
    && tools == ToolsOf(events) && toolIds == ToolOrder(events)
    && sanitize == DataOfKind(events, "sanitize") && warnings == DataOfKind(events, "sanitize_warning")
    && final == FinalOf(events)
  }

  lemma EventsOfSnoc(lines: seq<string>, i: nat, decode: Decoder)
    requires i < |lines|
    ensures EventsOf(lines[..i + 1], decode) ==
              EventsOf(lines[..i], decode) + (match ParseLine(lines[i], decode) case None => [] case Some(p) => [ToEvent(p)])
  {
    assert lines[..i + 1][..i] == lines[..i];
  }

  /** `per_role_list.sort(key=role)` */
  method SortRoles(perRole: map<string, RoleEntry>, roles: seq<string>, pretty: Pretty, ghost events: seq<Event>)
    returns (list: seq<RoleEntry>)
    requires perRole == PerRole(events, pretty) && roles == RoleOrder(events)
    ensures list == PerRoleList(events, pretty)
  {
    RoleOrderDistinct(events, pretty);
    list := SortBy(seq(|roles|, k requires 0 <= k < |roles| => perRole[roles[k]]), (x: RoleEntry) => x.role);
  }

  /** `tool_calls_list.sort(key=id)` */
  method SortTools(tools: map<string, ToolCall>, ids: seq<string>, ghost events: seq<Event>) returns (list: seq<ToolCall>)
    requires tools == ToolsOf(events) && ids == ToolOrder(events)
    ensures list == ToolCallList(events)
  {
    ToolOrderKeys(events);
    list := SortBy(seq(|ids|, k requires 0 <= k < |ids| => tools[ids[k]]), (c: ToolCall) => c.id);
  }
}
