/**
 * The soak-run analyser: it counts the events of a trace, checks that
 * requests and completions pair up, and validates the final checkpoint's
 * state against the condense policy's limits. Events and the checkpoint
 * are decoded JSON values; the `{:.3f}` rendering of the fail rate is the
 * parameter `fmt3`.
 */
module Soak {
  import opened Wrappers
  import opened JsonValue
  import opened Strings
  import opened Sorting
  import Condense

  const MaxEpisodeSummaryChars: int := 2000

  /** A failure the analyser reports, one constructor per message it can append. */
  datatype Failure =
    | NoEvents
    | LlmMismatch(llmReq: int, llmDone: int)
    | ToolMismatch(plan: int, start: int, done: int)
    | MissingDone(ids: seq<string>)
    | FailRateExceeded(rate: real, maxRate: real)
    | DuplicateRefs
    | CapabilityOverlap
    | OverLimit(field: string, limit: int, length: int)
    | SummaryTooLong
    | TurnsUnknown

  /** The text the analyser appends to `failures`. */
  function Message(f: Failure, fmt3: real -> string): string {
    match f
    case NoEvents => "Trace contains no events."
    case LlmMismatch(req, done) =>
      "llm_req (" + IntToString(req) + ") != llm_done (" + IntToString(done) + ")."
    case ToolMismatch(plan, start, done) =>
      "tool_plan (" + IntToString(plan) + "), tool_start (" + IntToString(start) + "), tool_done ("
      + IntToString(done) + ") mismatch."
    case MissingDone(ids) => "tool_start missing tool_done for ids: " + Join(ids, ", ") + "."
    case FailRateExceeded(rate, maxRate) => "tool_fail_rate " + fmt3(rate) + " exceeds " + fmt3(maxRate) + "."
    case DuplicateRefs => "Duplicate IDs found in memory_refs."
    case CapabilityOverlap => "Capabilities pending intersect with granted."
    case OverLimit(field, limit, length) =>
      "State field " + field + " exceeds limit " + IntToString(limit) + " (len=" + IntToString(length) + ")."
    case SummaryTooLong => "Episode summary exceeds max length."
    case TurnsUnknown => "Unable to infer turns from trace; pass --turns."
  }

  // ------------------------------------------------------------ _require_list / _require_str

  /** Every item is a string. */
  predicate AllStrings(items: seq<Json>) {
    forall k :: 0 <= k < |items| ==> items[k].JStr?
  }

  /** `_require_list(payload, key)`: the field as a list of strings, else `ValueError`. */
  function RequireList(payload: map<string, Json>, key: string): (r: Result<seq<string>>)
    ensures r.Ok? <==> Get(payload, key).JArr? && AllStrings(Get(payload, key).items)
    ensures r.Ok? ==> |r.value| == |Get(payload, key).items|
                      && forall k :: 0 <= k < |r.value| ==> Get(payload, key).items[k] == JStr(r.value[k])
    ensures !Get(payload, key).JArr? ==> r == Err("Checkpoint state." + key + " must be a list.")
    ensures Get(payload, key).JArr? && !AllStrings(Get(payload, key).items) ==>
              r == Err("Checkpoint state." + key + " must contain strings only.")
  {
    match Get(payload, key)
    case JArr(items) =>
      if AllStrings(items) then Ok(seq(|items|, k requires 0 <= k < |items| => items[k].s))
      else Err("Checkpoint state." + key + " must contain strings only.")
    case _ => Err("Checkpoint state." + key + " must be a list.")
  }

  /** `_require_str(payload, key)`: the field as a string, an absent field reading as `""`. */
  function RequireStr(payload: map<string, Json>, key: string): (r: Result<string>)
    ensures key !in payload ==> r == Ok("")
    ensures key in payload ==> (r.Ok? <==> payload[key].JStr?)
    ensures key in payload && payload[key].JStr? ==> r == Ok(payload[key].s)
    ensures r.Err? ==> r.msg == "Checkpoint state." + key + " must be a string."
  {
    match GetOr(payload, key, JStr(""))
    case JStr(s) => Ok(s)
    case _ => Err("Checkpoint state." + key + " must be a string.")
  }

  // ------------------------------------------------------------ _validate_checkpoint

  /** `len(set(items)) != len(items)` */
  predicate HasDuplicates(items: seq<string>) {
    |set x | x in items| != |items|
  }

  lemma {:induction false} SetOfSeqSize(items: seq<string>)
    ensures |set x | x in items| <= |items|
    ensures |set x | x in items| == |items| <==> Condense.NoDup(items)
  {
    if items != [] {
      var init, last := items[..|items| - 1], items[|items| - 1];
      SetOfSeqSize(init);
      assert items == init + [last];
      SetOfSnoc(init, last);
      NoDupSnoc(init, last);
    }
  }

  lemma SetOfSnoc(init: seq<string>, last: string)
    ensures (set x | x in init + [last]) == (set x | x in init) + {last}
    ensures last !in init ==> |set x | x in init + [last]| == |set x | x in init| + 1
    ensures last in init ==> |set x | x in init + [last]| == |set x | x in init|
  {
    assert (set x | x in init + [last]) == (set x | x in init) + {last};
    if last !in init {
      assert (set x | x in init) !! {last};
    }
  }

  lemma NoDupSnoc(init: seq<string>, last: string)
    ensures Condense.NoDup(init + [last]) <==> Condense.NoDup(init) && last !in init
  {
    var items := init + [last];
    if last in init {
      var k :| 0 <= k < |init| && init[k] == last;
      assert items[k] == items[|init|];
    }
    if !Condense.NoDup(init) {
      var i, j :| 0 <= i < j < |init| && init[i] == init[j];
      assert items[i] == items[j];
    }
  }

  /** The duplicate test holds exactly when two positions hold the same item. */
  lemma DuplicatesIff(items: seq<string>)
    ensures HasDuplicates(items) <==> exists i, j :: 0 <= i < j < |items| && items[i] == items[j]
  {
    SetOfSeqSize(items);
  }

  /** `granted.intersection(pending)` is non-empty. */
  predicate Overlap(granted: seq<string>, pending: seq<string>) {
    (set x | x in granted) * (set x | x in pending) != {}
  }

  /** `state_limits`, in its insertion order. */
  function StateLimits(policy: Condense.CondensePolicy): seq<(string, int)> {
    [("goals", policy.maxGoals), ("open_loops", policy.maxOpenLoops), ("decisions", policy.maxDecisions),
     ("constraints", policy.maxConstraints), ("memory_tags", policy.maxMemoryTags)]
  }

  /** The limit check for one state field. */
  function LimitCheck(state: map<string, Json>, field: string, limit: int): Result<seq<Failure>> {
    var items :- RequireList(state, field);
    Ok(if |items| > limit then [OverLimit(field, limit, |items|)] else [])
  }

  /** The limit checks of `limits`, in order; the first field that is not a string list raises. */
  function LimitFailures(state: map<string, Json>, limits: seq<(string, int)>): Result<seq<Failure>> {
    if limits == [] then Ok([])
    else
      var before :- LimitFailures(state, limits[..|limits| - 1]);
      var last := limits[|limits| - 1];
      var step :- LimitCheck(state, last.0, last.1);
      Ok(before + step)
  }

  /** The failures `_validate_checkpoint` appends, or the error it raises. */
  function CheckpointFailures(checkpoint: map<string, Json>, policy: Condense.CondensePolicy): Result<seq<Failure>> {
    var state := GetOr(checkpoint, "state", JObj(map[]));
    if !state.JObj? then Err("AttributeError: 'get'")
    else
      var refs :- RequireList(state.fields, "memory_refs");
      var granted :- RequireList(state.fields, "capabilities_granted");
      var pending :- RequireList(state.fields, "capabilities_pending");
      var limits :- LimitFailures(state.fields, StateLimits(policy));
      var summary :- RequireStr(state.fields, "episode_summary");
      Ok((if HasDuplicates(refs) then [DuplicateRefs] else [])
         + (if Overlap(granted, pending) then [CapabilityOverlap] else [])
         + limits
         + (if |summary| > MaxEpisodeSummaryChars then [SummaryTooLong] else []))
  }

  /** The loop over `state_limits` in `_validate_checkpoint`. */
  method CheckLimits(state: map<string, Json>, limits: seq<(string, int)>) returns (r: Result<seq<Failure>>)
    ensures r == LimitFailures(state, limits)
  {
    var found: seq<Failure> := [];
    for i := 0 to |limits|
      invariant LimitFailures(state, limits[..i]) == Ok(found)
    {
      assert limits[..i + 1][..i] == limits[..i] && limits[..i + 1][i] == limits[i];
      var items := RequireList(state, limits[i].0);
      if items.Err? {
        LimitFailuresStaysErr(state, limits, i + 1);
        return Err(items.msg);
      }
      var step := if |items.value| > limits[i].1 then [OverLimit(limits[i].0, limits[i].1, |items.value|)] else [];
      assert LimitCheck(state, limits[i].0, limits[i].1) == Ok(step);
      found := found + step;
    }
    assert limits[..|limits|] == limits;
    return Ok(found);
  }

  /**
   * `_validate_checkpoint(checkpoint, policy, failures)`: the failures it
   * appends to the caller's list, or the `ValueError` it raises.
   */
  method ValidateCheckpoint(checkpoint: map<string, Json>, policy: Condense.CondensePolicy)
    returns (r: Result<seq<Failure>>)
    ensures r == CheckpointFailures(checkpoint, policy)
  {
    var state := GetOr(checkpoint, "state", JObj(map[]));
    if !state.JObj? {
      return Err("AttributeError: 'get'");
    }
    var failures: seq<Failure> := [];
    var refs := RequireList(state.fields, "memory_refs");
    if refs.Err? {
      return Err(refs.msg);
    }
    if HasDuplicates(refs.value) {
      failures := failures + [DuplicateRefs];
    }
    assert failures == (if HasDuplicates(refs.value) then [DuplicateRefs] else []);
    var granted := RequireList(state.fields, "capabilities_granted");
    if granted.Err? {
      return Err(granted.msg);
    }
    var pending := RequireList(state.fields, "capabilities_pending");
    if pending.Err? {
      return Err(pending.msg);
    }
    ghost var before := failures;
    if Overlap(granted.value, pending.value) {
      failures := failures + [CapabilityOverlap];
    }
    assert failures == before + (if Overlap(granted.value, pending.value) then [CapabilityOverlap] else []);
    var found := CheckLimits(state.fields, StateLimits(policy));
    if found.Err? {
      return Err(found.msg);
    }
    failures := failures + found.value;
    var summary := RequireStr(state.fields, "episode_summary");
    if summary.Err? {
      return Err(summary.msg);
    }
    ghost var checked := failures;
    if |summary.value| > MaxEpisodeSummaryChars {
      failures := failures + [SummaryTooLong];
    }
    assert failures == checked + (if |summary.value| > MaxEpisodeSummaryChars then [SummaryTooLong] else []);
    return Ok(failures);
  }

  /** Once a field has raised, the remaining checks raise the same error. */
  lemma {:induction false} LimitFailuresStaysErr(state: map<string, Json>, limits: seq<(string, int)>, n: nat)
    requires n <= |limits| && LimitFailures(state, limits[..n]).Err?
    ensures LimitFailures(state, limits) == LimitFailures(state, limits[..n])
    decreases |limits| - n
  {
    if n < |limits| {
      assert limits[..n + 1][..n] == limits[..n];
      LimitFailuresStaysErr(state, limits, n + 1);
    } else {
      assert limits[..n] == limits;
    }
  }

  /** Each limit failure names a listed field whose list is longer than its limit. */
  lemma {:induction false} LimitFailuresSound(state: map<string, Json>, limits: seq<(string, int)>)
    requires LimitFailures(state, limits).Ok?
    ensures forall f: Failure :: f in LimitFailures(state, limits).value <==>
              f.OverLimit? && (f.field, f.limit) in limits
              && RequireList(state, f.field).Ok? && f.length == |RequireList(state, f.field).value| > f.limit
  {
    if limits != [] {
      var init, last := limits[..|limits| - 1], limits[|limits| - 1];
      assert limits == init + [last];
      LimitFailuresSound(state, init);
    }
  }

  /**
   * What the validation reports: duplicates in `memory_refs`, a capability
   * both granted and pending, every state list over its limit, and a too
   * long episode summary, each exactly when it holds.
   */
  lemma CheckpointFailuresIff(checkpoint: map<string, Json>, policy: Condense.CondensePolicy)
    requires CheckpointFailures(checkpoint, policy).Ok?
    ensures var state := GetOr(checkpoint, "state", JObj(map[])).fields;
            var failures := CheckpointFailures(checkpoint, policy).value;
            && (DuplicateRefs in failures <==> HasDuplicates(RequireList(state, "memory_refs").value))
            && (CapabilityOverlap in failures <==>
                  Overlap(RequireList(state, "capabilities_granted").value, RequireList(state, "capabilities_pending").value))
            && (SummaryTooLong in failures <==> |RequireStr(state, "episode_summary").value| > MaxEpisodeSummaryChars)
            && (forall f: Failure :: f.OverLimit? ==>
                  (f in failures <==>
                     (f.field, f.limit) in StateLimits(policy)
                     && RequireList(state, f.field).Ok? && f.length == |RequireList(state, f.field).value| > f.limit))
  {
    var state := GetOr(checkpoint, "state", JObj(map[])).fields;
    LimitFailuresSound(state, StateLimits(policy));
  }

  // ------------------------------------------------------------ event counting

  /** The integer counters of `analyze_soak`'s event loop. */
  datatype Counters = Counters(
    llmReq: int, llmDone: int,
    toolPlan: int, toolStart: int, toolDone: int,
    toolOk: int, toolFail: int,
    notesPatch: int)

  /** `tool_counts` and the two id sets, each set kept as a list of distinct ids. */
  datatype ToolTally = ToolTally(toolCounts: map<string, int>, startIds: seq<string>, doneIds: seq<string>)

  /** Everything the event loop accumulates. */
  datatype Tally = Tally(
    eventCounts: map<string, int>,
    counters: Counters,
    tools: ToolTally,
    condenseCounts: map<string, int>)

  const EmptyTally := Tally(map[], Counters(0, 0, 0, 0, 0, 0, 0, 0), ToolTally(map[], [], []), map[])

  /** `counts.get(key, 0)` */
  function CountOf(counts: map<string, int>, key: string): int {
    if key in counts then counts[key] else 0
  }

  /** `counts[key] = counts.get(key, 0) + 1` */
  function Bump(counts: map<string, int>, key: string): map<string, int> {
    counts[key := CountOf(counts, key) + 1]
  }

  /** `ids.add(id)` on a set kept as a list of distinct ids. */
  function AddId(ids: seq<string>, id: string): seq<string> {
    if id in ids then ids else ids + [id]
  }

  /** A string field of the event's data, if it is one. */
  function StrField(data: map<string, Json>, key: string): Option<string> {
    if Get(data, key).JStr? then Some(Get(data, key).s) else None
  }

  /** `event.get("data", {})`, with a non-object replaced by `{}`. */
  function DataOf(fields: map<string, Json>): map<string, Json> {
    var data := GetOr(fields, "data", JObj(map[]));
    if data.JObj? then data.fields else map[]
  }

  /** The event's kind when it is a string, for an event that is an object. */
  function KindOf(event: Json): Option<string> {
    if event.JObj? && Get(event.fields, "kind").JStr? then Some(Get(event.fields, "kind").s) else None
  }

  /** The kinds the event loop tells apart. */
  datatype Kind = LlmReq | LlmDone | ToolPlan | ToolStart | ToolDone | CondenseKind | NotesPatch | OtherKind

  /** The `if`/`elif` chain's test on `kind`. */
  function KindTag(kind: string): Kind {
    if kind == "llm_req" then LlmReq
    else if kind == "llm_done" then LlmDone
    else if kind == "tool_plan" then ToolPlan
    else if kind == "tool_start" then ToolStart
    else if kind == "tool_done" then ToolDone
    else if kind == "condense" then CondenseKind
    else if kind == "notes_patch" then NotesPatch
    else OtherKind
  }

  lemma KindTags()
    ensures KindTag("llm_req") == LlmReq && KindTag("llm_done") == LlmDone && KindTag("tool_plan") == ToolPlan
    ensures KindTag("tool_start") == ToolStart && KindTag("tool_done") == ToolDone
    ensures KindTag("condense") == CondenseKind && KindTag("notes_patch") == NotesPatch
  {
    assert "tool_start"[5] != "tool_plan"[5];
    assert "tool_done"[5] != "tool_plan"[5] && "tool_done"[5] != "tool_start"[5];
  }

  /** The counters after an event of kind `tag`: its own counter, and `ok` of a `tool_done`. */
  function CountCounters(c: Counters, tag: Kind, data: map<string, Json>): Counters {
    match tag
    case LlmReq => c.(llmReq := c.llmReq + 1)
    case LlmDone => c.(llmDone := c.llmDone + 1)
    case ToolPlan => c.(toolPlan := c.toolPlan + 1)
    case ToolStart => c.(toolStart := c.toolStart + 1)
    case ToolDone =>
      var ok := Get(data, "ok");
      c.(toolDone := c.toolDone + 1,
         toolOk := c.toolOk + (if ok == JBool(true) then 1 else 0),
         toolFail := c.toolFail + (if ok == JBool(false) then 1 else 0))
    case NotesPatch => c.(notesPatch := c.notesPatch + 1)
    case _ => c
  }

  /**
   * A `tool_start` adds its string id and gives a new string tool the
   * count 0; a `tool_done` adds its string id and counts its string tool.
   */
  function CountTools(tt: ToolTally, tag: Kind, data: map<string, Json>): ToolTally {
    match tag
    case ToolStart =>
      var ids := match StrField(data, "id") case Some(id) => AddId(tt.startIds, id) case None => tt.startIds;
      var tools := match StrField(data, "tool")
        case Some(tool) => if tool in tt.toolCounts then tt.toolCounts else tt.toolCounts[tool := 0]
        case None => tt.toolCounts;
      ToolTally(tools, ids, tt.doneIds)
    case ToolDone =>
      var ids := match StrField(data, "id") case Some(id) => AddId(tt.doneIds, id) case None => tt.doneIds;
      var tools := match StrField(data, "tool") case Some(tool) => Bump(tt.toolCounts, tool) case None => tt.toolCounts;
      ToolTally(tools, tt.startIds, ids)
    case _ => tt
  }

  /** A `condense` counts its string scope. */
  function CountScope(counts: map<string, int>, tag: Kind, data: map<string, Json>): map<string, int> {
    if tag == CondenseKind && StrField(data, "scope").Some? then Bump(counts, StrField(data, "scope").value) else counts
  }

  /** The event loop's body for an event of string kind `kind`. */
  function CountKind(t: Tally, kind: string, data: map<string, Json>): Tally {
    var tag := KindTag(kind);
    Tally(Bump(t.eventCounts, kind), CountCounters(t.counters, tag, data), CountTools(t.tools, tag, data),
          CountScope(t.condenseCounts, tag, data))
  }

  /** One event: `event.get` raises on a non-object; a non-string kind is skipped. */
  function CountEvent(t: Tally, event: Json): Result<Tally> {
    if !event.JObj? then Err("AttributeError: 'get'")
    else match KindOf(event)
      case None => Ok(t)
      case Some(kind) => Ok(CountKind(t, kind, DataOf(event.fields)))
  }

  /** The loop over all events, from the empty tally. */
  function TallyOf(events: seq<Json>): Result<Tally> {
    if events == [] then Ok(EmptyTally)
    else
      var t :- TallyOf(events[..|events| - 1]);
      CountEvent(t, events[|events| - 1])
  }

  /** `analyze_soak`'s event loop. */
  method CountEvents(events: seq<Json>) returns (r: Result<Tally>)
    ensures r == TallyOf(events)
  {
    var t := EmptyTally;
    for i := 0 to |events|
      invariant TallyOf(events[..i]) == Ok(t)
    {
      assert events[..i + 1][..i] == events[..i];
      var next := CountEvent(t, events[i]);
      if next.Err? {
        TallyStaysErr(events, i + 1);
        return next;
      }
      t := next.value;
    }
    assert events[..|events|] == events;
    return Ok(t);
  }

  lemma {:induction false} TallyStaysErr(events: seq<Json>, n: nat)
    requires n <= |events| && TallyOf(events[..n]).Err?
    ensures TallyOf(events) == TallyOf(events[..n])
    decreases |events| - n
  {
    if n < |events| {
      assert events[..n + 1][..n] == events[..n];
      TallyStaysErr(events, n + 1);
    } else {
      assert events[..n] == events;
    }
  }

  /** The number of events whose kind is the string `kind`. */
  function KindCount(events: seq<Json>, kind: string): nat {
    if events == [] then 0
    else KindCount(events[..|events| - 1], kind) + (if KindOf(events[|events| - 1]) == Some(kind) then 1 else 0)
  }

  /** The event's kind tag, for an event with a string kind. */
  function TagOf(event: Json): Option<Kind> {
    if KindOf(event).Some? then Some(KindTag(KindOf(event).value)) else None
  }

  /** The number of events with kind tag `tag`. */
  function TagCount(events: seq<Json>, tag: Kind): nat {
    if events == [] then 0
    else TagCount(events[..|events| - 1], tag) + (if TagOf(events[|events| - 1]) == Some(tag) then 1 else 0)
  }

  /** Counting by tag is counting by the kind's string. */
  lemma {:induction false} TagCountIsKindCount(events: seq<Json>, kind: string)
    requires KindTag(kind) != OtherKind
    ensures TagCount(events, KindTag(kind)) == KindCount(events, kind)
  {
    if events != [] {
      TagCountIsKindCount(events[..|events| - 1], kind);
      var last := events[|events| - 1];
      if KindOf(last).Some? && KindTag(KindOf(last).value) == KindTag(kind) {
        KindTagInjective(KindOf(last).value, kind);
      }
    }
  }

  /** Two strings with the same tag other than `OtherKind` are equal. */
  lemma KindTagInjective(a: string, b: string)
    requires KindTag(a) == KindTag(b) != OtherKind
    ensures a == b
  {
  }

  /**
   * `event_counts` counts events by string kind, and each named counter
   * counts the events of its kind; events without a string kind change
   * nothing.
   */
  lemma {:induction false} TallyCountsKinds(events: seq<Json>)
    requires TallyOf(events).Ok?
    ensures var t := TallyOf(events).value;
            && (forall kind :: CountOf(t.eventCounts, kind) == KindCount(events, kind))
            && t.counters.llmReq == TagCount(events, LlmReq) && t.counters.llmDone == TagCount(events, LlmDone)
            && t.counters.toolPlan == TagCount(events, ToolPlan) && t.counters.toolStart == TagCount(events, ToolStart)
            && t.counters.toolDone == TagCount(events, ToolDone) && t.counters.notesPatch == TagCount(events, NotesPatch)
  {
    if events != [] {
      TallyCountsKinds(events[..|events| - 1]);
    }
  }

  /** The named counters in terms of the kinds' strings. */
  lemma CountersByKind(events: seq<Json>)
    requires TallyOf(events).Ok?
    ensures var c := TallyOf(events).value.counters;
            && c.llmReq == KindCount(events, "llm_req") && c.llmDone == KindCount(events, "llm_done")
            && c.toolPlan == KindCount(events, "tool_plan") && c.toolStart == KindCount(events, "tool_start")
            && c.toolDone == KindCount(events, "tool_done") && c.notesPatch == KindCount(events, "notes_patch")
  {
    TallyCountsKinds(events);
    KindTags();
    TagCountIsKindCount(events, "llm_req");
    TagCountIsKindCount(events, "llm_done");
    TagCountIsKindCount(events, "tool_plan");
    TagCountIsKindCount(events, "tool_start");
    TagCountIsKindCount(events, "tool_done");
    TagCountIsKindCount(events, "notes_patch");
  }

  /** `tool_ok + tool_fail <= tool_done`, and neither is negative. */
  lemma {:induction false} TallyOkFailBound(events: seq<Json>)
    requires TallyOf(events).Ok?
    ensures var c := TallyOf(events).value.counters;
            0 <= c.toolOk && 0 <= c.toolFail && c.toolOk + c.toolFail <= c.toolDone
  {
    if events != [] {
      TallyOkFailBound(events[..|events| - 1]);
    }
  }

  /** The tool an event names, when it is an event of kind `tag` with a string `tool`. */
  function ToolOf(event: Json, tag: Kind): Option<string> {
    if TagOf(event) == Some(tag) then StrField(DataOf(event.fields), "tool") else None
  }

  /** The number of `tool_done` events naming `tool`. */
  function DoneCount(events: seq<Json>, tool: string): nat {
    if events == [] then 0
    else DoneCount(events[..|events| - 1], tool) + (if ToolOf(events[|events| - 1], ToolDone) == Some(tool) then 1 else 0)
  }

  /** Some event of kind `tag` names `tool`. */
  predicate Names(events: seq<Json>, tag: Kind, tool: string) {
    exists k :: 0 <= k < |events| && ToolOf(events[k], tag) == Some(tool)
  }

  /**
   * `tool_counts` has a key for every tool a `tool_start` or `tool_done`
   * names, and its value is the number of `tool_done` events naming it:
   * a tool only ever started appears with 0.
   */
  lemma {:induction false} TallyToolCounts(events: seq<Json>)
    requires TallyOf(events).Ok?
    ensures var t := TallyOf(events).value.tools;
            forall tool :: (tool in t.toolCounts <==> Names(events, ToolStart, tool) || Names(events, ToolDone, tool))
                           && CountOf(t.toolCounts, tool) == DoneCount(events, tool)
  {
    if events != [] {
      var init, last := events[..|events| - 1], events[|events| - 1];
      TallyToolCounts(init);
      assert events == init + [last];
      var before := TallyOf(init).value;
      forall tool
        ensures var t := TallyOf(events).value.tools;
                (tool in t.toolCounts <==> Names(events, ToolStart, tool) || Names(events, ToolDone, tool))
                && CountOf(t.toolCounts, tool) == DoneCount(events, tool)
      {
        ToolCountsStep(before, last, tool);
        NamesSnoc(init, last, ToolStart, tool);
        NamesSnoc(init, last, ToolDone, tool);
      }
    }
  }

  /** One event adds the tool a `tool_start` or `tool_done` names, and counts the tool of a `tool_done`. */
  lemma ToolCountsStep(t: Tally, event: Json, tool: string)
    requires CountEvent(t, event).Ok?
    ensures var before, after := t.tools.toolCounts, CountEvent(t, event).value.tools.toolCounts;
            && (tool in after <==> tool in before || ToolOf(event, ToolStart) == Some(tool) || ToolOf(event, ToolDone) == Some(tool))
            && CountOf(after, tool) == CountOf(before, tool) + (if ToolOf(event, ToolDone) == Some(tool) then 1 else 0)
  {
  }

  lemma NamesSnoc(init: seq<Json>, last: Json, tag: Kind, tool: string)
    ensures Names(init + [last], tag, tool) <==> Names(init, tag, tool) || ToolOf(last, tag) == Some(tool)
  {
    var events := init + [last];
    if Names(init, tag, tool) {
      var k :| 0 <= k < |init| && ToolOf(init[k], tag) == Some(tool);
      assert events[k] == init[k];
    }
    if ToolOf(last, tag) == Some(tool) {
      assert events[|init|] == last;
    }
    if Names(events, tag, tool) {
      var k :| 0 <= k < |events| && ToolOf(events[k], tag) == Some(tool);
      if k < |init| {
        assert events[k] == init[k];
      }
    }
  }

  // ------------------------------------------------------------ failures from the counts

  /** The start ids with no done id, sorted: `sorted(tool_start_ids - tool_done_ids)`. */
  function MissingIds(t: Tally): seq<string> {
    SortStrings(Unmatched(t.tools.startIds, t.tools.doneIds))
  }

  /** The missing ids are exactly the started ids without a done, listed sorted. */
  lemma MissingIdsSpec(t: Tally)
    ensures forall id :: id in MissingIds(t) <==> id in t.tools.startIds && id !in t.tools.doneIds
    ensures var r := MissingIds(t); forall i, j :: 0 <= i < j < |r| ==> StrLe(r[i], r[j])
    ensures MissingIds(t) != [] <==> exists id :: id in t.tools.startIds && id !in t.tools.doneIds
  {
    var missing := Unmatched(t.tools.startIds, t.tools.doneIds);
    var r := SortStrings(missing);
    assert forall id :: id in r <==> id in multiset(r);
    assert forall id :: id in missing <==> id in multiset(missing);
    if r != [] {
      assert r[0] in r;
    }
  }

  /** The items of `ids` that are not in `done`, in order. */
  function Unmatched(ids: seq<string>, done: seq<string>): (r: seq<string>)
    ensures forall id :: id in r <==> id in ids && id !in done
  {
    if ids == [] then []
    else
      assert forall id :: id in ids <==> id == ids[0] || id in ids[1..];
      (if ids[0] in done then [] else [ids[0]]) + Unmatched(ids[1..], done)
  }

  /** `turns or event_counts.get("notes_patch", 0)`, then the fallback when that is not positive. */
  function ResolveTurns(turns: Option<int>, notesPatch: int): (r: (int, bool))
    ensures r.0 >= 1
    ensures r.1 ==> r.0 == 1
    ensures r.1 <==> (if turns.Some? && turns.value != 0 then turns.value else notesPatch) <= 0
    ensures !r.1 ==> r.0 == (if turns.Some? && turns.value != 0 then turns.value else notesPatch)
  {
    var resolved := if turns.Some? && turns.value != 0 then turns.value else notesPatch;
    if resolved <= 0 then
      var given := if turns.Some? then turns.value else 0;
      (if given > 1 then given else 1, true)
    else (resolved, false)
  }

  /** The failures found from the events before the checkpoint is read. */
  function TraceFailures(events: seq<Json>, t: Tally, maxToolFailRate: real): seq<Failure> {
    EmptyPart(events) + CountPart(t.counters) + MissingPart(t) + RatePart(t.counters, maxToolFailRate)
  }

  function EmptyPart(events: seq<Json>): seq<Failure> {
    if events == [] then [NoEvents] else []
  }

  function CountPart(c: Counters): seq<Failure> {
    (if c.llmReq != c.llmDone then [LlmMismatch(c.llmReq, c.llmDone)] else [])
    + (if c.toolPlan != c.toolStart || c.toolStart != c.toolDone then [ToolMismatch(c.toolPlan, c.toolStart, c.toolDone)] else [])
  }

  function MissingPart(t: Tally): seq<Failure> {
    var missing := MissingIds(t);
    if missing != [] then [MissingDone(missing)] else []
  }

  /** `tool_fail / max(tool_done, 1)` against the allowed rate. */
  function RatePart(c: Counters, maxToolFailRate: real): seq<Failure> {
    var rate := (c.toolFail as real) / (if c.toolDone > 1 then c.toolDone else 1) as real;
    if rate > maxToolFailRate then [FailRateExceeded(rate, maxToolFailRate)] else []
  }

  /** An empty trace is reported exactly when there are no events. */
  lemma NoEventsIff(events: seq<Json>, t: Tally, maxToolFailRate: real)
    ensures NoEvents in TraceFailures(events, t, maxToolFailRate) <==> events == []
  {
    assert NoEvents !in CountPart(t.counters) && NoEvents !in MissingPart(t);
    assert NoEvents !in RatePart(t.counters, maxToolFailRate);
  }

  /** Unequal request and completion totals, and unequal plan, start and done totals, are each reported exactly when they hold. */
  lemma MismatchIff(events: seq<Json>, t: Tally, maxToolFailRate: real)
    ensures var c := t.counters;
            var failures := TraceFailures(events, t, maxToolFailRate);
            && (LlmMismatch(c.llmReq, c.llmDone) in failures <==> c.llmReq != c.llmDone)
            && (ToolMismatch(c.toolPlan, c.toolStart, c.toolDone) in failures <==>
                  c.toolPlan != c.toolStart || c.toolStart != c.toolDone)
  {
    var c := t.counters;
    var llm, tool := LlmMismatch(c.llmReq, c.llmDone), ToolMismatch(c.toolPlan, c.toolStart, c.toolDone);
    assert llm !in EmptyPart(events) && llm !in MissingPart(t) && llm !in RatePart(c, maxToolFailRate);
    assert tool !in EmptyPart(events) && tool !in MissingPart(t) && tool !in RatePart(c, maxToolFailRate);
  }

  /** Started ids without a done are reported exactly when there are some, listed sorted. */
  lemma MissingDoneIff(events: seq<Json>, t: Tally, maxToolFailRate: real)
    ensures MissingDone(MissingIds(t)) in TraceFailures(events, t, maxToolFailRate)
            <==> exists id :: id in t.tools.startIds && id !in t.tools.doneIds
  {
    var m := MissingDone(MissingIds(t));
    assert m !in EmptyPart(events);
    assert m !in CountPart(t.counters);
    assert m !in RatePart(t.counters, maxToolFailRate);
    assert m in TraceFailures(events, t, maxToolFailRate) <==> m in MissingPart(t);
    MissingIdsSpec(t);
  }

  /** The only missing-done failure is the one listing the missing ids. */
  lemma MissingDoneOnly(events: seq<Json>, t: Tally, maxToolFailRate: real)
    ensures forall ids :: MissingDone(ids) in TraceFailures(events, t, maxToolFailRate) ==> ids == MissingIds(t)
  {
    assert forall ids :: MissingDone(ids) !in EmptyPart(events) + CountPart(t.counters) + RatePart(t.counters, maxToolFailRate);
  }

  /** The same, for the tally of the events, in terms of how many events of each kind there are. */
  lemma TraceFailuresIff(events: seq<Json>, maxToolFailRate: real)
    requires TallyOf(events).Ok?
    ensures var t := TallyOf(events).value;
            var c := t.counters;
            var failures := TraceFailures(events, t, maxToolFailRate);
            && (NoEvents in failures <==> events == [])
            && (LlmMismatch(c.llmReq, c.llmDone) in failures <==> KindCount(events, "llm_req") != KindCount(events, "llm_done"))
            && (ToolMismatch(c.toolPlan, c.toolStart, c.toolDone) in failures <==>
                  KindCount(events, "tool_plan") != KindCount(events, "tool_start")
                  || KindCount(events, "tool_start") != KindCount(events, "tool_done"))
  {
    var t := TallyOf(events).value;
    NoEventsIff(events, t, maxToolFailRate);
    MismatchIff(events, t, maxToolFailRate);
    CountersByKind(events);
  }

  /** The analyser's result: the resolved turn count, the counts and the failures, in order. */
  datatype Summary = Summary(turns: int, tally: Tally, failures: seq<Failure>)

  /**
   * The counting and checking of `analyze_soak`: events, then the
   * checkpoint, then the turn count. `Err` is an exception it raises.
   */
  method AnalyzeSoak(events: seq<Json>, checkpoint: map<string, Json>, turns: Option<int>, maxToolFailRate: real)
    returns (r: Result<Summary>)
    ensures r.Ok? <==> TallyOf(events).Ok? && CheckpointFailures(checkpoint, Condense.DefaultPolicy).Ok?
    ensures r.Ok? ==>
              var t := TallyOf(events).value;
              var resolved := ResolveTurns(turns, CountOf(t.eventCounts, "notes_patch"));
              r.value == Summary(resolved.0, t,
                TraceFailures(events, t, maxToolFailRate)
                + CheckpointFailures(checkpoint, Condense.DefaultPolicy).value
                + (if resolved.1 then [TurnsUnknown] else []))
  {
    var tally := CountEvents(events);
    if tally.Err? {
      return Err(tally.msg);
    }
    var t := tally.value;
    var failures := TraceFailures(events, t, maxToolFailRate);
    var checked := ValidateCheckpoint(checkpoint, Condense.DefaultPolicy);
    if checked.Err? {
      return Err(checked.msg);
    }
    failures := failures + checked.value;
    var resolved := ResolveTurns(turns, CountOf(t.eventCounts, "notes_patch"));
    if resolved.1 {
      failures := failures + [TurnsUnknown];
    }
    return Ok(Summary(resolved.0, t, failures));
  }
}
