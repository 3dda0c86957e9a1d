/**
 * The admin operations on a session's open loops. Each open loop is one
 * JSON object stored as a string in `state.open_loops`, with an id of
 * the form `loop-<n>`, a title and optional details, tags and priority.
 *
 * Arguments arrive as decoded JSON values (`JNull` is `None`). The
 * compact `json.dumps` used for entries is the parameter `entryDumps`.
 */
module OpenLoopsAdmin {
  import opened Wrappers
  import opened JsonValue
  import opened Strings
  import opened Types
  import opened Checkpoints

  const MaxTitleChars: nat := 200
  const MaxDetailsChars: nat := 1000
  const MaxTags: nat := 10
  const MaxTagChars: nat := 32
  const MinPriority: int := 0
  const MaxPriority: int := 10
  const IdPrefix: string := "loop-"

  const SessionNotFound: string := "session not found"

  // ------------------------------------------------------------ parsing entries

  /** The keys `_parse_entry` copies besides `id`. */
  predicate IsEntryKey(k: string) {
    k == "title" || k == "details" || k == "tags" || k == "priority"
  }

  /** `{"id": None, "raw": raw}` */
  function RawEntry(raw: string): map<string, Json> {
    map["id" := JNull, "raw" := JStr(raw)]
  }

  /** `_parse_entry`: the id (`None` when absent) and whichever of the four entry keys are present. */
  function ParseEntry(raw: string, decode: Decoder): (r: map<string, Json>)
    ensures "id" in r
    ensures (decode(raw).None? || !decode(raw).value.JObj?) ==> r == RawEntry(raw)
    ensures decode(raw).Some? && decode(raw).value.JObj? ==>
              var f := decode(raw).value.fields;
              && r["id"] == Get(f, "id")
              && (forall k :: k in r <==> k == "id" || (IsEntryKey(k) && k in f))
              && (forall k :: k in r && k != "id" ==> r[k] == f[k])
  {
    match decode(raw)
    case None => RawEntry(raw)
    case Some(payload) =>
      if !payload.JObj? then RawEntry(raw)
      else
        var f := payload.fields;
        (map k | k in f && IsEntryKey(k) :: f[k])["id" := Get(f, "id")]
  }

  /** `_parse_entry(raw)["id"]`, read straight from the decoded payload. */
  function EntryId(raw: string, decode: Decoder): Json {
    match decode(raw)
    case None => JNull
    case Some(payload) => if payload.JObj? then Get(payload.fields, "id") else JNull
  }

  /** The id read straight from the payload is the one `_parse_entry` keeps. */
  lemma EntryIdIsParsedId(raw: string, decode: Decoder)
    ensures EntryId(raw, decode) == ParseEntry(raw, decode)["id"]
  {
  }

  /** `_parse_open_loops`: one parsed entry per stored entry, in order. */
  function ParseOpenLoops(entries: seq<string>, decode: Decoder): (r: seq<map<string, Json>>)
    ensures |r| == |entries|
    ensures forall k :: 0 <= k < |entries| ==> r[k] == ParseEntry(entries[k], decode)
  {
    seq(|entries|, k requires 0 <= k < |entries| => ParseEntry(entries[k], decode))
  }

  // ------------------------------------------------------------ _next_loop_id

  /**
   * The number in an id matched by `^loop-(\d+)$`: the digits after the
   * prefix, which `$` also accepts before one final newline.
   */
  function LoopNumber(id: string): (n: Option<nat>) {
    if !IsPrefix(IdPrefix, id) then None
    else
      var rest := id[|IdPrefix|..];
      if |rest| > 0 && AllDigits(rest) then Some(DigitsValue(rest))
      else if |rest| > 1 && rest[|rest| - 1] == '\n' && AllDigits(rest[..|rest| - 1]) then
        Some(DigitsValue(rest[..|rest| - 1]))
      else None
  }

  /** What one entry contributes to the maximum: its loop number, or 0. */
  function EntryNumber(raw: string, decode: Decoder): nat {
    var id := EntryId(raw, decode);
    if id.JStr? && LoopNumber(id.s).Some? then LoopNumber(id.s).value else 0
  }

  /** The largest loop number among the entries, 0 when there is none. */
  function MaxLoopNumber(entries: seq<string>, decode: Decoder): (m: nat)
    ensures forall k :: 0 <= k < |entries| ==> EntryNumber(entries[k], decode) <= m
    ensures |entries| == 0 ==> m == 0
    ensures |entries| > 0 ==> exists k :: 0 <= k < |entries| && EntryNumber(entries[k], decode) == m
  {
    if |entries| == 0 then 0
    else
      var prev := MaxLoopNumber(entries[..|entries| - 1], decode);
      var last := EntryNumber(entries[|entries| - 1], decode);
      assert forall k :: 0 <= k < |entries| - 1 ==> entries[k] == entries[..|entries| - 1][k];
      if last > prev then last else prev
  }

  function NextLoopIdSpec(entries: seq<string>, decode: Decoder): string {
    IdPrefix + NatToString(MaxLoopNumber(entries, decode) + 1)
  }

  /** `_next_loop_id`: one more than the largest loop number, as `loop-<n>`. */
  method NextLoopId(entries: seq<string>, decode: Decoder) returns (id: string)
    ensures id == NextLoopIdSpec(entries, decode)
  {
    var maxId: nat := 0;
    for i := 0 to |entries|
      invariant maxId == MaxLoopNumber(entries[..i], decode)
    {
      assert entries[..i + 1][..i] == entries[..i];
      var loopId := EntryId(entries[i], decode);
      if !loopId.JStr? {
        continue;
      }
      var m := LoopNumber(loopId.s);
      if m.Some? {
        maxId := if m.value > maxId then m.value else maxId;
      }
    }
    assert entries[..|entries|] == entries;
    id := IdPrefix + NatToString(maxId + 1);
  }

  lemma {:induction false} LoopNumberOf(n: nat)
    ensures LoopNumber(IdPrefix + NatToString(n)) == Some(n)
  {
    var id := IdPrefix + NatToString(n);
    assert id[|IdPrefix|..] == NatToString(n);
    DigitsValueOfNatToString(n);
  }

  /** The new id is fresh: no stored entry carries it. */
  lemma NextLoopIdFresh(entries: seq<string>, decode: Decoder)
    ensures forall k :: 0 <= k < |entries| ==> EntryId(entries[k], decode) != JStr(NextLoopIdSpec(entries, decode))
  {
    var m := MaxLoopNumber(entries, decode);
    LoopNumberOf(m + 1);
  }

  // ------------------------------------------------------------ _remove_open_loop

  /** The parsed id of every entry, in order. */
  function EntryIds(entries: seq<string>, decode: Decoder): (ids: seq<Json>)
    ensures |ids| == |entries|
    ensures forall k :: 0 <= k < |entries| ==> ids[k] == EntryId(entries[k], decode)
  {
    seq(|entries|, k requires 0 <= k < |entries| => EntryId(entries[k], decode))
  }

  /** The index of the first id equal to `target`. */
  function FirstMatch(ids: seq<Json>, target: Json): (r: Option<nat>)
    ensures r.None? ==> forall k :: 0 <= k < |ids| ==> ids[k] != target
    ensures r.Some? ==> r.value < |ids| && ids[r.value] == target
    ensures r.Some? ==> forall k :: 0 <= k < r.value ==> ids[k] != target
  {
    if |ids| == 0 then None
    else if ids[0] == target then Some(0)
    else
      var rest := FirstMatch(ids[1..], target);
      assert forall k :: 1 <= k < |ids| ==> ids[k] == ids[1..][k - 1];
      if rest.Some? then Some(rest.value + 1) else None
  }

  /**
   * `_remove_open_loop`: an empty id is refused before anything else;
   * otherwise the first entry with that id goes and the rest stay in
   * order, and an id no entry carries is an error.
   */
  function RemoveOpenLoopSpec(entries: seq<string>, loopId: string, decode: Decoder): (r: Result<seq<string>>)
    ensures loopId == "" ==> r == Err("loop_id must be a non-empty string")
    ensures loopId != "" && (forall k :: 0 <= k < |entries| ==> EntryId(entries[k], decode) != JStr(loopId)) ==>
              r == Err("open loop not found")
    ensures r.Ok? ==> |r.value| == |entries| - 1
  {
    if loopId == "" then Err("loop_id must be a non-empty string")
    else
      match FirstMatch(EntryIds(entries, decode), JStr(loopId))
      case None => Err("open loop not found")
      case Some(j) => Ok(entries[..j] + entries[j + 1..])
  }

  /**
   * Removing drops exactly the first entry carrying the id and keeps
   * every other entry in order, later ones with the same id included.
   */
  lemma RemoveKeepsOthers(entries: seq<string>, loopId: string, decode: Decoder)
    requires RemoveOpenLoopSpec(entries, loopId, decode).Ok?
    ensures var j := FirstMatch(EntryIds(entries, decode), JStr(loopId)).value;
            var r := RemoveOpenLoopSpec(entries, loopId, decode).value;
            && EntryId(entries[j], decode) == JStr(loopId)
            && (forall k :: 0 <= k < j ==> EntryId(entries[k], decode) != JStr(loopId))
            && (forall k :: 0 <= k < j ==> r[k] == entries[k])
            && (forall k :: j < k < |entries| ==> r[k - 1] == entries[k])
  {
  }

  /** One more kept element after the removed index `j`. */
  lemma KeepAfter<T>(s: seq<T>, j: nat, i: nat)
    requires j < i < |s|
    ensures (s[..j] + s[j + 1..i]) + [s[i]] == s[..j] + s[j + 1..i + 1]
  {
    assert s[j + 1..i + 1] == s[j + 1..i] + [s[i]];
  }

  method RemoveOpenLoop(entries: seq<string>, loopId: string, decode: Decoder) returns (r: Result<seq<string>>)
    ensures r == RemoveOpenLoopSpec(entries, loopId, decode)
  {
    if loopId == "" {
      return Err("loop_id must be a non-empty string");
    }
    ghost var ids := EntryIds(entries, decode);
    var target := JStr(loopId);
    var remaining: seq<string> := [];
    var removed := false;
    ghost var j := 0;
    for i := 0 to |entries|
      invariant !removed ==> remaining == entries[..i] && target !in ids[..i]
      invariant removed ==> j < i && ids[j] == target && target !in ids[..j]
      invariant removed ==> remaining == entries[..j] + entries[j + 1..i]
    {
      var id := EntryId(entries[i], decode);
      assert id == ids[i];
      assert ids[..i + 1] == ids[..i] + [ids[i]];
      if removed {
        KeepAfter(entries, j, i);
        remaining := remaining + [entries[i]];
      } else if id == target {
        removed := true;
        j := i;
        assert entries[j + 1..i + 1] == [];
      } else {
        assert entries[..i + 1] == entries[..i] + [entries[i]];
        remaining := remaining + [entries[i]];
      }
    }
    if !removed {
      assert ids[..|entries|] == ids;
      return Err("open loop not found");
    }
    assert forall k :: 0 <= k < j ==> ids[k] in ids[..j];
    assert FirstMatch(ids, target) == Some(j);
    assert entries[j + 1..|entries|] == entries[j + 1..];
    return Ok(remaining);
  }

  // ------------------------------------------------------------ validators

  /** `_validate_title`: a string, non-empty after stripping and at most 200 characters. */
  function ValidateTitle(title: Json): (r: Result<()>)
    ensures r.Ok? <==> title.JStr? && 0 < |Strip(title.s)| <= MaxTitleChars
  {
    if !title.JStr? then Err("title must be a string")
    else if |Strip(title.s)| == 0 then Err("title must be non-empty")
    else if |Strip(title.s)| > MaxTitleChars then Err("title too long")
    else Ok(())
  }

  /** `_validate_details`: blank details become `None`, long ones are refused, others are stripped. */
  function ValidateDetails(details: Json): (r: Result<Option<string>>)
    ensures details.JNull? ==> r == Ok(None)
    ensures details.JStr? && |Strip(details.s)| == 0 ==> r == Ok(None)
    ensures details.JStr? && |Strip(details.s)| > MaxDetailsChars ==> r == Err("details too long")
    ensures r.Ok? && r.value.Some? ==>
              details.JStr? && r.value.value == Strip(details.s) && 0 < |r.value.value| <= MaxDetailsChars
    ensures !details.JNull? && !details.JStr? ==> r == Err("details must be a string")
  {
    if details.JNull? then Ok(None)
    else if !details.JStr? then Err("details must be a string")
    else
      var stripped := Strip(details.s);
      if |stripped| == 0 then Ok(None)
      else if |stripped| > MaxDetailsChars then Err("details too long")
      else Ok(Some(stripped))
  }

  /** The loop over the tags: blank tags are dropped, the others stripped and bounded. */
  function CleanTags(items: seq<Json>): (r: Result<seq<string>>)
    ensures r.Ok? ==> |r.value| <= |items|
    ensures r.Ok? ==> forall k :: 0 <= k < |r.value| ==> 0 < |r.value[k]| <= MaxTagChars
    ensures r.Ok? ==> forall k :: 0 <= k < |items| ==> items[k].JStr?
    ensures r.Ok? ==> forall k :: 0 <= k < |items| && |Strip(items[k].s)| > 0 ==> Strip(items[k].s) in r.value
  {
    if |items| == 0 then Ok([])
    else if !items[0].JStr? then Err("tags must be strings")
    else
      var stripped := Strip(items[0].s);
      if |stripped| == 0 then
        var rest :- CleanTags(items[1..]);
        assert forall k :: 1 <= k < |items| ==> items[k] == items[1..][k - 1];
        Ok(rest)
      else if |stripped| > MaxTagChars then Err("tag too long")
      else
        var rest :- CleanTags(items[1..]);
        assert forall k :: 1 <= k < |items| ==> items[k] == items[1..][k - 1];
        Ok([stripped] + rest)
  }

  /** `_validate_tags`: at most 10 tags, counted before blanks are dropped; no tags left is `None`. */
  function ValidateTags(tags: Json): (r: Result<Option<seq<string>>>)
    ensures tags.JNull? ==> r == Ok(None)
    ensures tags.JArr? && |tags.items| > MaxTags ==> r == Err("too many tags")
    ensures r.Ok? && r.value.Some? ==>
              && 0 < |r.value.value| <= MaxTags
              && forall k :: 0 <= k < |r.value.value| ==> 0 < |r.value.value[k]| <= MaxTagChars
  {
    if tags.JNull? then Ok(None)
    else if !tags.JArr? then Err("tags must be a list of strings")
    else if |tags.items| > MaxTags then Err("too many tags")
    else
      var cleaned :- CleanTags(tags.items);
      if cleaned == [] then Ok(None) else Ok(Some(cleaned))
  }

  /** `_validate_priority`: `None`, or an int (a bool counts) from 0 to 10. */
  function ValidatePriority(priority: Json): (r: Result<Option<Json>>)
    ensures r.Ok? <==> priority.JNull? || (IsPyInt(priority) && MinPriority <= PyIntValue(priority) <= MaxPriority)
    ensures r.Ok? && r.value.Some? ==> r.value.value == priority
    ensures priority.JNull? ==> r == Ok(None)
  {
    if priority.JNull? then Ok(None)
    else if !IsPyInt(priority) then Err("priority must be an integer")
    else if PyIntValue(priority) < MinPriority || PyIntValue(priority) > MaxPriority then Err("priority out of range")
    else Ok(Some(priority))
  }

  // ------------------------------------------------------------ _build_entry

  /** The entry object: id and stripped title, plus whichever optional parts are present. */
  function EntryPayload(id: string, title: string, details: Option<string>, tags: Option<seq<string>>,
                        priority: Option<Json>): Json
  {
    var base := map["id" := JStr(id), "title" := JStr(title)];
    var withDetails := if details.Some? then base["details" := JStr(details.value)] else base;
    var withTags := if tags.Some? then withDetails["tags" := StringList(tags.value)] else withDetails;
    JObj(if priority.Some? then withTags["priority" := priority.value] else withTags)
  }

  /** `_build_entry`: the validators run in order and the first failure is raised. */
  function BuildEntrySpec(existing: seq<string>, title: Json, details: Json, tags: Json, priority: Json,
                          decode: Decoder, entryDumps: Dumps): Result<string>
  {
    var _ :- ValidateTitle(title);
    var d :- ValidateDetails(details);
    var t :- ValidateTags(tags);
    var p :- ValidatePriority(priority);
    Ok(entryDumps(EntryPayload(NextLoopIdSpec(existing, decode), Strip(title.s), d, t, p)))
  }

  method BuildEntry(existing: seq<string>, title: Json, details: Json, tags: Json, priority: Json,
                    decode: Decoder, entryDumps: Dumps) returns (r: Result<string>)
    ensures r == BuildEntrySpec(existing, title, details, tags, priority, decode, entryDumps)
  {
    var ok := ValidateTitle(title);
    if ok.Err? {
      return Err(ok.msg);
    }
    var d := ValidateDetails(details);
    if d.Err? {
      return Err(d.msg);
    }
    var t := ValidateTags(tags);
    if t.Err? {
      return Err(t.msg);
    }
    var p := ValidatePriority(priority);
    if p.Err? {
      return Err(p.msg);
    }
    var id := NextLoopId(existing, decode);
    return Ok(entryDumps(EntryPayload(id, Strip(title.s), d.value, t.value, p.value)));
  }

  /** An entry text that decodes to a built payload parses to exactly that payload's parts. */
  lemma PayloadParses(raw: string, decode: Decoder, id: string, title: string, details: Option<string>,
                      tags: Option<seq<string>>, priority: Option<Json>)
    requires decode(raw) == Some(EntryPayload(id, title, details, tags, priority))
    ensures var e := ParseEntry(raw, decode);
            && e["id"] == JStr(id)
            && "title" in e && e["title"] == JStr(title)
            && ("details" in e <==> details.Some?)
            && ("tags" in e <==> tags.Some?)
            && ("priority" in e <==> priority.Some?)
  {
    var f := EntryPayload(id, title, details, tags, priority).fields;
    assert "id" in f && f["id"] == JStr(id);
    assert "title" in f && f["title"] == JStr(title);
    assert "details" in f <==> details.Some?;
    assert "tags" in f <==> tags.Some?;
    assert "priority" in f <==> priority.Some?;
  }

  /**
   * A built entry parses back to its fresh id, the stripped title and
   * exactly the optional parts that were given, provided `json.loads`
   * reads back what `json.dumps` wrote.
   */
  lemma BuiltEntryParses(existing: seq<string>, title: Json, details: Json, tags: Json, priority: Json,
                         decode: Decoder, entryDumps: Dumps)
    requires BuildEntrySpec(existing, title, details, tags, priority, decode, entryDumps).Ok?
    requires forall j: Json {:trigger entryDumps(j)} :: decode(entryDumps(j)) == Some(j)
    ensures var raw := BuildEntrySpec(existing, title, details, tags, priority, decode, entryDumps).value;
            var e := ParseEntry(raw, decode);
            && e["id"] == JStr(NextLoopIdSpec(existing, decode))
            && "title" in e && e["title"] == JStr(Strip(title.s))
            && ("details" in e <==> ValidateDetails(details).value.Some?)
            && ("tags" in e <==> ValidateTags(tags).value.Some?)
            && ("priority" in e <==> !priority.JNull?)
  {
    var d := ValidateDetails(details).value;
    var t := ValidateTags(tags).value;
    var p := ValidatePriority(priority).value;
    var id := NextLoopIdSpec(existing, decode);
    var payload := EntryPayload(id, Strip(title.s), d, t, p);
    var raw := entryDumps(payload);
    assert BuildEntrySpec(existing, title, details, tags, priority, decode, entryDumps).value == raw;
    assert decode(raw) == Some(payload);
    PayloadParses(raw, decode, id, Strip(title.s), d, t, p);
  }

  // ------------------------------------------------------------ the operations

  function CheckpointsDir(dataRoot: string): string {
    dataRoot + "/checkpoints"
  }

  /** `list_open_loops`: the parsed entries of a stored session; an unknown session is an error. */
  function ListOpenLoops(files: map<string, string>, sessionId: string, dataRoot: string, decode: Decoder)
    : (r: Result<seq<map<string, Json>>>)
    ensures LoadLatest(files, sessionId, Some(CheckpointsDir(dataRoot)), decode) == Ok(None) ==>
              r == Err(SessionNotFound)
    ensures r.Ok? ==>
              var latest := LoadLatest(files, sessionId, Some(CheckpointsDir(dataRoot)), decode);
              latest.Ok? && latest.value.Some? &&
              r.value == ParseOpenLoops(latest.value.value.state.openLoops, decode)
  {
    var latest :- LoadLatest(files, sessionId, Some(CheckpointsDir(dataRoot)), decode);
    if latest.None? then Err(SessionNotFound)
    else Ok(ParseOpenLoops(latest.value.state.openLoops, decode))
  }

  /** The checkpoint with its open loops replaced, saved once. */
  function WithLoops(c: CheckpointValue, loops: seq<string>, saveTime: real): CheckpointValue {
    c.(revision := c.revision + 1, updatedTs := saveTime, state := c.state.(openLoops := loops))
  }

  /**
   * `add_open_loop`: on a loaded or new checkpoint, exactly one entry is
   * appended and the checkpoint is saved; a refused argument leaves the
   * files as they were.
   */
  method AddOpenLoop(disk: Disk, sessionId: string, title: Json, details: Json, tags: Json, priority: Json,
                     dataRoot: string, decode: Decoder, dumps: Dumps, entryDumps: Dumps,
                     loadTime: real, saveTime: real)
    returns (r: Result<seq<map<string, Json>>>, ghost saved: CheckpointValue)
    modifies disk
    ensures var dir := Some(CheckpointsDir(dataRoot));
      match LoadOrCreateValue(old(disk.files), sessionId, dir, decode, loadTime)
      case Err(m) => r == Err(m) && disk.files == old(disk.files)
      case Ok(c) =>
        match BuildEntrySpec(c.state.openLoops, title, details, tags, priority, decode, entryDumps)
        case Err(m) => r == Err(m) && disk.files == old(disk.files)
        case Ok(entry) =>
          && saved == WithLoops(c, c.state.openLoops + [entry], saveTime)
          && disk.files == Stored(old(disk.files), CheckpointPath(c.sessionId, dir), dumps(EncodeCheckpoint(saved)))
          && r == Ok(ParseOpenLoops(saved.state.openLoops, decode))
  {
    saved := CheckpointValue("", 0, 0.0, DefaultState, [], []);
    var dir := CheckpointsDir(dataRoot);
    var load := LoadOrCreate(disk, sessionId, Some(dir), decode, loadTime);
    if load.Err? {
      return Err(load.msg), saved;
    }
    var checkpoint := load.value;
    var entry := BuildEntry(checkpoint.state.openLoops, title, details, tags, priority, decode, entryDumps);
    if entry.Err? {
      return Err(entry.msg), saved;
    }
    checkpoint.state.openLoops := checkpoint.state.openLoops + [entry.value];
    var path := SaveCheckpoint(checkpoint, Some(dir), disk, saveTime, dumps);
    saved := checkpoint.Value();
    r := Ok(ParseOpenLoops(checkpoint.state.openLoops, decode));
  }

  /**
   * `close_open_loop`: the first entry with the id is removed and the
   * checkpoint saved; an unknown session or id leaves the files as they
   * were.
   */
  method CloseOpenLoop(disk: Disk, sessionId: string, loopId: string, dataRoot: string, decode: Decoder,
                       dumps: Dumps, saveTime: real)
    returns (r: Result<seq<map<string, Json>>>, ghost saved: CheckpointValue)
    modifies disk
    ensures var dir := Some(CheckpointsDir(dataRoot));
      match LoadLatest(old(disk.files), sessionId, dir, decode)
      case Err(m) => r == Err(m) && disk.files == old(disk.files)
      case Ok(None) => r == Err(SessionNotFound) && disk.files == old(disk.files)
      case Ok(Some(c)) =>
        match RemoveOpenLoopSpec(c.state.openLoops, loopId, decode)
        case Err(m) => r == Err(m) && disk.files == old(disk.files)
        case Ok(loops) =>
          && saved == WithLoops(c, loops, saveTime)
          && disk.files == Stored(old(disk.files), CheckpointPath(c.sessionId, dir), dumps(EncodeCheckpoint(saved)))
          && r == Ok(ParseOpenLoops(loops, decode))
  {
    saved := CheckpointValue("", 0, 0.0, DefaultState, [], []);
    var dir := CheckpointsDir(dataRoot);
    var latest := LoadLatest(disk.files, sessionId, Some(dir), decode);
    if latest.Err? {
      return Err(latest.msg), saved;
    }
    if latest.value.None? {
      return Err(SessionNotFound), saved;
    }
    var checkpoint := new Checkpoint.FromValue(latest.value.value);
    var updated := RemoveOpenLoop(checkpoint.state.openLoops, loopId, decode);
    if updated.Err? {
      return Err(updated.msg), saved;
    }
    checkpoint.state.openLoops := updated.value;
    var path := SaveCheckpoint(checkpoint, Some(dir), disk, saveTime, dumps);
    saved := checkpoint.Value();
    r := Ok(ParseOpenLoops(checkpoint.state.openLoops, decode));
  }
}
