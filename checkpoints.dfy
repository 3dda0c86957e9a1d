/**
 * Checkpoint persistence: a checkpoint is stored as one JSON document per
 * session, `<dir>/<session_id>.json`. Loading validates every field and
 * raises on the first bad one; saving bumps the revision, stamps the
 * time and replaces the file through a `.json.tmp` sibling.
 *
 * The directory is a `Disk` whose `files` map paths to their text.
 * `json.dumps` is the parameter `dumps` and `json.loads` the parameter
 * `decode`; the clock is the parameter `now`.
 */
module Checkpoints {
  import opened Wrappers
  import opened JsonValue
  import opened Types

  const DefaultDir: string := "data/checkpoints"

  /** Python `json.dumps`. */
  type Dumps = Json -> string

  /** The message of `json.JSONDecodeError` (its exact text is not modelled). */
  const InvalidJson: string := "invalid JSON"

  class Disk {
    var files: map<string, string>

    constructor (files: map<string, string>)
      ensures this.files == files
    {
      this.files := files;
    }
  }

  /** `_checkpoint_path`: `<dir>/<session_id>.json`, the directory defaulting to `data/checkpoints`. */
  function CheckpointPath(sessionId: string, baseDir: Option<string>): string {
    (if baseDir.Some? then baseDir.value else DefaultDir) + "/" + sessionId + ".json"
  }

  /** `path.with_suffix(".json.tmp")` on a path ending in `.json`. */
  function TempPath(path: string): string {
    path + ".tmp"
  }

  // ------------------------------------------------------------ encoding (asdict)

  function EncodeState(s: StateValue): Json {
    JObj(map[
      "goals" := StringList(s.goals),
      "open_loops" := StringList(s.openLoops),
      "decisions" := StringList(s.decisions),
      "constraints" := StringList(s.constraints),
      "episode_summary" := JStr(s.episodeSummary),
      "memory_tags" := StringList(s.memoryTags),
      "memory_refs" := StringList(s.memoryRefs),
      "capabilities_granted" := StringList(s.capabilitiesGranted),
      "capabilities_pending" := StringList(s.capabilitiesPending)])
  }

  function EncodeMessage(m: ChatMessage): Json {
    JObj(map["role" := JStr(m.role), "content" := JStr(m.content)])
  }

  function EncodeMessages(ms: seq<ChatMessage>): (r: seq<Json>)
    ensures |r| == |ms|
  {
    seq(|ms|, k requires 0 <= k < |ms| => EncodeMessage(ms[k]))
  }

  /** `asdict(checkpoint)` */
  function EncodeCheckpoint(c: CheckpointValue): Json {
    JObj(map[
      "session_id" := JStr(c.sessionId),
      "revision" := JInt(c.revision),
      "updated_ts" := JFloat(c.updatedTs),
      "state" := EncodeState(c.state),
      "recent_messages" := JArr(EncodeMessages(c.recentMessages)),
      "trace_tail" := StringList(c.traceTail)])
  }

  // ------------------------------------------------------------ validation

  /** `_ensure_list_of_str` */
  function EnsureListOfStr(v: Json, field: string): (r: Result<seq<string>>)
    ensures r.Ok? <==> v.JNull? || IsStringList(v)
    ensures v.JNull? ==> r == Ok([])
    ensures IsStringList(v) ==> r == Ok(StringsOf(v))
    ensures r.Err? ==> r.msg == "checkpoint state field '" + field + "' must be list[str]"
  {
    if v.JNull? then Ok([])
    else if IsStringList(v) then Ok(StringsOf(v))
    else Err("checkpoint state field '" + field + "' must be list[str]")
  }

  /** `_ensure_str` */
  function EnsureStr(v: Json, field: string): (r: Result<string>)
    ensures r.Ok? <==> v.JNull? || v.JStr?
    ensures v.JNull? ==> r == Ok("")
    ensures v.JStr? ==> r == Ok(v.s)
    ensures r.Err? ==> r.msg == "checkpoint state field '" + field + "' must be str"
  {
    if v.JNull? then Ok("")
    else if v.JStr? then Ok(v.s)
    else Err("checkpoint state field '" + field + "' must be str")
  }

  /** `_coerce_state`: the fields are checked in declaration order and the first bad one raises. */
  function CoerceState(payload: Json): (r: Result<StateValue>) {
    if !payload.JObj? then Err("checkpoint state must be an object")
    else
      var f := payload.fields;
      var goals :- EnsureListOfStr(Get(f, "goals"), "goals");
      var openLoops :- EnsureListOfStr(Get(f, "open_loops"), "open_loops");
      var decisions :- EnsureListOfStr(Get(f, "decisions"), "decisions");
      var constraints :- EnsureListOfStr(Get(f, "constraints"), "constraints");
      var summary :- EnsureStr(Get(f, "episode_summary"), "episode_summary");
      var tags :- EnsureListOfStr(Get(f, "memory_tags"), "memory_tags");
      var refs :- EnsureListOfStr(Get(f, "memory_refs"), "memory_refs");
      var granted :- EnsureListOfStr(Get(f, "capabilities_granted"), "capabilities_granted");
      var pending :- EnsureListOfStr(Get(f, "capabilities_pending"), "capabilities_pending");
      Ok(StateValue(goals, openLoops, decisions, constraints, summary, tags, refs, granted, pending))
  }

  function CoerceMessage(item: Json): Result<ChatMessage> {
    if !item.JObj? then Err("checkpoint recent_messages entries must be objects")
    else
      var role := Get(item.fields, "role");
      var content := Get(item.fields, "content");
      if !role.JStr? || !content.JStr? then
        Err("checkpoint recent_messages entries must include role/content strings")
      else Ok(ChatMessage(role.s, content.s))
  }

  /** The entries in order; the first bad entry raises. */
  function CoerceMessageItems(items: seq<Json>): (r: Result<seq<ChatMessage>>)
    ensures r.Ok? ==> |r.value| == |items|
    ensures r.Ok? ==> forall k :: 0 <= k < |items| ==> CoerceMessage(items[k]) == Ok(r.value[k])
  {
    if |items| == 0 then Ok([])
    else
      var m :- CoerceMessage(items[0]);
      var rest :- CoerceMessageItems(items[1..]);
      Ok([m] + rest)
  }

  /** `_coerce_recent_messages` */
  function CoerceRecentMessages(payload: Json): (r: Result<seq<ChatMessage>>) {
    if payload.JNull? then Ok([])
    else if !payload.JArr? then Err("checkpoint recent_messages must be a list")
    else CoerceMessageItems(payload.items)
  }

  /** `_coerce_trace_tail` */
  function CoerceTraceTail(payload: Json): (r: Result<seq<string>>)
    ensures r.Ok? <==> payload.JNull? || IsStringList(payload)
    ensures payload.JNull? ==> r == Ok([])
    ensures IsStringList(payload) ==> r == Ok(StringsOf(payload))
  {
    if payload.JNull? then Ok([])
    else if IsStringList(payload) then Ok(StringsOf(payload))
    else Err("checkpoint trace_tail must be list[str]")
  }

  /** The checks of `load_latest` on a decoded payload, in the order the source makes them. */
  function CheckpointFromPayload(payload: Json): (r: Result<CheckpointValue>)
    ensures !payload.JObj? ==> r == Err("checkpoint payload must be an object")
    ensures payload.JObj? && !Get(payload.fields, "session_id").JStr? ==>
              r == Err("checkpoint session_id must be str")
    ensures payload.JObj? && Get(payload.fields, "session_id").JStr? && !IsPyInt(Get(payload.fields, "revision")) ==>
              r == Err("checkpoint revision must be int")
    ensures r.Ok? ==>
              var f := payload.fields;
              && Get(f, "session_id") == JStr(r.value.sessionId)
              && IsPyInt(Get(f, "revision")) && r.value.revision == PyIntValue(Get(f, "revision"))
              && IsNumber(Get(f, "updated_ts")) && r.value.updatedTs == NumberValue(Get(f, "updated_ts"))
              && CoerceState(Get(f, "state")) == Ok(r.value.state)
              && CoerceRecentMessages(Get(f, "recent_messages")) == Ok(r.value.recentMessages)
              && CoerceTraceTail(Get(f, "trace_tail")) == Ok(r.value.traceTail)
  {
    if !payload.JObj? then Err("checkpoint payload must be an object")
    else
      var f := payload.fields;
      if !Get(f, "session_id").JStr? then Err("checkpoint session_id must be str")
      else if !IsPyInt(Get(f, "revision")) then Err("checkpoint revision must be int")
      else if !IsNumber(Get(f, "updated_ts")) then Err("checkpoint updated_ts must be float")
      else
        var state :- CoerceState(Get(f, "state"));
        var messages :- CoerceRecentMessages(Get(f, "recent_messages"));
        var tail :- CoerceTraceTail(Get(f, "trace_tail"));
        Ok(CheckpointValue(Get(f, "session_id").s, PyIntValue(Get(f, "revision")),
                           NumberValue(Get(f, "updated_ts")), state, messages, tail))
  }

  /** `load_latest`: `None` when nothing is stored for the session. */
  function LoadLatest(files: map<string, string>, sessionId: string, baseDir: Option<string>, decode: Decoder)
    : (r: Result<Option<CheckpointValue>>)
    ensures CheckpointPath(sessionId, baseDir) !in files <==> r == Ok(None)
  {
    var path := CheckpointPath(sessionId, baseDir);
    if path !in files then Ok(None)
    else
      match decode(files[path])
      case None => Err(InvalidJson)
      case Some(payload) =>
        var c :- CheckpointFromPayload(payload);
        Ok(Some(c))
  }

  /** `load_or_create`, with `now` standing for `time.time()`. */
  function LoadOrCreateValue(files: map<string, string>, sessionId: string, baseDir: Option<string>,
                             decode: Decoder, now: real): (r: Result<CheckpointValue>)
  {
    var latest :- LoadLatest(files, sessionId, baseDir, decode);
    if latest.Some? then Ok(latest.value)
    else Ok(CheckpointValue(sessionId, 0, now, DefaultState, [], []))
  }

  /** With nothing stored, a fresh checkpoint: revision 0, default state, no messages, no trace tail. */
  lemma LoadOrCreateDefaults(files: map<string, string>, sessionId: string, baseDir: Option<string>,
                             decode: Decoder, now: real)
    requires CheckpointPath(sessionId, baseDir) !in files
    ensures LoadOrCreateValue(files, sessionId, baseDir, decode, now)
            == Ok(CheckpointValue(sessionId, 0, now, DefaultState, [], []))
  {
  }

  /** A stored checkpoint that loads is returned as it is; a failing load fails `load_or_create` too. */
  lemma LoadOrCreateStored(files: map<string, string>, sessionId: string, baseDir: Option<string>,
                           decode: Decoder, now: real)
    requires CheckpointPath(sessionId, baseDir) in files
    ensures var latest := LoadLatest(files, sessionId, baseDir, decode);
            var r := LoadOrCreateValue(files, sessionId, baseDir, decode, now);
            && (latest.Err? ==> r == Err(latest.msg))
            && (latest.Ok? ==> latest.value.Some? && r == Ok(latest.value.value))
  {
  }

  // ------------------------------------------------------------ round trip

  lemma {:induction false} MessagesRoundTrip(ms: seq<ChatMessage>)
    ensures CoerceMessageItems(EncodeMessages(ms)) == Ok(ms)
    decreases |ms|
  {
    if |ms| > 0 {
      var items := EncodeMessages(ms);
      assert items[1..] == EncodeMessages(ms[1..]);
      MessagesRoundTrip(ms[1..]);
      assert CoerceMessage(items[0]) == Ok(ms[0]);
      assert ms == [ms[0]] + ms[1..];
    }
  }

  lemma StateRoundTrip(s: StateValue)
    ensures CoerceState(EncodeState(s)) == Ok(s)
  {
  }

  /** Decoding the encoding of a checkpoint gives back an equal checkpoint. */
  lemma CheckpointRoundTrip(c: CheckpointValue)
    ensures CheckpointFromPayload(EncodeCheckpoint(c)) == Ok(c)
  {
    var f := EncodeCheckpoint(c).fields;
    assert Get(f, "session_id") == JStr(c.sessionId);
    assert Get(f, "revision") == JInt(c.revision);
    assert Get(f, "updated_ts") == JFloat(c.updatedTs);
    assert Get(f, "state") == EncodeState(c.state);
    assert Get(f, "recent_messages") == JArr(EncodeMessages(c.recentMessages));
    assert Get(f, "trace_tail") == StringList(c.traceTail);
    StateRoundTrip(c.state);
    MessagesRoundTrip(c.recentMessages);
    assert CoerceTraceTail(StringList(c.traceTail)) == Ok(c.traceTail);
  }

  // ------------------------------------------------------------ save_checkpoint

  /** The files after writing `text` to the temporary sibling of `path` and moving it into place. */
  function Stored(files: map<string, string>, path: string, text: string): map<string, string> {
    (files - {TempPath(path)})[path := text]
  }

  /**
   * `save_checkpoint`: the revision goes up by exactly one, the time stamp
   * becomes `now`, and the encoded checkpoint is written to the temporary
   * file, which then replaces the checkpoint file.
   */
  method SaveCheckpoint(checkpoint: Checkpoint, baseDir: Option<string>, disk: Disk, now: real, dumps: Dumps)
    returns (path: string)
    modifies checkpoint, disk
    ensures checkpoint.revision == old(checkpoint.revision) + 1
    ensures checkpoint.updatedTs == now
    ensures checkpoint.sessionId == old(checkpoint.sessionId)
    ensures checkpoint.recentMessages == old(checkpoint.recentMessages)
    ensures checkpoint.traceTail == old(checkpoint.traceTail)
    ensures path == CheckpointPath(checkpoint.sessionId, baseDir)
    ensures disk.files == Stored(old(disk.files), path, dumps(EncodeCheckpoint(checkpoint.Value())))
  {
    path := CheckpointPath(checkpoint.sessionId, baseDir);
    checkpoint.revision := checkpoint.revision + 1;
    checkpoint.updatedTs := now;
    var payload := EncodeCheckpoint(checkpoint.Value());
    var temp := TempPath(path);
    disk.files := disk.files[temp := dumps(payload)];
    var text := disk.files[temp];
    disk.files := (disk.files - {temp})[path := text];
  }

  /**
   * Loading right after a save gives back the saved checkpoint, provided
   * `json.loads` reads back what `json.dumps` wrote.
   */
  lemma LoadAfterSave(files: map<string, string>, c: CheckpointValue, baseDir: Option<string>,
                      dumps: Dumps, decode: Decoder)
    requires decode(dumps(EncodeCheckpoint(c))) == Some(EncodeCheckpoint(c))
    ensures var path := CheckpointPath(c.sessionId, baseDir);
            LoadLatest(Stored(files, path, dumps(EncodeCheckpoint(c))), c.sessionId, baseDir, decode) == Ok(Some(c))
  {
    CheckpointRoundTrip(c);
  }

  /**
   * `load_or_create` as a method: the checkpoint returned is a fresh
   * object holding the stored value, or a new checkpoint when none is
   * stored.
   */
  method LoadOrCreate(disk: Disk, sessionId: string, baseDir: Option<string>, decode: Decoder, now: real)
    returns (r: Result<Checkpoint>)
    ensures var v := LoadOrCreateValue(disk.files, sessionId, baseDir, decode, now);
            && (v.Err? ==> r == Err(v.msg))
            && (v.Ok? ==> r.Ok? && fresh(r.value) && fresh(r.value.state) && r.value.Value() == v.value)
  {
    var v := LoadOrCreateValue(disk.files, sessionId, baseDir, decode, now);
    if v.Err? {
      return Err(v.msg);
    }
    var c := new Checkpoint.FromValue(v.value);
    return Ok(c);
  }
}
