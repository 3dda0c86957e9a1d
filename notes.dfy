/**
 * The notes protocol: a role may end its answer with a JSON object framed by
 * `<<<NOTES_JSON>>>` and `<<<END_NOTES_JSON>>>`. `ExtractNotes` cuts that
 * block out of the visible text and turns it into a `NotesPatch`.
 */
module Notes {
  import opened Wrappers
  import opened Strings
  import opened JsonValue
  import opened MarkerBlock

  const StartMarker: string := "<<<NOTES_JSON>>>"
  const EndMarker: string := "<<<END_NOTES_JSON>>>"

  datatype NotesPatch = NotesPatch(
    setGoals: seq<string>,
    addOpenLoops: seq<string>,
    closeOpenLoops: seq<string>,
    addDecisions: seq<string>,
    addConstraints: seq<string>,
    setEpisodeSummary: Option<string>,
    addMemoryTags: seq<string>,
    actions: seq<string>)

  /** The answer of `extract_notes`: the visible text and the patch, if any. */
  datatype NotesResult = NotesResult(visible: string, patch: Option<NotesPatch>)

  /** `_ensure_list`: `None` reads as `[]`, a list of strings is kept, anything else fails. */
  function EnsureList(v: Json): (r: Option<seq<string>>)
    ensures r.Some? <==> v.JNull? || IsStringList(v)
    ensures r.Some? && v.JNull? ==> r.value == []
    ensures r.Some? && !v.JNull? ==> StringList(r.value) == v
  {
    if v.JNull? then Some([])
    else if IsStringList(v) then
      var xs := StringsOf(v);
      assert StringList(xs).items == v.items;
      Some(xs)
    else None
  }

  /** `_ensure_str`: a string is kept; `None` and every non-string read as absent. */
  function EnsureStr(v: Json): (r: Option<string>)
    ensures r.Some? <==> v.JStr?
    ensures r.Some? ==> v == JStr(r.value)
  {
    if v.JStr? then Some(v.s) else None
  }

  /** A list field is acceptable when it is absent, `null`, or a list of strings. */
  predicate ListFieldOk(data: map<string, Json>, key: string) {
    Get(data, key).JNull? || IsStringList(Get(data, key))
  }

  /** All seven list fields of a notes payload are acceptable. */
  predicate ListFieldsOk(data: map<string, Json>) {
    && ListFieldOk(data, "set_goals") && ListFieldOk(data, "add_open_loops")
    && ListFieldOk(data, "close_open_loops") && ListFieldOk(data, "add_decisions")
    && ListFieldOk(data, "add_constraints") && ListFieldOk(data, "add_memory_tags")
    && ListFieldOk(data, "actions")
  }

  /** `_coerce_patch` */
  function CoercePatch(data: map<string, Json>): (r: Option<NotesPatch>)
    ensures r.Some? <==> ListFieldsOk(data)
  {
    var setGoals := EnsureList(Get(data, "set_goals"));
    var addOpenLoops := EnsureList(Get(data, "add_open_loops"));
    var closeOpenLoops := EnsureList(Get(data, "close_open_loops"));
    var addDecisions := EnsureList(Get(data, "add_decisions"));
    var addConstraints := EnsureList(Get(data, "add_constraints"));
    var addMemoryTags := EnsureList(Get(data, "add_memory_tags"));
    var actions := EnsureList(Get(data, "actions"));
    var summary := EnsureStr(Get(data, "set_episode_summary"));
    if setGoals.None? || addOpenLoops.None? || closeOpenLoops.None? || addDecisions.None?
       || addConstraints.None? || addMemoryTags.None? || actions.None?
    then None
    else Some(NotesPatch(setGoals.value, addOpenLoops.value, closeOpenLoops.value,
                         addDecisions.value, addConstraints.value, summary,
                         addMemoryTags.value, actions.value))
  }

  /** The list a coerced patch holds for one list field: the strings given, or `[]` when absent. */
  function ListField(data: map<string, Json>, key: string): seq<string>
    requires ListFieldOk(data, key)
  {
    if Get(data, key).JNull? then [] else StringsOf(Get(data, key))
  }

  /**
   * What an accepted patch holds: each list field as given (absent means
   * `[]`), and the episode summary only when it is a string.
   */
  lemma CoercePatchFields(data: map<string, Json>)
    requires CoercePatch(data).Some?
    ensures var p := CoercePatch(data).value;
      && ListFieldsOk(data)
      && p.setGoals == ListField(data, "set_goals")
      && p.addOpenLoops == ListField(data, "add_open_loops")
      && p.closeOpenLoops == ListField(data, "close_open_loops")
      && p.addDecisions == ListField(data, "add_decisions")
      && p.addConstraints == ListField(data, "add_constraints")
      && p.addMemoryTags == ListField(data, "add_memory_tags")
      && p.actions == ListField(data, "actions")
      && (Get(data, "set_episode_summary").JStr? ==> p.setEpisodeSummary == Some(Get(data, "set_episode_summary").s))
      && (!Get(data, "set_episode_summary").JStr? ==> p.setEpisodeSummary == None)
  {
    forall key | ListFieldOk(data, key)
      ensures EnsureList(Get(data, key)) == Some(ListField(data, key))
    {
      if !Get(data, key).JNull? {
        var v := Get(data, key);
        assert StringList(StringsOf(v)).items == v.items;
      }
    }
  }

  /** A summary of the wrong type is dropped, not an error: the patch still applies. */
  lemma NonStringSummaryIgnored(data: map<string, Json>)
    requires ListFieldsOk(data)
    requires !Get(data, "set_episode_summary").JStr?
    ensures CoercePatch(data).Some? && CoercePatch(data).value.setEpisodeSummary == None
  {
  }

  /** A patch written back as the JSON object it was read from (absent summary: no key). */
  function EncodePatch(p: NotesPatch): (data: map<string, Json>)
    ensures p.setEpisodeSummary.None? ==> "set_episode_summary" !in data
  {
    var lists := map[
      "set_goals" := StringList(p.setGoals),
      "add_open_loops" := StringList(p.addOpenLoops),
      "close_open_loops" := StringList(p.closeOpenLoops),
      "add_decisions" := StringList(p.addDecisions),
      "add_constraints" := StringList(p.addConstraints),
      "add_memory_tags" := StringList(p.addMemoryTags),
      "actions" := StringList(p.actions)];
    if p.setEpisodeSummary.Some? then lists["set_episode_summary" := JStr(p.setEpisodeSummary.value)]
    else lists
  }

  /** Round trip: coercing an encoded patch gives the patch back. */
  lemma CoerceEncodedPatch(p: NotesPatch)
    ensures CoercePatch(EncodePatch(p)) == Some(p)
  {
    var data := EncodePatch(p);
    assert Get(data, "set_goals") == StringList(p.setGoals);
    assert Get(data, "add_open_loops") == StringList(p.addOpenLoops);
    assert Get(data, "close_open_loops") == StringList(p.closeOpenLoops);
    assert Get(data, "add_decisions") == StringList(p.addDecisions);
    assert Get(data, "add_constraints") == StringList(p.addConstraints);
    assert Get(data, "add_memory_tags") == StringList(p.addMemoryTags);
    assert Get(data, "actions") == StringList(p.actions);
  }

  /** `extract_notes`, with `json.loads` as the parameter `decode`. */
  function ExtractNotes(text: string, decode: Decoder): (r: NotesResult)
    ensures r.patch.None? ==> r.visible == text
  {
    match ExtractBlock(text, StartMarker, EndMarker)
    case None => NotesResult(text, None)
    case Some(b) =>
      match decode(b.payload)
      case None => NotesResult(text, None)
      case Some(data) =>
        if !data.JObj? then NotesResult(text, None)
        else
          match CoercePatch(data.fields)
          case None => NotesResult(text, None)
          case Some(p) =>
            ExtractBlockBounds(text, StartMarker, EndMarker);
            NotesResult(Splice(text, b), Some(p))
  }

  /**
   * A patch comes out exactly when the first framed block decodes to an
   * object that `_coerce_patch` accepts; the visible text is then the input
   * with that block (markers included) cut out.
   */
  lemma ExtractNotesAccepted(text: string, decode: Decoder)
    ensures var r := ExtractNotes(text, decode);
            var found := ExtractBlock(text, StartMarker, EndMarker);
      r.patch.Some? <==>
        && found.Some?
        && decode(found.value.payload).Some?
        && decode(found.value.payload).value.JObj?
        && CoercePatch(decode(found.value.payload).value.fields).Some?
    ensures var r := ExtractNotes(text, decode);
            var found := ExtractBlock(text, StartMarker, EndMarker);
      r.patch.Some? ==>
        && found.value.start <= found.value.stop <= |text|
        && r.visible == Splice(text, found.value)
        && r.patch == CoercePatch(decode(found.value.payload).value.fields)
  {
    ExtractBlockBounds(text, StartMarker, EndMarker);
  }

  /** With no start marker, or no end marker after the first one, nothing changes. */
  lemma ExtractNotesNoBlock(text: string, decode: Decoder)
    requires !Contains(text, StartMarker)
          || exists s :: Find(text, StartMarker) == Some(s) && FindFrom(text, EndMarker, s).None?
    ensures ExtractNotes(text, decode) == NotesResult(text, None)
  {
    if !Contains(text, StartMarker) {
      FindIsContains(text, StartMarker);
    }
  }

  lemma NotesMarkersSeparated()
    ensures Separated(StartMarker, EndMarker)
  {
  }

  /**
   * Round trip: prose, a framed payload that decodes to an encoded patch,
   * then more prose, gives back the patch and the two prose parts joined.
   */
  lemma {:induction false} ExtractNotesRoundTrip(pre: string, payload: string, post: string, p: NotesPatch, decode: Decoder)
    requires !Contains(pre, StartMarker) && !Contains(payload, EndMarker)
    requires decode(Strip(payload)) == Some(JObj(EncodePatch(p)))
    ensures ExtractNotes(pre + StartMarker + payload + EndMarker + post, decode) == NotesResult(pre + post, Some(p))
  {
    NotesMarkersSeparated();
    ExtractFramed(pre, payload, post, StartMarker, EndMarker);
    CoerceEncodedPatch(p);
  }
}
