/**
 * The role pipeline of one turn: each role gets a prompt built from the
 * state, the earlier roles' answers, the chat history and the user's
 * text; the governor may run one round of tools; every answer is cleaned
 * of protocol blocks and reasoning, and its notes patch is applied to the
 * state.
 *
 * The backend is the scripted `FakeBackend`. What the code obtains from
 * code outside this model is a parameter: the `repr` text of the state,
 * the `json.dumps` text of tool results and of the history, the JSON
 * decoder, the telemetry block, the memory-feedback text, the retrieval
 * block and the tool handlers (`Env`).
 */
module Pipeline {
  import opened Wrappers
  import opened Strings
  import opened JsonValue
  import opened Types
  import opened Notes
  import opened ToolCalls
  import opened Sanitize
  import opened Condense
  import Capabilities
  import opened Results
  import opened ToolRegistry
  import opened Executor
  import opened FakeBackends

  // ------------------------------------------------------------ _extend_unique

  /** The list after `_extend_unique(target, values)`: each value not yet present is appended. */
  function ExtendUniqueSpec(target: seq<string>, values: seq<string>): seq<string>
    decreases |values|
  {
    if |values| == 0 then target
    else
      var r := ExtendUniqueSpec(target, values[..|values| - 1]);
      if values[|values| - 1] in r then r else r + [values[|values| - 1]]
  }

  /** The target is kept as it was, as a prefix; only values absent from it follow. */
  lemma {:induction false} ExtendUniquePrefix(target: seq<string>, values: seq<string>)
    ensures var r := ExtendUniqueSpec(target, values);
      |target| <= |r| && r[..|target|] == target
      && (forall x :: x in r[|target|..] ==> x !in target && x in values)
    decreases |values|
  {
    if |values| > 0 {
      var init := values[..|values| - 1];
      ExtendUniquePrefix(target, init);
      var r := ExtendUniqueSpec(target, init);
      forall x | x in init ensures x in values {
        var i :| 0 <= i < |init| && init[i] == x;
        assert values[i] == x;
      }
      if values[|values| - 1] !in r {
        var r' := r + [values[|values| - 1]];
        assert r'[|target|..] == r[|target|..] + [values[|values| - 1]];
        forall x | x in target ensures x in r {
          var i :| 0 <= i < |target| && target[i] == x;
          assert r[..|target|][i] == x;
        }
      }
    }
  }

  /** On a duplicate-free target, extending is deduplicating the concatenation. */
  lemma {:induction false} ExtendUniqueIsDedupe(target: seq<string>, values: seq<string>)
    requires NoDup(target)
    ensures ExtendUniqueSpec(target, values) == Dedupe(target + values)
    decreases |values|
  {
    if |values| == 0 {
      assert target + values == target;
    } else {
      var init := values[..|values| - 1];
      ExtendUniqueIsDedupe(target, init);
      var all := target + values;
      assert all[..|all| - 1] == target + init && all[|all| - 1] == values[|values| - 1];
      DedupeLast(all);
    }
  }

  /** One unfolding of `Dedupe` at the last item. */
  lemma DedupeLast(items: seq<string>)
    requires |items| > 0
    ensures var d := Dedupe(items[..|items| - 1]);
      Dedupe(items) == if items[|items| - 1] in d then d else d + [items[|items| - 1]]
  {
  }

  /** So the extended list has no duplicates, and holds exactly the old entries and the values. */
  lemma ExtendUniqueMembers(target: seq<string>, values: seq<string>)
    requires NoDup(target)
    ensures NoDup(ExtendUniqueSpec(target, values))
    ensures forall x :: x in ExtendUniqueSpec(target, values) <==> x in target || x in values
  {
    ExtendUniqueIsDedupe(target, values);
  }

  /** `_extend_unique`: the loop over `values`. */
  method ExtendUnique(target: seq<string>, values: seq<string>) returns (r: seq<string>)
    ensures r == ExtendUniqueSpec(target, values)
  {
    r := target;
    for i := 0 to |values|
      invariant r == ExtendUniqueSpec(target, values[..i])
    {
      assert values[..i + 1][..i] == values[..i];
      if values[i] !in r {
        r := r + [values[i]];
      }
    }
    assert values[..|values|] == values;
  }

  // ------------------------------------------------------------ _apply_notes_patch

  /** A list after an `if values: _extend_unique(target, values)` step. */
  function Extended(target: seq<string>, values: seq<string>): seq<string> {
    if |values| > 0 then ExtendUniqueSpec(target, values) else target
  }

  /** `[loop for loop in loops if loop not in closed]` */
  function CloseLoops(loops: seq<string>, closed: seq<string>): seq<string> {
    Capabilities.NotIn(loops, closed)
  }

  /** The open loops after the patch: additions first, then every closed loop removed. */
  function OpenLoopsAfter(loops: seq<string>, p: NotesPatch): seq<string> {
    var added := Extended(loops, p.addOpenLoops);
    if |p.closeOpenLoops| > 0 then CloseLoops(added, p.closeOpenLoops) else added
  }

  /** The state after `_apply_notes_patch`. */
  function ApplyPatchValue(s: StateValue, p: NotesPatch): StateValue {
    s.(goals := if |p.setGoals| > 0 then p.setGoals else s.goals,
       openLoops := OpenLoopsAfter(s.openLoops, p),
       decisions := Extended(s.decisions, p.addDecisions),
       constraints := Extended(s.constraints, p.addConstraints),
       episodeSummary := if p.setEpisodeSummary.Some? then p.setEpisodeSummary.value else s.episodeSummary,
       memoryTags := Extended(s.memoryTags, p.addMemoryTags))
  }

  /** Memory references and both capability lists are never touched; the summary only by a given one. */
  lemma PatchKeepsUntouched(s: StateValue, p: NotesPatch)
    ensures var r := ApplyPatchValue(s, p);
      && r.memoryRefs == s.memoryRefs
      && r.capabilitiesGranted == s.capabilitiesGranted
      && r.capabilitiesPending == s.capabilitiesPending
      && (p.setEpisodeSummary.None? ==> r.episodeSummary == s.episodeSummary)
      && (p.setEpisodeSummary.Some? ==> r.episodeSummary == p.setEpisodeSummary.value)
  {
  }

  /** An empty `set_goals` keeps the goals; a non-empty one replaces them. */
  lemma PatchGoals(s: StateValue, p: NotesPatch)
    ensures |p.setGoals| == 0 ==> ApplyPatchValue(s, p).goals == s.goals
    ensures |p.setGoals| > 0 ==> ApplyPatchValue(s, p).goals == p.setGoals
  {
  }

  /**
   * Loops are added before closures apply: a loop closed by the patch is
   * absent afterwards even when the same patch adds it, and an added loop
   * that is not closed is present.
   */
  lemma PatchOpenLoops(s: StateValue, p: NotesPatch, loop: string)
    ensures loop in p.closeOpenLoops ==> loop !in ApplyPatchValue(s, p).openLoops
    ensures loop in p.addOpenLoops && loop !in p.closeOpenLoops ==> loop in ApplyPatchValue(s, p).openLoops
    ensures loop !in p.addOpenLoops && loop !in s.openLoops ==> loop !in ApplyPatchValue(s, p).openLoops
  {
    if |p.addOpenLoops| > 0 {
      ExtendUniqueMembersAny(s.openLoops, p.addOpenLoops);
    }
  }

  /** Membership after extending, without the duplicate-free assumption. */
  lemma {:induction false} ExtendUniqueMembersAny(target: seq<string>, values: seq<string>)
    ensures forall x :: x in ExtendUniqueSpec(target, values) <==> x in target || x in values
    decreases |values|
  {
    if |values| > 0 {
      var init := values[..|values| - 1];
      ExtendUniqueMembersAny(target, init);
      assert values == init + [values[|values| - 1]];
    }
  }

  /** One `if values: _extend_unique(target, values)` step of the patch. */
  method ExtendIfAny(target: seq<string>, values: seq<string>) returns (r: seq<string>)
    ensures r == Extended(target, values)
  {
    r := target;
    if |values| > 0 {
      r := ExtendUnique(target, values);
    }
  }

  /** `_apply_notes_patch(state, patch)` */
  method ApplyNotesPatch(state: State, p: NotesPatch)
    modifies state
    ensures state.Value() == ApplyPatchValue(old(state.Value()), p)
  {
    var goals := state.goals;
    if |p.setGoals| > 0 {
      goals := p.setGoals;
    }
    var openLoops := ExtendIfAny(state.openLoops, p.addOpenLoops);
    if |p.closeOpenLoops| > 0 {
      openLoops := CloseLoops(openLoops, p.closeOpenLoops);
    }
    var decisions := ExtendIfAny(state.decisions, p.addDecisions);
    var constraints := ExtendIfAny(state.constraints, p.addConstraints);
    var summary := state.episodeSummary;
    if p.setEpisodeSummary.Some? {
      summary := p.setEpisodeSummary.value;
    }
    var memoryTags := ExtendIfAny(state.memoryTags, p.addMemoryTags);
    assert openLoops == OpenLoopsAfter(state.openLoops, p);
    state.goals, state.openLoops, state.decisions, state.constraints, state.episodeSummary, state.memoryTags
      := goals, openLoops, decisions, constraints, summary, memoryTags;
  }

  // ------------------------------------------------------------ _compose_prompt

  /** `RoleSpec`: `telemetry` and `memory_feedback` are "none" unless set to "basic". */
  datatype RoleSpec = RoleSpec(
    name: string,
    systemPrompt: string,
    params: map<string, Json>,
    wantsRetrieval: bool,
    telemetry: string,
    memoryFeedback: string)

  /** The parts that are not empty, in order (`part for part in parts if part`). */
  function NonEmpty(parts: seq<string>): (r: seq<string>)
    ensures forall k :: 0 <= k < |r| ==> |r[k]| > 0
    decreases |parts|
  {
    if |parts| == 0 then []
    else NonEmpty(parts[..|parts| - 1]) + (if |parts[|parts| - 1]| > 0 then [parts[|parts| - 1]] else [])
  }

  lemma {:induction false} NonEmptyAppend(a: seq<string>, b: seq<string>)
    ensures NonEmpty(a + b) == NonEmpty(a) + NonEmpty(b)
    decreases |b|
  {
    if |b| == 0 {
      assert a + b == a;
    } else {
      var b' := b[..|b| - 1];
      assert (a + b)[..|a + b| - 1] == a + b';
      assert (a + b)[|a + b| - 1] == b[|b| - 1];
      NonEmptyAppend(a, b');
    }
  }

  /** The lines of the UPSTREAM section, one "role: text" per earlier result. */
  function UpstreamLines(upstream: seq<RoleResult>): (r: seq<string>)
    ensures |r| == |upstream|
    ensures forall k :: 0 <= k < |r| ==> r[k] == upstream[k].role + ": " + upstream[k].text
  {
    seq(|upstream|, k requires 0 <= k < |upstream| => upstream[k].role + ": " + upstream[k].text)
  }

  function UpstreamSection(upstream: seq<RoleResult>): string {
    "UPSTREAM:\n" + Join(UpstreamLines(upstream), "\n")
  }

  function UserSection(userText: string): string {
    "USER:\n" + userText
  }

  /**
   * The parts up to the history: the system prompt, the state, the
   * telemetry block for a "basic" telemetry role, a non-empty memory
   * feedback, a non-empty retrieval block for a role that wants it, and
   * the history (`[]` when empty).
   */
  function HeadParts(role: RoleSpec, compactState: string, history: string, telemetry: Option<string>,
                     feedback: Option<string>, retrieval: Option<string>): seq<string>
  {
    [role.systemPrompt, "STATE:\n" + compactState]
    + (if telemetry.Some? && role.telemetry == "basic" then [telemetry.value] else [])
    + (if feedback.Some? && |feedback.value| > 0 then [feedback.value] else [])
    + (if retrieval.Some? && |retrieval.value| > 0 && role.wantsRetrieval then [retrieval.value] else [])
    + ["HISTORY_JSON:\n" + (if |history| > 0 then history else "[]")]
  }

  /** `_compose_prompt`: the non-empty parts joined by blank lines. */
  function ComposePrompt(role: RoleSpec, compactState: string, upstream: seq<RoleResult>, history: string,
                         userText: string, telemetry: Option<string>, feedback: Option<string>,
                         retrieval: Option<string>): string
  {
    var parts := HeadParts(role, compactState, history, telemetry, feedback, retrieval)
      + (if |upstream| > 0 then [UpstreamSection(upstream)] else [])
      + [UserSection(userText)];
    Join(NonEmpty(parts), "\n\n")
  }

  /**
   * Every prompt is the head parts, then the UPSTREAM section exactly when
   * there are earlier results, then "USER:\n" and the user's text, last.
   */
  lemma ComposeShape(role: RoleSpec, compactState: string, upstream: seq<RoleResult>, history: string,
                     userText: string, telemetry: Option<string>, feedback: Option<string>,
                     retrieval: Option<string>)
    ensures var head := Join(NonEmpty(HeadParts(role, compactState, history, telemetry, feedback, retrieval)), "\n\n");
      ComposePrompt(role, compactState, upstream, history, userText, telemetry, feedback, retrieval)
      == head + (if |upstream| > 0 then "\n\n" + UpstreamSection(upstream) else "") + "\n\n" + UserSection(userText)
  {
    var head := HeadParts(role, compactState, history, telemetry, feedback, retrieval);
    var up := if |upstream| > 0 then [UpstreamSection(upstream)] else [];
    NonEmptyShape(head, up, UserSection(userText));
    JoinTail(NonEmpty(head), up, UserSection(userText));
  }

  /** Filtering keeps the non-empty tail parts whole, after the filtered head. */
  lemma NonEmptyShape(head: seq<string>, up: seq<string>, user: string)
    requires |head| > 0 && |head[|head| - 1]| > 0 && |user| > 0
    requires forall k :: 0 <= k < |up| ==> |up[k]| > 0
    requires |up| <= 1
    ensures NonEmpty(head + up + [user]) == NonEmpty(head) + up + [user]
    ensures |NonEmpty(head)| > 0
  {
    var hp := head[..|head| - 1];
    assert head == hp + [head[|head| - 1]];
    NonEmptyAppend(hp, [head[|head| - 1]]);
    assert NonEmpty([head[|head| - 1]]) == NonEmpty([]) + [head[|head| - 1]];
    NonEmptyAppend(head, up);
    NonEmptyAppend(head + up, [user]);
    assert NonEmpty([user]) == NonEmpty([]) + [user];
    if |up| == 1 {
      assert NonEmpty(up) == NonEmpty([]) + [up[0]];
    }
  }

  /** Joining with at most one middle part and a last part. */
  lemma JoinTail(nh: seq<string>, up: seq<string>, user: string)
    requires |nh| > 0 && |up| <= 1
    ensures Join(nh + up + [user], "\n\n")
            == Join(nh, "\n\n") + (if |up| == 1 then "\n\n" + up[0] else "") + "\n\n" + user
  {
    if |up| == 1 {
      JoinAppend(nh, up[0], "\n\n");
      assert nh + up == nh + [up[0]];
      JoinAppend(nh + up, user, "\n\n");
    } else {
      assert nh + up == nh;
      JoinAppend(nh, user, "\n\n");
    }
  }

  // ------------------------------------------------------------ _format_tool_results

  /** `json.dumps(asdict(result))`, a text this model does not compute. */
  type ResultDumps = ToolResult -> string

  /** `_format_tool_results`: a header line, then one encoded result per line. */
  function FormatToolResults(results: seq<ToolResult>, dumps: ResultDumps): string {
    "TOOL_RESULTS:\n" + Join(seq(|results|, k requires 0 <= k < |results| => dumps(results[k])), "\n")
  }

  // ------------------------------------------------------------ _format_history

  /** `json.dumps` of a list of {"role", "content"} messages, a text this model does not compute. */
  type HistoryDumps = seq<ChatMessage> -> string

  /** The user and assistant messages, in order. */
  function ChatOnly(messages: seq<ChatMessage>): (r: seq<ChatMessage>)
    ensures forall m :: m in r <==> m in messages && (m.role == "user" || m.role == "assistant")
    ensures |r| <= |messages|
    decreases |messages|
  {
    if |messages| == 0 then []
    else
      var init := ChatOnly(messages[..|messages| - 1]);
      var m := messages[|messages| - 1];
      assert messages == messages[..|messages| - 1] + [m];
      if m.role == "user" || m.role == "assistant" then init + [m] else init
  }

  /** `filtered[-max_messages:]` when `max_messages > 0`. */
  function HistoryWindow(messages: seq<ChatMessage>, maxMessages: int): (r: seq<ChatMessage>)
    ensures var f := ChatOnly(messages);
      |r| <= |f| && r == f[|f| - |r|..]
      && (maxMessages > 0 ==> |r| == if maxMessages < |f| then maxMessages else |f|)
      && (maxMessages <= 0 ==> r == f)
  {
    var f := ChatOnly(messages);
    if 0 < maxMessages < |f| then f[|f| - maxMessages..] else f
  }

  /** The last `n` characters of `s` (`s[-n:]` for `n > 0`). */
  function LastChars(s: string, n: nat): (r: string)
    ensures |r| == if n < |s| then n else |s|
    ensures r == s[|s| - |r|..]
  {
    if n < |s| then s[|s| - n..] else s
  }

  /** The list `_format_history` finally encodes, after dropping the oldest messages to fit. */
  function FitHistory(history: seq<ChatMessage>, maxChars: int, dumps: HistoryDumps): seq<ChatMessage>
    decreases |history|
  {
    if maxChars <= 0 || |history| == 0 || |dumps(history)| <= maxChars then history
    else if |history| > 1 then FitHistory(history[1..], maxChars, dumps)
    else
      var allowed := maxChars - |dumps([ChatMessage(history[0].role, "")])|;
      if allowed <= 0 then [] else [ChatMessage(history[0].role, LastChars(history[0].content, allowed))]
  }

  /**
   * Fitting keeps the newest messages: a result of two or more messages is
   * a suffix of the window whose encoding fits; a single message keeps the
   * newest one's role and the end of its content.
   */
  lemma {:induction false} FitHistoryKeepsNewest(history: seq<ChatMessage>, maxChars: int, dumps: HistoryDumps)
    ensures var r := FitHistory(history, maxChars, dumps);
      && |r| <= |history|
      && (maxChars > 0 && |r| > 1 ==> r == history[|history| - |r|..] && |dumps(r)| <= maxChars)
      && (|r| > 0 ==> r[|r| - 1].role == history[|history| - 1].role
                      && IsSuffix(r[|r| - 1].content, history[|history| - 1].content))
    decreases |history|
  {
    if maxChars <= 0 || |history| == 0 || |dumps(history)| <= maxChars {
    } else if |history| > 1 {
      FitHistoryKeepsNewest(history[1..], maxChars, dumps);
      var r := FitHistory(history[1..], maxChars, dumps);
      assert history[1..][|history[1..]| - |r|..] == history[|history| - |r|..];
    } else {
      var c := history[0].content;
      var allowed := maxChars - |dumps([ChatMessage(history[0].role, "")])|;
      if allowed > 0 {
        var t := LastChars(c, allowed);
        assert c == c[..|c| - |t|] + t;
      }
    }
  }

  /** `_format_history(messages, max_messages, max_chars)` with its trimming loop. */
  method FormatHistory(messages: seq<ChatMessage>, maxMessages: int, maxChars: int, dumps: HistoryDumps)
    returns (text: string)
    ensures text == dumps(FitHistory(HistoryWindow(messages, maxMessages), maxChars, dumps))
  {
    ghost var goal := FitHistory(HistoryWindow(messages, maxMessages), maxChars, dumps);
    var history := HistoryWindow(messages, maxMessages);
    if maxChars > 0 {
      while |history| > 0
        invariant FitHistory(history, maxChars, dumps) == goal
        decreases |history|
      {
        var serialized := dumps(history);
        if |serialized| <= maxChars {
          return serialized;
        }
        if |history| > 1 {
          history := history[1..];
          continue;
        }
        var baseLen := |dumps([ChatMessage(history[0].role, "")])|;
        var allowed := maxChars - baseLen;
        if allowed <= 0 {
          history := [];
          break;
        }
        history := [ChatMessage(history[0].role, LastChars(history[0].content, allowed))];
        break;
      }
    }
    return dumps(history);
  }

  // ------------------------------------------------------------ run_pipeline

  /**
   * What `run_pipeline` takes from code outside this model: the `repr`
   * text of a state (`_compact_state`), the encoding of a tool result, the
   * JSON decoder, the telemetry block, the memory-feedback text for a
   * state, the upstream results and the last trimming report, the
   * retrieval block, and the tool handlers.
   */
  datatype Env = Env(
    compact: StateValue -> string,
    dumpResult: ResultDumps,
    decode: Decoder,
    telemetry: Option<string>,
    feedback: (StateValue, seq<RoleResult>, Option<CondenseReport>) -> string,
    retrieval: Option<string>,
    invoke: Invoke)

  /** The pipeline between roles: state, backend, results so far and the last report that trimmed. */
  datatype Run = Run(state: StateValue, backend: BackendValue, results: seq<RoleResult>,
                     lastReport: Option<CondenseReport>)

  /** What the governor's tool round leaves: the backend, the final response and the results it ran. */
  datatype Round = Round(backend: BackendValue, finalResponse: string, executed: seq<ToolResult>)

  /** `params = dict(role.params); params.setdefault("role", role.name)` */
  function RoleParams(role: RoleSpec): (r: map<string, Json>)
    ensures "role" in r && forall k :: k in role.params ==> k in r && r[k] == role.params[k]
    ensures "role" !in role.params ==> r["role"] == JStr(role.name)
  {
    if "role" in role.params then role.params else role.params["role" := JStr(role.name)]
  }

  /** The registry's tools when there is an executor. */
  function ToolsOf(executor: Option<ToolExecutor>): Option<map<string, ToolSpec>>
    reads if executor.Some? then {executor.value.registry} else {}
  {
    if executor.Some? then Some(executor.value.registry.tools) else None
  }

  /** The tool round runs for the governor, with rounds to spare, calls planned and an executor. */
  predicate ToolRoundRuns(roleName: string, maxToolRounds: int, planned: seq<ToolCall>,
                          tools: Option<map<string, ToolSpec>>)
  {
    roleName == "governor" && maxToolRounds > 1 && |planned| > 0 && tools.Some?
  }

  /**
   * The governor's tool round: the planned calls run in order, the
   * results go back to the backend under the original prompt, and the
   * calls of that second answer are stripped, never run.
   */
  function GovernorRound(b: BackendValue, prompt: string, response: string, params: map<string, Json>,
                         roleName: string, maxToolRounds: int, tools: Option<map<string, ToolSpec>>,
                         env: Env): Round
  {
    if roleName == "governor" && maxToolRounds > 1 then
      var planned := ExtractToolCalls(response, env.decode);
      if |planned.calls| > 0 && tools.Some? then
        var executed := ExecuteAll(tools.value, planned.calls, env.invoke);
        var second := CompleteSpec(b, prompt + "\n\n" + FormatToolResults(executed, env.dumpResult), Some(params));
        Round(second.backend, ExtractToolCalls(second.response, env.decode).visible, executed)
      else Round(b, planned.visible, [])
    else Round(b, response, [])
  }

  /** The earlier results as the next role sees them: condensed once there are any. */
  function Upstream(results: seq<RoleResult>): seq<RoleResult> {
    if |results| > 0 then UpstreamSpec(results, DefaultPolicy) else results
  }

  /** The prompt of the next role. */
  function RolePrompt(s: StateValue, results: seq<RoleResult>, lastReport: Option<CondenseReport>, role: RoleSpec,
                      userText: string, history: string, env: Env): string {
    var upstream := Upstream(results);
    var feedback := if role.memoryFeedback == "basic" then Some(env.feedback(s, upstream, lastReport)) else None;
    ComposePrompt(role, env.compact(s), upstream, history, userText, env.telemetry, feedback, env.retrieval)
  }

  /** A role's answer: the first completion, then the governor's tool round over it. */
  function RoleAnswer(b: BackendValue, prompt: string, params: map<string, Json>, roleName: string,
                      maxToolRounds: int, tools: Option<map<string, ToolSpec>>, env: Env): Round
  {
    var first := CompleteSpec(b, prompt, Some(params));
    GovernorRound(first.backend, prompt, first.response, params, roleName, maxToolRounds, tools, env)
  }

  /**
   * The state after a role's answer: with a patch, the patch, then its
   * permission actions when there are any, then condensing under the
   * default policy; the report is kept only when it trimmed something.
   */
  function StateAfterPatch(s: StateValue, patch: Option<NotesPatch>, lastReport: Option<CondenseReport>)
    : (StateValue, Option<CondenseReport>)
  {
    match patch
    case None => (s, lastReport)
    case Some(p) =>
      var s1 := ApplyPatchValue(s, p);
      var s2 := if |p.actions| > 0 then Capabilities.WithCaps(s1, Capabilities.ApplyActions(Capabilities.CapsOf(s1), p.actions).after) else s1;
      var s3 := CondenseValue(s2, DefaultPolicy);
      var report := ReportOf(s2, s3);
      (s3, if Trimmed(report) then Some(report) else None)
  }

  /** One pass of the role loop. */
  function RoleStep(run: Run, role: RoleSpec, userText: string, history: string, maxToolRounds: int,
                    tools: Option<map<string, ToolSpec>>, env: Env): Run
  {
    var prompt := RolePrompt(run.state, run.results, run.lastReport, role, userText, history, env);
    var params := RoleParams(role);
    var round := RoleAnswer(run.backend, prompt, params, role.name, maxToolRounds, tools, env);
    var notes := ExtractNotes(ExtractToolCalls(round.finalResponse, env.decode).visible, env.decode);
    var visible := SanitizeVisibleText(notes.visible);
    var after := StateAfterPatch(run.state, notes.patch, run.lastReport);
    Run(after.0, round.backend, Upstream(run.results) + [RoleResult(role.name, visible, notes.patch)], after.1)
  }

  /** The steps of a loop over roles, applied in order. */
  function FoldRoles(run: Run, roles: seq<RoleSpec>, step: (Run, RoleSpec) -> Run): Run
    decreases |roles|
  {
    if |roles| == 0 then run
    else step(FoldRoles(run, roles[..|roles| - 1], step), roles[|roles| - 1])
  }

  /** `RoleStep` with the turn's fixed inputs bound. */
  function RoleStepOf(userText: string, history: string, maxToolRounds: int,
                      tools: Option<map<string, ToolSpec>>, env: Env): (Run, RoleSpec) -> Run
  {
    (run: Run, role: RoleSpec) => RoleStep(run, role, userText, history, maxToolRounds, tools, env)
  }

  /** The role loop over `roles`, in order. */
  function RunAll(run: Run, roles: seq<RoleSpec>, userText: string, history: string, maxToolRounds: int,
                  tools: Option<map<string, ToolSpec>>, env: Env): Run
  {
    FoldRoles(run, roles, RoleStepOf(userText, history, maxToolRounds, tools, env))
  }

  /** The history text of the turn: `_format_history` with its defaults of 8 messages and 2000 characters. */
  function HistoryText(messages: seq<ChatMessage>, dumps: HistoryDumps): string {
    dumps(FitHistory(HistoryWindow(messages, 8), 2000, dumps))
  }

  /**
   * The backend is called once per role, and a second time exactly when
   * the tool round runs; the second prompt is the first, a blank line and
   * the TOOL_RESULTS block of the planned calls.
   */
  lemma RoleStepCalls(run: Run, role: RoleSpec, userText: string, history: string, maxToolRounds: int,
                      tools: Option<map<string, ToolSpec>>, env: Env)
    ensures var prompt := RolePrompt(run.state, run.results, run.lastReport, role, userText, history, env);
      var params := RoleParams(role);
      var planned := ExtractToolCalls(CompleteSpec(run.backend, prompt, Some(params)).response, env.decode).calls;
      var next := RoleStep(run, role, userText, history, maxToolRounds, tools, env);
      if ToolRoundRuns(role.name, maxToolRounds, planned, tools) then
        next.backend.calls == run.backend.calls + [BackendCall(prompt, params),
          BackendCall(prompt + "\n\n" + FormatToolResults(ExecuteAll(tools.value, planned, env.invoke), env.dumpResult), params)]
      else next.backend.calls == run.backend.calls + [BackendCall(prompt, params)]
  {
  }

  /** Tools run only in the governor's round, one result per planned call, in order. */
  lemma GovernorRoundExecutes(b: BackendValue, prompt: string, response: string, params: map<string, Json>,
                              roleName: string, maxToolRounds: int, tools: Option<map<string, ToolSpec>>, env: Env)
    ensures var planned := ExtractToolCalls(response, env.decode).calls;
      var r := GovernorRound(b, prompt, response, params, roleName, maxToolRounds, tools, env);
      if ToolRoundRuns(roleName, maxToolRounds, planned, tools) then
        |r.executed| == |planned|
        && forall k :: 0 <= k < |planned| ==> r.executed[k] == ExecuteOne(tools.value, planned[k], env.invoke)
      else r.executed == [] && r.backend == b
  {
  }

  /** Each role adds exactly one result under its own name; the earlier ones keep their roles. */
  lemma RoleStepResults(run: Run, role: RoleSpec, userText: string, history: string, maxToolRounds: int,
                        tools: Option<map<string, ToolSpec>>, env: Env)
    ensures var next := RoleStep(run, role, userText, history, maxToolRounds, tools, env);
      && |next.results| == |run.results| + 1
      && next.results[|run.results|].role == role.name
      && forall k :: 0 <= k < |run.results| ==> next.results[k].role == run.results[k].role
  {
    UpstreamSpecBounds(run.results, DefaultPolicy);
  }

  /** `after` holds the results of `before` and one more, under the role's name. */
  predicate AddsOneResult(before: Run, role: RoleSpec, after: Run) {
    && |after.results| == |before.results| + 1
    && after.results[|before.results|].role == role.name
    && forall k :: 0 <= k < |before.results| ==> after.results[k].role == before.results[k].role
  }

  /** A loop of steps that each add one result, from no results, gives one result per role, in role order. */
  lemma {:induction false} FoldRolesResults(run: Run, roles: seq<RoleSpec>, step: (Run, RoleSpec) -> Run)
    requires run.results == []
    requires forall r, role :: AddsOneResult(r, role, step(r, role))
    ensures var r := FoldRoles(run, roles, step);
      |r.results| == |roles| && forall k :: 0 <= k < |roles| ==> r.results[k].role == roles[k].name
    decreases |roles|
  {
    if |roles| > 0 {
      var init := roles[..|roles| - 1];
      FoldRolesResults(run, init, step);
      var prev := FoldRoles(run, init, step);
      var next := step(prev, roles[|roles| - 1]);
      assert AddsOneResult(prev, roles[|roles| - 1], next);
      RolesExtend(prev.results, next.results, roles);
    }
  }

  /** `run_pipeline` returns one result per role, in role order. */
  lemma RunAllResults(run: Run, roles: seq<RoleSpec>, userText: string, history: string,
                      maxToolRounds: int, tools: Option<map<string, ToolSpec>>, env: Env)
    requires run.results == []
    ensures var r := RunAll(run, roles, userText, history, maxToolRounds, tools, env);
      |r.results| == |roles| && forall k :: 0 <= k < |roles| ==> r.results[k].role == roles[k].name
  {
    var step := RoleStepOf(userText, history, maxToolRounds, tools, env);
    forall r, role ensures AddsOneResult(r, role, step(r, role)) {
      RoleStepResults(r, role, userText, history, maxToolRounds, tools, env);
    }
    FoldRolesResults(run, roles, step);
  }

  /** One result more, under the next role's name, keeps the results in step with the roles. */
  lemma RolesExtend(prev: seq<RoleResult>, next: seq<RoleResult>, roles: seq<RoleSpec>)
    requires |roles| > 0 && |prev| == |roles| - 1 && |next| == |prev| + 1
    requires forall k :: 0 <= k < |prev| ==> prev[k].role == roles[k].name
    requires forall k :: 0 <= k < |prev| ==> next[k].role == prev[k].role
    requires next[|prev|].role == roles[|roles| - 1].name
    ensures forall k :: 0 <= k < |roles| ==> next[k].role == roles[k].name
  {
  }

  /** A role whose answer carries no notes patch leaves the state and the last report as they were. */
  lemma NoPatchKeepsState(s: StateValue, lastReport: Option<CondenseReport>)
    ensures StateAfterPatch(s, None, lastReport) == (s, lastReport)
  {
  }

  /**
   * After a patch the state is condensed: its capability lists are
   * disjoint when the patch carried actions, every list is within the
   * default policy, and summary, memory references and the capabilities
   * are as the patch and the actions left them.
   */
  lemma PatchedStateCondensed(s: StateValue, p: NotesPatch, lastReport: Option<CondenseReport>)
    ensures var t := StateAfterPatch(s, Some(p), lastReport).0;
      && |t.goals| <= DefaultPolicy.maxGoals && |t.openLoops| <= DefaultPolicy.maxOpenLoops
      && |t.decisions| <= DefaultPolicy.maxDecisions && |t.constraints| <= DefaultPolicy.maxConstraints
      && |t.memoryTags| <= DefaultPolicy.maxMemoryTags
      && NoDup(t.goals) && NoDup(t.openLoops) && NoDup(t.decisions) && NoDup(t.constraints) && NoDup(t.memoryTags)
      && t.memoryRefs == s.memoryRefs
      && (|p.actions| > 0 ==> Capabilities.Disjoint(Capabilities.CapsOf(t)))
      && (|p.actions| == 0 ==> t.capabilitiesGranted == s.capabilitiesGranted && t.capabilitiesPending == s.capabilitiesPending)
  {
    var s1 := ApplyPatchValue(s, p);
    var s2 := if |p.actions| > 0 then Capabilities.WithCaps(s1, Capabilities.ApplyActions(Capabilities.CapsOf(s1), p.actions).after) else s1;
    CondenseValueKeeps(s2, DefaultPolicy);
    CondenseListBounds(s2.goals, DefaultPolicy.maxGoals);
    CondenseListBounds(s2.openLoops, DefaultPolicy.maxOpenLoops);
    CondenseListBounds(s2.decisions, DefaultPolicy.maxDecisions);
    CondenseListBounds(s2.constraints, DefaultPolicy.maxConstraints);
    CondenseListBounds(s2.memoryTags, DefaultPolicy.maxMemoryTags);
  }

  /** The planned calls, handed to the executor one at a time, in order. */
  method RunPlannedCalls(ex: ToolExecutor, calls: seq<ToolCall>, invoke: Invoke) returns (executed: seq<ToolResult>)
    requires ex.registry.Valid()
    ensures executed == ExecuteAll(ex.registry.tools, calls, invoke)
  {
    executed := [];
    for i := 0 to |calls|
      invariant executed == ExecuteAll(ex.registry.tools, calls[..i], invoke)
    {
      var one := ex.ExecuteCalls([calls[i]], invoke);
      executed := executed + [one[0]];
      assert calls[..i + 1] == calls[..i] + [calls[i]];
    }
    assert calls[..|calls|] == calls;
  }

  /** The governor's tool round, running the planned calls one at a time. */
  method ToolRound(backend: FakeBackend, prompt: string, response: string, params: map<string, Json>,
                   roleName: string, maxToolRounds: int, executor: Option<ToolExecutor>, env: Env)
    returns (finalResponse: string, executed: seq<ToolResult>)
    requires executor.Some? ==> executor.value.registry.Valid()
    modifies backend
    ensures var r := GovernorRound(old(backend.Value()), prompt, response, params, roleName, maxToolRounds,
                                   ToolsOf(executor), env);
      backend.Value() == r.backend && finalResponse == r.finalResponse && executed == r.executed
  {
    finalResponse := response;
    executed := [];
    if roleName == "governor" && maxToolRounds > 1 {
      var planned := ExtractToolCalls(response, env.decode);
      if |planned.calls| > 0 && executor.Some? {
        executed := RunPlannedCalls(executor.value, planned.calls, env.invoke);
        var request := prompt + "\n\n" + FormatToolResults(executed, env.dumpResult);
        var second := backend.Complete(request, Some(params));
        finalResponse := ExtractToolCalls(second, env.decode).visible;
      } else {
        finalResponse := planned.visible;
      }
    }
  }

  /** The state update after a role's answer, as `StateAfterPatch` describes it. */
  method ApplyAnswerPatch(state: State, patch: Option<NotesPatch>, lastReport: Option<CondenseReport>)
    returns (lastReport': Option<CondenseReport>)
    modifies state
    ensures (state.Value(), lastReport') == StateAfterPatch(old(state.Value()), patch, lastReport)
  {
    lastReport' := lastReport;
    if patch.Some? {
      var p := patch.value;
      ApplyNotesPatch(state, p);
      if |p.actions| > 0 {
        var _ := Capabilities.ApplyPermissionActions(state, p.actions);
      }
      var report := CondenseState(state, DefaultPolicy);
      lastReport' := if Trimmed(report) then Some(report) else None;
    }
  }

  /** The prompt of a role over the current state, with the condensed upstream results it shows. */
  method PromptFor(state: State, results: seq<RoleResult>, lastReport: Option<CondenseReport>, role: RoleSpec,
                   userText: string, history: string, env: Env)
    returns (prompt: string, upstream: seq<RoleResult>)
    ensures prompt == RolePrompt(state.Value(), results, lastReport, role, userText, history, env)
    ensures upstream == Upstream(results)
  {
    upstream := results;
    if |results| > 0 {
      upstream := CondenseUpstream(results, DefaultPolicy);
    }
    var feedback := None;
    if role.memoryFeedback == "basic" {
      feedback := Some(env.feedback(state.Value(), upstream, lastReport));
    }
    prompt := ComposePrompt(role, env.compact(state.Value()), upstream, history, userText, env.telemetry,
                            feedback, env.retrieval);
  }

  /** A role's completion followed by the governor's tool round. */
  method AnswerRole(backend: FakeBackend, prompt: string, params: map<string, Json>, roleName: string,
                    maxToolRounds: int, executor: Option<ToolExecutor>, env: Env)
    returns (finalResponse: string)
    requires executor.Some? ==> executor.value.registry.Valid()
    modifies backend
    ensures var r := RoleAnswer(old(backend.Value()), prompt, params, roleName, maxToolRounds, ToolsOf(executor), env);
      backend.Value() == r.backend && finalResponse == r.finalResponse
  {
    var response := backend.Complete(prompt, Some(params));
    var executed;
    finalResponse, executed := ToolRound(backend, prompt, response, params, roleName, maxToolRounds, executor, env);
  }

  /** One pass of the role loop of `run_pipeline`. */
  method RunRole(state: State, backend: FakeBackend, results: seq<RoleResult>, lastReport: Option<CondenseReport>,
                 role: RoleSpec, userText: string, history: string, maxToolRounds: int,
                 executor: Option<ToolExecutor>, env: Env)
    returns (results': seq<RoleResult>, lastReport': Option<CondenseReport>)
    requires executor.Some? ==> executor.value.registry.Valid()
    modifies state, backend
    ensures Run(state.Value(), backend.Value(), results', lastReport')
            == RoleStep(Run(old(state.Value()), old(backend.Value()), results, lastReport), role, userText,
                        history, maxToolRounds, ToolsOf(executor), env)
  {
    var prompt, upstream := PromptFor(state, results, lastReport, role, userText, history, env);
    var finalResponse := AnswerRole(backend, prompt, RoleParams(role), role.name, maxToolRounds, executor, env);
    var notes := ExtractNotes(ExtractToolCalls(finalResponse, env.decode).visible, env.decode);
    var visible := SanitizeVisibleText(notes.visible);
    lastReport' := ApplyAnswerPatch(state, notes.patch, lastReport);
    results' := upstream + [RoleResult(role.name, visible, notes.patch)];
  }

  /** `RunAll` over one role more is one more `RoleStep`. */
  lemma RunAllStep(run: Run, roles: seq<RoleSpec>, i: nat, userText: string, history: string, maxToolRounds: int,
                   tools: Option<map<string, ToolSpec>>, env: Env)
    requires i < |roles|
    ensures RunAll(run, roles[..i + 1], userText, history, maxToolRounds, tools, env)
            == RoleStep(RunAll(run, roles[..i], userText, history, maxToolRounds, tools, env), roles[i], userText,
                        history, maxToolRounds, tools, env)
  {
    assert roles[..i + 1][..i] == roles[..i];
    assert RoleStepOf(userText, history, maxToolRounds, tools, env)(
             RunAll(run, roles[..i], userText, history, maxToolRounds, tools, env), roles[i])
           == RoleStep(RunAll(run, roles[..i], userText, history, maxToolRounds, tools, env), roles[i], userText,
                       history, maxToolRounds, tools, env);
  }

  /** The role loop of `run_pipeline`, one `RunRole` per role, in order. */
  method RunRoles(state: State, backend: FakeBackend, roles: seq<RoleSpec>, userText: string, history: string,
                  maxToolRounds: int, executor: Option<ToolExecutor>, env: Env)
    returns (results: seq<RoleResult>)
    requires executor.Some? ==> executor.value.registry.Valid()
    modifies state, backend
    ensures var r := RunAll(Run(old(state.Value()), old(backend.Value()), [], None), roles, userText, history,
                            maxToolRounds, ToolsOf(executor), env);
      state.Value() == r.state && backend.Value() == r.backend && results == r.results
  {
    ghost var run0 := Run(state.Value(), backend.Value(), [], None);
    ghost var tools := ToolsOf(executor);
    results := [];
    var lastReport: Option<CondenseReport> := None;
    for i := 0 to |roles|
      invariant Run(state.Value(), backend.Value(), results, lastReport)
                == RunAll(run0, roles[..i], userText, history, maxToolRounds, tools, env)
    {
      RunAllStep(run0, roles, i, userText, history, maxToolRounds, tools, env);
      results, lastReport := RunRole(state, backend, results, lastReport, roles[i], userText, history,
                                     maxToolRounds, executor, env);
    }
    assert roles[..|roles|] == roles;
  }

  /**
   * `run_pipeline`: the roles in order over the checkpoint's state and the
   * backend; the final text is the last role's visible text, or "" with
   * no roles.
   */
  method RunPipeline(checkpoint: Checkpoint, userText: string, roles: seq<RoleSpec>, backend: FakeBackend,
                     executor: Option<ToolExecutor>, maxToolRounds: int, env: Env, historyDumps: HistoryDumps)
    returns (finalText: string, results: seq<RoleResult>)
    requires executor.Some? ==> executor.value.registry.Valid()
    modifies checkpoint.state, backend
    ensures var r := RunAll(Run(old(checkpoint.state.Value()), old(backend.Value()), [], None), roles, userText,
                            HistoryText(checkpoint.recentMessages, historyDumps), maxToolRounds, ToolsOf(executor), env);
      checkpoint.state.Value() == r.state && backend.Value() == r.backend && results == r.results
    ensures |results| == |roles| && forall k :: 0 <= k < |roles| ==> results[k].role == roles[k].name
    ensures finalText == if |results| > 0 then results[|results| - 1].text else ""
  {
    var history := FormatHistory(checkpoint.recentMessages, 8, 2000, historyDumps);
    assert history == HistoryText(checkpoint.recentMessages, historyDumps);
    ghost var run0 := Run(checkpoint.state.Value(), backend.Value(), [], None);
    results := RunRoles(checkpoint.state, backend, roles, userText, history, maxToolRounds, executor, env);
    RunAllResults(run0, roles, userText, history, maxToolRounds, ToolsOf(executor), env);
    finalText := if |results| > 0 then results[|results| - 1].text else "";
  }
}
