/**
 * `run_turn`: one user turn. The session's checkpoint is loaded (or
 * created), the user message is appended, the four fixed roles run
 * through the pipeline with the default tools, the assistant's reply is
 * appended, the trace file is remembered in the trace tail, and the
 * checkpoint is saved once.
 *
 * Whether the tracer wrote its file during the run is the parameter
 * `traceWritten`; the tracer itself is not part of this model.
 */
module Controller {
  import opened Wrappers
  import opened JsonValue
  import opened Types
  import opened FakeBackends
  import opened Executor
  import opened DefaultRegistry
  import opened ToolRegistry
  import opened Checkpoints
  import opened Pipeline
  import opened Strings

  /** At most this many trace file names are kept. */
  const TraceTailLimit: nat := 20

  /** `base_dir or checkpoints.DEFAULT_DIR.parent` */
  function DataRoot(baseDir: Option<string>): string {
    if baseDir.Some? then baseDir.value else "data"
  }

  function CheckpointDir(baseDir: Option<string>): string {
    DataRoot(baseDir) + "/checkpoints"
  }

  function SandboxRoot(baseDir: Option<string>): string {
    DataRoot(baseDir) + "/sandbox"
  }

  /** The tracer's file name: `<session_id>.jsonl`. */
  function TraceName(sessionId: string): string {
    sessionId + ".jsonl"
  }

  function Role(name: string, systemPrompt: string): RoleSpec {
    RoleSpec(name, systemPrompt, map[], false, "none", "none")
  }

  /** The fixed role sequence of every turn. */
  function TurnRoles(): (roles: seq<RoleSpec>)
    ensures |roles| == 4
    ensures roles[0].name == "reflection" && roles[1].name == "planner"
    ensures roles[2].name == "critic" && roles[3].name == "governor"
  {
    [Role("reflection", "Reflect on the request."),
     Role("planner", "Plan a response."),
     Role("critic", "Critique the plan."),
     Role("governor", "Decide on the final response.")]
  }

  /** The run id: `"rev-"` followed by the revision the save will produce. */
  function RunId(revision: int): (id: string)
    ensures IsPrefix("rev-", id)
    ensures revision + 1 >= 0 ==> id == "rev-" + NatToString(revision + 1)
  {
    "rev-" + IntToString(revision + 1)
  }

  /** The run id names the revision the turn's save produces, so different revisions give different ids. */
  lemma RunIdsDiffer(a: nat, b: nat)
    requires a != b
    ensures RunId(a) != RunId(b)
  {
    DigitsValueOfNatToString(a + 1);
    DigitsValueOfNatToString(b + 1);
    assert RunId(a)[4..] == NatToString(a + 1);
    assert RunId(b)[4..] == NatToString(b + 1);
  }

  /** `trace_name` is appended when absent; the tail is then cut to its newest 20 entries. */
  function RecordTrace(tail: seq<string>, name: string, written: bool): (r: seq<string>) {
    if !written then tail
    else
      var added := if name in tail then tail else tail + [name];
      if |added| > TraceTailLimit then added[|added| - TraceTailLimit..] else added
  }

  /**
   * Recording keeps the newest entries in order, never more than 20, and
   * the name survives whenever the tail was within its limit before.
   */
  lemma RecordTraceKeepsNewest(tail: seq<string>, name: string)
    ensures var r := RecordTrace(tail, name, true);
            var added := if name in tail then tail else tail + [name];
            && |r| <= TraceTailLimit
            && r == added[|added| - |r|..]
            && (|tail| <= TraceTailLimit ==> name in r)
            && (forall x :: x in r ==> x in tail || x == name)
  {
    var r := RecordTrace(tail, name, true);
    var added := if name in tail then tail else tail + [name];
    if name !in tail {
      assert added[|added| - 1] == name;
      assert r[|r| - 1] == added[|added| - 1];
    }
  }

  /** Without a trace file the tail is left alone. */
  lemma RecordTraceUnwritten(tail: seq<string>, name: string)
    ensures RecordTrace(tail, name, false) == tail
  {
  }

  /** Recording the same name twice changes nothing the second time. */
  lemma RecordTraceIdempotent(tail: seq<string>, name: string)
    ensures var once := RecordTrace(tail, name, true);
            |tail| <= TraceTailLimit ==> RecordTrace(once, name, true) == once
  {
    RecordTraceKeepsNewest(tail, name);
  }

  /** The user message goes in before the pipeline runs. */
  method StartTurn(checkpoint: Checkpoint, userText: string)
    modifies checkpoint
    ensures checkpoint.recentMessages == old(checkpoint.recentMessages) + [ChatMessage("user", userText)]
    ensures checkpoint.traceTail == old(checkpoint.traceTail)
    ensures checkpoint.sessionId == old(checkpoint.sessionId) && checkpoint.revision == old(checkpoint.revision)
    ensures checkpoint.updatedTs == old(checkpoint.updatedTs)
  {
    checkpoint.recentMessages := checkpoint.recentMessages + [ChatMessage("user", userText)];
  }

  /** The reply goes in after the pipeline, and the trace file is remembered. */
  method FinishTurn(checkpoint: Checkpoint, finalText: string, traceName: string, traceWritten: bool)
    modifies checkpoint
    ensures checkpoint.recentMessages == old(checkpoint.recentMessages) + [ChatMessage("assistant", finalText)]
    ensures checkpoint.traceTail == RecordTrace(old(checkpoint.traceTail), traceName, traceWritten)
    ensures checkpoint.sessionId == old(checkpoint.sessionId) && checkpoint.revision == old(checkpoint.revision)
    ensures checkpoint.updatedTs == old(checkpoint.updatedTs)
  {
    checkpoint.recentMessages := checkpoint.recentMessages + [ChatMessage("assistant", finalText)];
    if traceWritten {
      if traceName !in checkpoint.traceTail {
        checkpoint.traceTail := checkpoint.traceTail + [traceName];
      }
      if |checkpoint.traceTail| > TraceTailLimit {
        checkpoint.traceTail := checkpoint.traceTail[|checkpoint.traceTail| - TraceTailLimit..];
      }
    }
  }

  /** What the pipeline leaves of a loaded checkpoint's state, given the tools of the default registry. */
  function PipelineState(loaded: CheckpointValue, userText: string, backend: BackendValue,
                         tools: map<string, ToolSpec>, env: Env, historyDumps: HistoryDumps): Run
  {
    RunAll(Run(loaded.state, backend, [], None), TurnRoles(), userText,
           HistoryText(loaded.recentMessages + [ChatMessage("user", userText)], historyDumps),
           2, Some(tools), env)
  }

  lemma AppendTwo<T>(s: seq<T>, a: T, b: T)
    ensures s + [a] + [b] == s + [a, b]
  {
  }

  /**
   * The middle of the turn: the default registry under the sandbox root,
   * the run id, and the pipeline over the four roles with at most two
   * tool rounds, on the loaded checkpoint after the user message.
   */
  method TurnPipeline(checkpoint: Checkpoint, ghost loaded: CheckpointValue, userText: string, backend: FakeBackend,
                      sandboxRoot: string, httpAvailable: bool, env: Env, historyDumps: HistoryDumps)
    returns (finalText: string, ghost tools: map<string, ToolSpec>, ghost run: Run)
    requires checkpoint.state.Value() == loaded.state
    requires checkpoint.recentMessages == loaded.recentMessages + [ChatMessage("user", userText)]
    modifies checkpoint.state, backend
    ensures forall n :: n in tools <==> n in DefaultToolNames(httpAvailable)
    ensures run == PipelineState(loaded, userText, old(backend.Value()), tools, env, historyDumps)
    ensures |run.results| == 4 && finalText == run.results[3].text
    ensures backend.Value() == run.backend && checkpoint.state.Value() == run.state
  {
    var built := BuildDefaultRegistry(sandboxRoot, Omitted, httpAvailable);
    assert built.Ok?;
    var (registry, executor) := built.value;
    tools := registry.tools;
    var roles := TurnRoles();
    var runId := RunId(checkpoint.revision);
    var results;
    finalText, results := RunPipeline(checkpoint, userText, roles, backend, Some(executor), 2, env, historyDumps);
    run := PipelineState(loaded, userText, old(backend.Value()), tools, env, historyDumps);
  }

  /** The checkpoint a turn saves: two more messages, the new state and trace tail, the revision one higher. */
  function TurnSaved(loaded: CheckpointValue, userText: string, reply: string, state: StateValue,
                     traceName: string, traceWritten: bool, saveTime: real): CheckpointValue
  {
    CheckpointValue(loaded.sessionId, loaded.revision + 1, saveTime, state,
                    loaded.recentMessages + [ChatMessage("user", userText), ChatMessage("assistant", reply)],
                    RecordTrace(loaded.traceTail, traceName, traceWritten))
  }

  /** The reply, the trace tail and the one save, after the pipeline has run. */
  method FinishAndSave(checkpoint: Checkpoint, ghost loaded: CheckpointValue, disk: Disk, userText: string,
                       finalText: string, dir: string, traceName: string, traceWritten: bool, dumps: Dumps,
                       saveTime: real)
    requires checkpoint.sessionId == loaded.sessionId && checkpoint.revision == loaded.revision
    requires checkpoint.recentMessages == loaded.recentMessages + [ChatMessage("user", userText)]
    requires checkpoint.traceTail == loaded.traceTail
    modifies checkpoint, disk
    ensures checkpoint.Value() == TurnSaved(loaded, userText, finalText, checkpoint.state.Value(), traceName,
                                            traceWritten, saveTime)
    ensures disk.files == Stored(old(disk.files), CheckpointPath(checkpoint.sessionId, Some(dir)),
                                 dumps(EncodeCheckpoint(checkpoint.Value())))
  {
    FinishTurn(checkpoint, finalText, traceName, traceWritten);
    var path := SaveCheckpoint(checkpoint, Some(dir), disk, saveTime, dumps);
    AppendTwo(loaded.recentMessages, ChatMessage("user", userText), ChatMessage("assistant", finalText));
  }

  /** Everything after loading: the messages, the pipeline, the trace tail and the one save. */
  method ContinueTurn(checkpoint: Checkpoint, ghost loaded: CheckpointValue, disk: Disk, userText: string, backend: FakeBackend, dir: string,
                      sandboxRoot: string, traceName: string, httpAvailable: bool, traceWritten: bool, env: Env,
                      historyDumps: HistoryDumps, dumps: Dumps, saveTime: real)
    returns (finalText: string, ghost tools: map<string, ToolSpec>, ghost run: Run)
    requires checkpoint.Value() == loaded
    modifies checkpoint, checkpoint.state, disk, backend
    ensures forall n :: n in tools <==> n in DefaultToolNames(httpAvailable)
    ensures run == PipelineState(loaded, userText, old(backend.Value()), tools, env, historyDumps)
    ensures |run.results| == 4 && finalText == run.results[3].text && backend.Value() == run.backend
    ensures checkpoint.Value() == TurnSaved(loaded, userText, finalText, run.state, traceName,
                                            traceWritten, saveTime)
    ensures disk.files == Stored(old(disk.files), CheckpointPath(checkpoint.sessionId, Some(dir)),
                                 dumps(EncodeCheckpoint(checkpoint.Value())))
  {
    StartTurn(checkpoint, userText);
    ghost var asked := checkpoint.recentMessages;
    finalText, tools, run := TurnPipeline(checkpoint, loaded, userText, backend, sandboxRoot, httpAvailable,
                                          env, historyDumps);
    assert checkpoint.sessionId == loaded.sessionId && checkpoint.revision == loaded.revision;
    assert checkpoint.recentMessages == asked && checkpoint.traceTail == loaded.traceTail;
    ghost var state := checkpoint.state.Value();
    FinishAndSave(checkpoint, loaded, disk, userText, finalText, dir, traceName, traceWritten, dumps, saveTime);
    assert checkpoint.state.Value() == state;
  }

  /**
   * `run_turn`. When loading fails the error propagates and nothing is
   * written. Otherwise the saved checkpoint is the loaded one with two
   * more messages (the user's and the reply), the recorded trace tail,
   * the state the pipeline left, the revision one higher and the save
   * time; the reply is the governor's text. The tracer is taken to
   * accept the `run_id` it is given, and its file stays `<session_id>.jsonl`.
   */
  method RunTurn(disk: Disk, sessionId: string, userText: string, backend: FakeBackend, baseDir: Option<string>,
                 httpAvailable: bool, traceWritten: bool, env: Env, historyDumps: HistoryDumps,
                 decode: Decoder, dumps: Dumps, loadTime: real, saveTime: real)
    returns (r: Result<string>, ghost loaded: CheckpointValue, ghost saved: CheckpointValue,
             ghost tools: map<string, ToolSpec>, ghost run: Run)
    modifies disk, backend
    ensures var v := LoadOrCreateValue(old(disk.files), sessionId, Some(CheckpointDir(baseDir)), decode, loadTime);
            && (v.Err? ==> r == Err(v.msg) && disk.files == old(disk.files))
            && (v.Ok? ==> r.Ok? && loaded == v.value)
    ensures r.Ok? ==>
      && (forall n :: n in tools <==> n in DefaultToolNames(httpAvailable))
      && run == PipelineState(loaded, userText, old(backend.Value()), tools, env, historyDumps)
      && |run.results| == 4 && r.value == run.results[3].text && backend.Value() == run.backend
      && saved == TurnSaved(loaded, userText, r.value, run.state, TraceName(sessionId), traceWritten, saveTime)
      && disk.files == Stored(old(disk.files), CheckpointPath(saved.sessionId, Some(CheckpointDir(baseDir))),
                              dumps(EncodeCheckpoint(saved)))
  {
    var dir := CheckpointDir(baseDir);
    var load := LoadOrCreate(disk, sessionId, Some(dir), decode, loadTime);
    if load.Err? {
      r, loaded, saved, tools, run := Err(load.msg), CheckpointValue("", 0, 0.0, DefaultState, [], []),
                                      CheckpointValue("", 0, 0.0, DefaultState, [], []), map[],
                                      Run(DefaultState, backend.Value(), [], None);
      return;
    }
    var checkpoint := load.value;
    loaded := checkpoint.Value();
    var finalText;
    finalText, tools, run := ContinueTurn(checkpoint, loaded, disk, userText, backend, dir, SandboxRoot(baseDir),
                                          TraceName(sessionId), httpAvailable, traceWritten, env, historyDumps,
                                          dumps, saveTime);
    saved := checkpoint.Value();
    r := Ok(finalText);
  }
}
