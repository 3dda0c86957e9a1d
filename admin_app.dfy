/**
 * The admin API's run identifiers: a run of session `s` is stored as the
 * trace file `s__<run id>.jsonl`. Listing a session's runs and naming the
 * run that a turn just produced both go through `_extract_run_id`. The
 * routes' file and checkpoint reads become parameters: the `trace_tail`
 * value of the session's checkpoint summary and the names the trace
 * directory glob returned.
 */
module AdminApp {
  import opened Wrappers
  import opened JsonValue
  import opened Strings
  import opened Sorting
  import opened Types
  import Condense

  const TraceSuffix: string := ".jsonl"

  /** The file-name prefix of a session's traces. */
  function RunPrefix(sessionId: string): string {
    sessionId + "__"
  }

  /** The trace file name of run `runId` of `sessionId`. */
  function TraceFileName(sessionId: string, runId: string): string {
    RunPrefix(sessionId) + runId + TraceSuffix
  }

  /**
   * A name that starts with the prefix and ends with ".jsonl" is at least
   * as long as both together: the prefix ends in "_", which ".jsonl" does
   * not contain.
   */
  lemma AffixesDisjoint(sessionId: string, filename: string)
    requires IsPrefix(RunPrefix(sessionId), filename) && IsSuffix(TraceSuffix, filename)
    ensures |filename| >= |RunPrefix(sessionId)| + |TraceSuffix|
  {
    var p := |RunPrefix(sessionId)| - 1;
    assert filename[..|RunPrefix(sessionId)|][p] == '_';
    assert forall k :: |filename| - 6 <= k < |filename| ==> filename[k] == filename[|filename| - 6..][k - (|filename| - 6)];
  }

  /**
   * `_extract_run_id(session_id, filename)`: the text between the prefix
   * and the suffix, or `None` when either is missing.
   */
  function ExtractRunId(sessionId: string, filename: string): (r: Option<string>)
    ensures r.Some? <==> IsPrefix(RunPrefix(sessionId), filename) && IsSuffix(TraceSuffix, filename)
    ensures r.Some? ==> filename == TraceFileName(sessionId, r.value)
  {
    var prefix := RunPrefix(sessionId);
    if !IsPrefix(prefix, filename) || !IsSuffix(TraceSuffix, filename) then None
    else
      var n := |filename|;
      AffixesDisjoint(sessionId, filename);
      var r := PySlice(filename, SliceBound(|prefix|, n), SliceBound(-|TraceSuffix|, n));
      assert filename == filename[..|prefix|] + r + filename[n - |TraceSuffix|..];
      Some(r)
  }

  /** Naming a run and reading its id back gives the run id. */
  lemma ExtractRunIdRoundTrip(sessionId: string, runId: string)
    ensures ExtractRunId(sessionId, TraceFileName(sessionId, runId)) == Some(runId)
  {
    var f := TraceFileName(sessionId, runId);
    assert f[..|RunPrefix(sessionId)|] == RunPrefix(sessionId);
    assert f[|f| - |TraceSuffix|..] == TraceSuffix;
    var r := ExtractRunId(sessionId, f);
    assert TraceFileName(sessionId, r.value) == f;
    assert f[|RunPrefix(sessionId)|..|f| - |TraceSuffix|] == runId;
    assert f[|RunPrefix(sessionId)|..|f| - |TraceSuffix|] == r.value;
  }

  // ------------------------------------------------------------------ list_runs

  /** One listed run: its id and the trace file it came from. */
  datatype Run = Run(runId: string, fileName: string)

  /** The runs of the names that parse, in the names' order. */
  function Runs(sessionId: string, names: seq<string>): seq<Run>
  {
    if names == [] then []
    else
      var init, name := names[..|names| - 1], names[|names| - 1];
      match ExtractRunId(sessionId, name)
      case None => Runs(sessionId, init)
      case Some(runId) => Runs(sessionId, init) + [Run(runId, name)]
  }

  /** The string entries of the summary's `trace_tail` when it is a list. */
  function TailNames(traceTail: Option<Json>): (r: seq<string>)
    ensures forall n :: n in r <==> traceTail.Some? && traceTail.value.JArr? && JStr(n) in traceTail.value.items
  {
    match traceTail
    case Some(JArr(items)) => StringItems(items)
    case _ => []
  }

  function StringItems(items: seq<Json>): (r: seq<string>)
    ensures forall n :: n in r <==> JStr(n) in items
  {
    if items == [] then []
    else
      var rest := StringItems(items[1..]);
      assert forall v :: v in items <==> v == items[0] || v in items[1..];
      match items[0]
      case JStr(s) => [s] + rest
      case _ => rest
  }

  /**
   * `list_runs(session_id)`. `traceTail` is the checkpoint summary's
   * `trace_tail` (`None` without a checkpoint) and `globbed` the names of
   * the trace files matching `<session_id>__*.jsonl`. The names form a
   * set, listed in sorted order.
   */
  method ListRuns(sessionId: string, traceTail: Option<Json>, globbed: seq<string>) returns (runs: seq<Run>)
    ensures runs == Runs(sessionId, SortStrings(Condense.Dedupe(TailNames(traceTail) + globbed)))
  {
    var names := SortStrings(Condense.Dedupe(TailNames(traceTail) + globbed));
    runs := RunsOf(sessionId, names);
  }

  /** The loop of `list_runs` over the sorted names. */
  method RunsOf(sessionId: string, names: seq<string>) returns (runs: seq<Run>)
    ensures runs == Runs(sessionId, names)
  {
    runs := [];
    for i := 0 to |names|
      invariant runs == Runs(sessionId, names[..i])
    {
      assert names[..i + 1][..i] == names[..i];
      var runId := ExtractRunId(sessionId, names[i]);
      if runId.Some? {
        runs := runs + [Run(runId.value, names[i])];
      }
    }
    assert names[..|names|] == names;
  }

  /** Each listed run belongs to a name, and every name that parses is listed. */
  lemma {:induction false} RunsOfNames(sessionId: string, names: seq<string>)
    ensures forall run :: run in Runs(sessionId, names) <==>
              run.fileName in names && ExtractRunId(sessionId, run.fileName) == Some(run.runId)
  {
    if names != [] {
      var init, name := names[..|names| - 1], names[|names| - 1];
      assert names == init + [name];
      RunsOfNames(sessionId, init);
    }
  }

  /** Strictly increasing names. */
  predicate Increasing(names: seq<string>) {
    forall i, j :: 0 <= i < j < |names| ==> StrLe(names[i], names[j]) && names[i] != names[j]
  }

  /** Runs in strictly increasing file-name order. */
  predicate RunsIncreasing(runs: seq<Run>) {
    forall i, j :: 0 <= i < j < |runs| ==> StrLe(runs[i].fileName, runs[j].fileName) && runs[i].fileName != runs[j].fileName
  }

  lemma RunsIncreasingAppend(runs: seq<Run>, run: Run)
    requires RunsIncreasing(runs)
    requires forall i :: 0 <= i < |runs| ==> StrLe(runs[i].fileName, run.fileName) && runs[i].fileName != run.fileName
    ensures RunsIncreasing(runs + [run])
  {
    var all := runs + [run];
    forall i, j | 0 <= i < j < |all| ensures StrLe(all[i].fileName, all[j].fileName) && all[i].fileName != all[j].fileName {
      assert all[i] == runs[i];
      if j < |runs| {
        assert all[j] == runs[j];
      }
    }
  }

  /** Listed runs keep the names' order: strictly increasing names give strictly increasing file names. */
  lemma {:induction false} RunsKeepOrder(sessionId: string, names: seq<string>)
    requires Increasing(names)
    ensures RunsIncreasing(Runs(sessionId, names))
  {
    if names != [] {
      var init, name := names[..|names| - 1], names[|names| - 1];
      assert Increasing(init) by {
        forall i, j | 0 <= i < j < |init| ensures StrLe(init[i], init[j]) && init[i] != init[j] {
          assert init[i] == names[i] && init[j] == names[j];
        }
      }
      RunsKeepOrder(sessionId, init);
      RunsOfNames(sessionId, init);
      var before := Runs(sessionId, init);
      forall i | 0 <= i < |before| ensures StrLe(before[i].fileName, name) && before[i].fileName != name {
        assert before[i] in before;
        var k :| 0 <= k < |init| && init[k] == before[i].fileName;
        assert names[k] == init[k];
      }
      match ExtractRunId(sessionId, name)
      case None =>
      case Some(runId) => RunsIncreasingAppend(before, Run(runId, name));
    }
  }

  /** Two equal items at different places count twice. */
  lemma RepeatCounts(s: seq<string>, i: nat, j: nat)
    requires i < j < |s| && s[i] == s[j]
    ensures multiset(s)[s[i]] >= 2
  {
    assert s == s[..j] + s[j..];
    assert s[i] == s[..j][i];
    assert s[j] == s[j..][0];
    assert multiset(s) == multiset(s[..j]) + multiset(s[j..]);
  }

  /** A list without repeats holds each item at most once. */
  lemma {:induction false} NoDupCount(s: seq<string>, x: string)
    requires Condense.NoDup(s)
    ensures multiset(s)[x] <= 1
  {
    if s != [] {
      assert s == [s[0]] + s[1..];
      NoDupCount(s[1..], x);
      if s[0] == x {
        assert x !in s[1..];
      }
    }
  }

  /** Sorting a list without repeats gives a strictly increasing list with the same items. */
  lemma SortedUnique(unique: seq<string>)
    requires Condense.NoDup(unique)
    ensures Increasing(SortStrings(unique))
    ensures forall n :: n in SortStrings(unique) <==> n in unique
  {
    var names := SortStrings(unique);
    forall n ensures n in names <==> n in unique {
      assert n in names <==> n in multiset(names);
      assert n in unique <==> n in multiset(unique);
    }
    forall i, j | 0 <= i < j < |names| ensures names[i] != names[j] {
      if names[i] == names[j] {
        RepeatCounts(names, i, j);
        NoDupCount(unique, names[i]);
        assert false;
      }
    }
  }

  /**
   * The listed runs are in strictly increasing file-name order, and they
   * are exactly the parseable names among the summary's tail and the
   * globbed files.
   */
  lemma ListedRuns(sessionId: string, traceTail: Option<Json>, globbed: seq<string>)
    ensures var runs := Runs(sessionId, SortStrings(Condense.Dedupe(TailNames(traceTail) + globbed)));
            && RunsIncreasing(runs)
            && (forall run :: run in runs <==>
                  (run.fileName in TailNames(traceTail) || run.fileName in globbed)
                  && ExtractRunId(sessionId, run.fileName) == Some(run.runId))
  {
    var candidates := TailNames(traceTail) + globbed;
    var unique := Condense.Dedupe(candidates);
    SortedUnique(unique);
    var names := SortStrings(unique);
    RunsKeepOrder(sessionId, names);
    RunsOfNames(sessionId, names);
  }

  // ------------------------------------------------------------------ run_turn

  /**
   * The run id and trace file name `run_turn` reports after the turn, from
   * the session's latest checkpoint (`None` when it has none): the id read
   * from the last trace name, else `rev-<revision>`; the last trace name,
   * else the file name of that id.
   */
  method RunTurnIds(sessionId: string, checkpoint: Option<CheckpointValue>)
    returns (runId: Option<string>, traceFileName: Option<string>)
    ensures runId.None? <==> checkpoint.None?
    ensures traceFileName.None? <==> checkpoint.None?
    ensures checkpoint.Some? && checkpoint.value.traceTail != [] ==>
              var last := checkpoint.value.traceTail[|checkpoint.value.traceTail| - 1];
              traceFileName == Some(last)
              && (ExtractRunId(sessionId, last).Some? ==> runId == ExtractRunId(sessionId, last))
    ensures checkpoint.Some? && (checkpoint.value.traceTail == [] ||
              ExtractRunId(sessionId, checkpoint.value.traceTail[|checkpoint.value.traceTail| - 1]).None?) ==>
              runId == Some("rev-" + IntToString(checkpoint.value.revision))
    ensures checkpoint.Some? && checkpoint.value.traceTail == [] ==>
              traceFileName == Some(TraceFileName(sessionId, runId.value))
    ensures traceFileName.Some? && ExtractRunId(sessionId, traceFileName.value).Some? ==>
              runId == ExtractRunId(sessionId, traceFileName.value)
  {
    runId := None;
    traceFileName := None;
    if checkpoint.Some? {
      var tail := checkpoint.value.traceTail;
      if tail != [] {
        traceFileName := Some(tail[|tail| - 1]);
        runId := ExtractRunId(sessionId, tail[|tail| - 1]);
      }
      if runId.None? {
        runId := Some("rev-" + IntToString(checkpoint.value.revision));
      }
    }
    if traceFileName.None? && runId.Some? {
      traceFileName := Some(TraceFileName(sessionId, runId.value));
      ExtractRunIdRoundTrip(sessionId, runId.value);
    }
  }
}
