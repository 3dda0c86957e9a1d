/**
 * The log and metrics views of the llama supervisor's web app: the last
 * lines of a server's log, the order in which the rotated log files are
 * streamed, and the window of metric samples it returns. A file's content
 * is a parameter (`None` when the file does not exist); JSON decoding is
 * the parameter `decode`.
 */
module SupervisorApp {
  import opened Wrappers
  import opened JsonValue
  import opened Strings

  const MaxTail: int := 10000
  const MaxLimit: int := 2000

  /** `max(0, min(int(tail), 10000))` in the logs endpoint. */
  function ClampTail(tail: int): (r: int)
    ensures 0 <= r <= MaxTail
    ensures 0 <= tail <= MaxTail ==> r == tail
    ensures tail < 0 ==> r == 0
    ensures tail > MaxTail ==> r == MaxTail
  {
    if tail < 0 then 0 else if tail > MaxTail then MaxTail else tail
  }

  /** `max(1, min(int(limit), 2000))` in the metrics endpoint. */
  function ClampLimit(limit: int): (r: int)
    ensures 1 <= r <= MaxLimit
    ensures 1 <= limit <= MaxLimit ==> r == limit
    ensures limit < 1 ==> r == 1
    ensures limit > MaxLimit ==> r == MaxLimit
  {
    if limit < 1 then 1 else if limit > MaxLimit then MaxLimit else limit
  }

  // ------------------------------------------------------------ _tail_lines

  /**
   * `_tail_lines(path, max_lines)`, `text` being the file's content:
   * `lines[-max_lines:]` of its lines.
   */
  function TailLines(text: Option<string>, maxLines: int): (r: seq<string>)
    ensures maxLines <= 0 || text.None? ==> r == []
    ensures maxLines > 0 && text.Some? ==>
              var lines := SplitLines(text.value);
              |r| == (if maxLines < |lines| then maxLines else |lines|)
              && r == lines[|lines| - |r|..]
  {
    if maxLines <= 0 || text.None? then []
    else
      var lines := SplitLines(text.value);
      lines[SliceBound(-maxLines, |lines|)..]
  }

  // ------------------------------------------------------------ _ordered_log_paths

  /** The `idx`-th rotated copy of the log: `path.with_suffix(path.suffix + ".idx")`. */
  function BackupPath(path: string, idx: nat): string {
    path + "." + NatToString(idx)
  }

  /**
   * `_ordered_log_paths(path, backups)`: the rotated copies from the
   * oldest, `.backups`, down to `.1`, then the live log.
   */
  method OrderedLogPaths(path: string, backups: int) returns (paths: seq<string>)
    ensures |paths| == (if backups > 0 then backups else 0) + 1
    ensures forall k :: 0 <= k < |paths| - 1 ==> paths[k] == BackupPath(path, backups - k)
    ensures paths[|paths| - 1] == path
  {
    paths := [];
    var idx := backups;
    while idx > 0
      invariant (if backups > 0 then 0 else backups) <= idx <= backups
      invariant |paths| == backups - idx
      invariant forall k :: 0 <= k < |paths| ==> paths[k] == BackupPath(path, backups - k)
    {
      paths := paths + [BackupPath(path, idx)];
      idx := idx - 1;
    }
    paths := paths + [path];
  }

  /** The live log comes last and each backup appears once: the names are distinct. */
  lemma BackupPathsDistinct(path: string, i: nat, j: nat)
    requires i != j
    ensures BackupPath(path, i) != BackupPath(path, j) && BackupPath(path, i) != path
  {
    if BackupPath(path, i) == BackupPath(path, j) {
      assert BackupPath(path, i)[|path| + 1..] == NatToString(i);
      assert BackupPath(path, j)[|path| + 1..] == NatToString(j);
      DigitsValueOfNatToString(i);
      DigitsValueOfNatToString(j);
    }
  }

  // ------------------------------------------------------------ _read_metrics

  /** What `_read_metrics` does with one line of the metrics file. */
  datatype LineOutcome = Skip | Keep(payload: Json) | Raise

  /**
   * A stripped blank line or one that does not decode is skipped. With a
   * `since` bound, `payload.get("ts")` raises on a payload that is not an
   * object, and a numeric `ts` below the bound is skipped; every other
   * payload is kept.
   */
  function ReadLine(line: string, since: Option<real>, decode: Decoder): (r: LineOutcome)
    ensures Strip(line) == [] || decode(Strip(line)).None? ==> r == Skip
    ensures r.Keep? ==> decode(Strip(line)) == Some(r.payload)
    ensures r == Raise <==> Strip(line) != [] && decode(Strip(line)).Some? && since.Some? && !decode(Strip(line)).value.JObj?
    ensures Strip(line) != [] && decode(Strip(line)).Some? && since.None? ==> r.Keep?
    ensures Strip(line) != [] && decode(Strip(line)).Some? && since.Some? && decode(Strip(line)).value.JObj? ==>
              var ts := Get(decode(Strip(line)).value.fields, "ts");
              (r == Skip <==> IsNumber(ts) && NumberValue(ts) < since.value)
  {
    var stripped := Strip(line);
    if stripped == [] then Skip
    else match decode(stripped)
      case None => Skip
      case Some(payload) =>
        if since.None? then Keep(payload)
        else if !payload.JObj? then Raise
        else
          var ts := Get(payload.fields, "ts");
          if IsNumber(ts) && NumberValue(ts) < since.value then Skip else Keep(payload)
  }

  /** The payloads kept from `lines`, in order, or `None` once a line raises. */
  function Accepted(lines: seq<string>, since: Option<real>, decode: Decoder): Option<seq<Json>> {
    if lines == [] then Some([])
    else
      match Accepted(lines[..|lines| - 1], since, decode)
      case None => None
      case Some(acc) =>
        match ReadLine(lines[|lines| - 1], since, decode)
        case Skip => Some(acc)
        case Keep(payload) => Some(acc + [payload])
        case Raise => None
  }

  /** One step of the window: append, then `entries[-limit:]` once there are more than `limit`. */
  function Push(entries: seq<Json>, payload: Json, limit: int): seq<Json> {
    var e := entries + [payload];
    if |e| > limit then e[SliceBound(-limit, |e|)..] else e
  }

  /** The window after pushing every accepted payload from the empty list. */
  function Window(payloads: seq<Json>, limit: int): seq<Json> {
    if payloads == [] then []
    else Push(Window(payloads[..|payloads| - 1], limit), payloads[|payloads| - 1], limit)
  }

  /**
   * `_read_metrics(path, since, limit)`, `lines` being the metrics file's
   * lines (`None` when it does not exist); `Err` is the `AttributeError`
   * a non-object payload raises when `since` is given.
   */
  method ReadMetrics(lines: Option<seq<string>>, since: Option<real>, limit: int, decode: Decoder)
    returns (r: Result<seq<Json>>)
    ensures lines.None? ==> r == Ok([])
    ensures lines.Some? ==> match Accepted(lines.value, since, decode)
                            case None => r.Err?
                            case Some(acc) => r == Ok(Window(acc, limit))
  {
    if lines.None? {
      return Ok([]);
    }
    var file := lines.value;
    var entries: seq<Json> := [];
    ghost var accepted: seq<Json> := [];
    for i := 0 to |file|
      invariant Accepted(file[..i], since, decode) == Some(accepted)
      invariant entries == Window(accepted, limit)
    {
      assert file[..i + 1][..i] == file[..i];
      match ReadLine(file[i], since, decode)
      case Skip =>
      case Raise =>
        r := Err("AttributeError: 'get'");
        assert Accepted(file[..i + 1], since, decode).None?;
        AcceptedStaysNone(file, i + 1, since, decode);
        return;
      case Keep(payload) =>
        assert Window(accepted + [payload], limit) == Push(entries, payload, limit) by {
          assert (accepted + [payload])[..|accepted|] == accepted;
        }
        entries := Push(entries, payload, limit);
        accepted := accepted + [payload];
    }
    assert file[..|file|] == file;
    r := Ok(entries);
  }

  /** Once a line has raised, the file as a whole raises. */
  lemma {:induction false} AcceptedStaysNone(file: seq<string>, n: nat, since: Option<real>, decode: Decoder)
    requires n <= |file| && Accepted(file[..n], since, decode).None?
    ensures Accepted(file, since, decode).None?
    decreases |file| - n
  {
    if n < |file| {
      assert file[..n + 1][..n] == file[..n];
      AcceptedStaysNone(file, n + 1, since, decode);
    } else {
      assert file[..n] == file;
    }
  }

  /**
   * For `limit >= 1` the window holds the last `limit` accepted payloads
   * (all of them when there are fewer), in file order.
   */
  lemma {:induction false} WindowKeepsLast(payloads: seq<Json>, limit: int)
    requires limit >= 1
    ensures var w := Window(payloads, limit);
            |w| == (if |payloads| < limit then |payloads| else limit)
            && w == payloads[|payloads| - |w|..]
  {
    if payloads != [] {
      var init, last := payloads[..|payloads| - 1], payloads[|payloads| - 1];
      WindowKeepsLast(init, limit);
      var before := Window(init, limit);
      var e := before + [last];
      var k := |init| - |before|;
      assert payloads == init + [last];
      assert payloads[k..] == init[k..] + [last];
      assert e == payloads[|payloads| - |e|..];
      if |e| > limit {
        assert e[|e| - limit..] == payloads[|payloads| - limit..];
      }
    }
  }

  /** With `limit == 0`, `entries[-0:]` is the whole list: every accepted payload is kept. */
  lemma {:induction false} WindowZeroKeepsAll(payloads: seq<Json>)
    ensures Window(payloads, 0) == payloads
  {
    if payloads != [] {
      WindowZeroKeepsAll(payloads[..|payloads| - 1]);
      assert payloads[..|payloads| - 1] + [payloads[|payloads| - 1]] == payloads;
    }
  }
}
