/**
 * The file chunker of the introspection tools: a text is cut into
 * chunks by headings, by top-level Python definitions, by runs of log
 * and non-log lines, or into fixed-size runs of lines, and no chunk is
 * longer than `max_chars` except where overlap is asked for. The SHA-1
 * digest behind chunk ids and Python's own parser are parameters.
 */
module Chunking {
  import opened Wrappers
  import opened Strings
  import opened Sandbox

  /** `Chunk` */
  datatype Chunk = Chunk(id: string, title: string, strategy: string, startLine: int, endLine: int, text: string)

  /** `hashlib.sha1(payload.encode("utf-8")).hexdigest()`: a parameter. */
  type Sha1Hex = string -> string

  function Texts(chunks: seq<Chunk>): (r: seq<string>)
    ensures |r| == |chunks| && forall k :: 0 <= k < |chunks| ==> r[k] == chunks[k].text
  {
    seq(|chunks|, k requires 0 <= k < |chunks| => chunks[k].text)
  }

  lemma TextsOfAppend(a: seq<Chunk>, b: seq<Chunk>)
    ensures Texts(a + b) == Texts(a) + Texts(b)
    ensures Concat(Texts(a + b)) == Concat(Texts(a)) + Concat(Texts(b))
  {
    ConcatOfAppend(Texts(a), Texts(b));
  }

  // ------------------------------------------------------------ ids and chunks

  /** `_chunk_id(path, start_line, end_line, title)`: the first ten hex digits of the digest. */
  function ChunkId(path: string, startLine: int, endLine: int, title: string, sha1: Sha1Hex): (r: string)
    ensures |r| <= 10
  {
    var digest := sha1(path + ":" + IntToString(startLine) + ":" + IntToString(endLine) + ":" + title);
    PySlice(digest, 0, if |digest| < 10 then |digest| else 10)
  }

  /** `_build_chunk`: a chunk with its id and no strategy yet. */
  function BuildChunk(path: string, title: string, startLine: int, endLine: int, text: string, sha1: Sha1Hex): (c: Chunk)
    ensures c.title == title && c.strategy == "" && c.text == text
    ensures c.startLine == startLine && c.endLine == endLine
    ensures c.id == ChunkId(path, startLine, endLine, title, sha1)
  {
    Chunk(ChunkId(path, startLine, endLine, title, sha1), title, "", startLine, endLine, text)
  }

  // ------------------------------------------------------------ newlines and strategies

  /** `_normalize_newlines`: `\r\n`, then every remaining `\r`, becomes `\n`. */
  function NormalizeNewlines(text: string): string {
    ReplaceAll(ReplaceAll(text, "\r\n", "\n"), "\r", "\n")
  }

  /** Replacing every `\r` by a text without one leaves no `\r`. */
  lemma {:induction false} ReplaceCarriageReturn(s: string, rep: string)
    requires '\r' !in rep
    ensures '\r' !in ReplaceAll(s, "\r", rep)
    decreases |s|
  {
    match FindFrom(s, "\r", 0)
    case None =>
      forall k | 0 <= k < |s| ensures s[k] != '\r' {
        assert !OccursAt(s, "\r", k) && s[k..k + 1] == [s[k]] && "\r" == ['\r'];
      }
    case Some(i) =>
      forall k | 0 <= k < i ensures s[k] != '\r' {
        assert !OccursAt(s, "\r", k) && s[k..k + 1] == [s[k]] && "\r" == ['\r'];
      }
      ReplaceCarriageReturn(s[i + 1..], rep);
      var r := ReplaceAll(s, "\r", rep);
      assert r == s[..i] + rep + ReplaceAll(s[i + 1..], "\r", rep);
  }

  /** After normalisation no carriage return is left. */
  lemma NormalizedHasNoCarriageReturn(text: string)
    ensures '\r' !in NormalizeNewlines(text)
  {
    ReplaceCarriageReturn(ReplaceAll(text, "\r\n", "\n"), "\n");
  }

  /** The final component of a path, as `pathlib` names it. */
  function FileName(path: string): string {
    PathName(ParsePath(path))
  }

  /** The index of the last `.` in `name`, if any. */
  function LastDot(name: string): (r: Option<nat>)
    ensures r.Some? ==> r.value < |name| && name[r.value] == '.'
    ensures r.Some? ==> forall k :: r.value < k < |name| ==> name[k] != '.'
    ensures r.None? ==> '.' !in name
  {
    if |name| == 0 then None
    else if name[|name| - 1] == '.' then Some(|name| - 1)
    else
      var r := LastDot(name[..|name| - 1]);
      assert forall k :: 0 <= k < |name| - 1 ==> name[k] == name[..|name| - 1][k];
      r
  }

  /** `Path(path).suffix`: from the last dot on, unless that dot starts or ends the name. */
  function Suffix(path: string): (r: string)
    ensures r == "" || (r[0] == '.' && 1 < |r| && IsSuffix(r, FileName(path)) && '.' !in r[1..])
  {
    var name := FileName(path);
    match LastDot(name)
    case None => ""
    case Some(i) => if 0 < i < |name| - 1 then name[i..] else ""
  }

  /** `_resolve_strategy(path, strategy)`: an explicit strategy lower-cased, else one chosen by suffix. */
  function ResolveStrategy(path: string, strategy: string): (r: string)
    ensures var lowered := Lower(if strategy == "" then "auto" else strategy);
            lowered != "auto" ==> r == lowered
    ensures var lowered := Lower(if strategy == "" then "auto" else strategy);
            lowered == "auto" ==>
              r == (var suffix := Lower(Suffix(path));
                    if suffix in {".log", ".jsonl", ".txt"} then "log"
                    else if suffix in {".md", ".rst"} then "headings"
                    else if suffix == ".py" then "python_ast"
                    else "fixed")
  {
    var lowered := Lower(if strategy == "" then "auto" else strategy);
    if lowered != "auto" then lowered
    else
      var suffix := Lower(Suffix(path));
      if suffix in {".log", ".jsonl", ".txt"} then "log"
      else if suffix in {".md", ".rst"} then "headings"
      else if suffix == ".py" then "python_ast"
      else "fixed"
  }

  // ------------------------------------------------------------ line and chunk facts

  /**
   * A chunk reports its lines truthfully: its text is exactly lines
   * `startLine..endLine` (1-based) of the file, or a piece of one line
   * that was too long to keep whole.
   */
  ghost predicate Reports(c: Chunk, lines: seq<string>, offset: int) {
    ReportsLines(c.startLine, c.endLine, c.text, lines, offset)
  }

  ghost predicate ReportsLines(startLine: int, endLine: int, text: string, lines: seq<string>, offset: int) {
    && offset + 1 <= startLine <= endLine <= offset + |lines|
    && (|| text == Concat(lines[startLine - offset - 1..endLine - offset])
        || (startLine == endLine && Contains(lines[startLine - offset - 1], text)))
  }

  /** Every chunk is non-empty and at most `maxChars` long. */
  predicate Bounded(chunks: seq<Chunk>, maxChars: int) {
    forall k :: 0 <= k < |chunks| ==> 0 < |chunks[k].text| <= maxChars
  }

  predicate AllTitled(chunks: seq<Chunk>, title: string) {
    forall k :: 0 <= k < |chunks| ==> chunks[k].title == title && chunks[k].strategy == ""
  }

  ghost predicate AllReport(chunks: seq<Chunk>, lines: seq<string>, offset: int) {
    forall k :: 0 <= k < |chunks| ==> Reports(chunks[k], lines, offset)
  }

  /** The three chunk-list facts carry over to a concatenation. */
  lemma ChunksAppend(a: seq<Chunk>, b: seq<Chunk>, lines: seq<string>, offset: int, maxChars: int, title: string)
    ensures AllReport(a, lines, offset) && AllReport(b, lines, offset) ==> AllReport(a + b, lines, offset)
    ensures Bounded(a, maxChars) && Bounded(b, maxChars) ==> Bounded(a + b, maxChars)
    ensures AllTitled(a, title) && AllTitled(b, title) ==> AllTitled(a + b, title)
  {
    assert forall k :: 0 <= k < |a| ==> (a + b)[k] == a[k];
    assert forall k :: |a| <= k < |a + b| ==> (a + b)[k] == b[k - |a|];
  }

  /** A run of non-empty lines has non-empty text. */
  lemma NonEmptyRun(run: seq<string>)
    requires |run| > 0 && |run[0]| > 0
    ensures |Concat(run)| > 0
  {
  }

  // ------------------------------------------------------------ _split_long_line

  /** `_split_long_line`: consecutive pieces of at most `maxChars`, all numbered with the line's number. */
  method SplitLongLine(path: string, title: string, lineNo: int, line: string, maxChars: int, sha1: Sha1Hex)
    returns (parts: seq<Chunk>)
    requires maxChars > 0
    ensures Concat(Texts(parts)) == line
    ensures Bounded(parts, maxChars) && AllTitled(parts, title)
    ensures forall k :: 0 <= k < |parts| ==>
              parts[k].startLine == lineNo && parts[k].endLine == lineNo && Contains(line, parts[k].text)
  {
    parts := [];
    var start := 0;
    while start < |line|
      invariant 0 <= start <= |line|
      invariant Concat(Texts(parts)) == line[..start]
      invariant Bounded(parts, maxChars) && AllTitled(parts, title)
      invariant forall k :: 0 <= k < |parts| ==>
                  parts[k].startLine == lineNo && parts[k].endLine == lineNo && Contains(line, parts[k].text)
    {
      var end := if start + maxChars < |line| then start + maxChars else |line|;
      var segment := line[start..end];
      assert OccursAt(line, segment, start);
      var piece := BuildChunk(path, title, lineNo, lineNo, segment, sha1);
      TextsOfAppend(parts, [piece]);
      assert line[..end] == line[..start] + segment;
      parts := parts + [piece];
      start := end;
    }
    assert line[..start] == line;
  }

  // ------------------------------------------------------------ _compute_overlap

  /**
   * `_compute_overlap(lines, overlap_chars)`: the longest run of final
   * lines totalling at most `overlapChars`, but always at least the last
   * line; nothing when no overlap is asked for.
   */
  method ComputeOverlap(lines: seq<string>, overlapChars: int) returns (overlap: seq<string>, count: nat)
    ensures count == |overlap|
    ensures overlapChars <= 0 || |lines| == 0 ==> overlap == []
    ensures overlapChars > 0 && |lines| > 0 ==>
              && 1 <= |overlap| <= |lines|
              && overlap == lines[|lines| - |overlap|..]
              && (|Concat(overlap)| <= overlapChars || |overlap| == 1)
              && (|overlap| < |lines| ==>
                    |Concat(overlap)| + |lines[|lines| - |overlap| - 1]| > overlapChars)
  {
    if overlapChars <= 0 || |lines| == 0 {
      return [], 0;
    }
    var total := 0;
    overlap := [];
    var j := |lines|;
    while j > 0
      invariant 0 <= j <= |lines|
      invariant overlap == lines[j..] && total == |Concat(overlap)|
      invariant |overlap| == 0 || total <= overlapChars || |overlap| == 1
    {
      var line := lines[j - 1];
      if total + |line| > overlapChars && |overlap| > 0 {
        break;
      }
      assert [line] + overlap == lines[j - 1..];
      overlap := [line] + overlap;
      total := total + |line|;
      j := j - 1;
    }
    return overlap, |overlap|;
  }

  // ------------------------------------------------------------ _chunk_fixed

  /** Adding one more line to a run of lines. */
  lemma RunGrows(lines: seq<string>, lo: nat, i: nat)
    requires lo <= i < |lines|
    ensures lines[lo..i] + [lines[i]] == lines[lo..i + 1]
    ensures Concat(lines[lo..i + 1]) == Concat(lines[lo..i]) + lines[i]
  {
    assert lines[lo..i] + [lines[i]] == lines[lo..i + 1];
    ConcatAppend(lines[lo..i], lines[i]);
  }

  /** A chunk holding the whole buffered run `lines[lo..i]`. */
  lemma BufferedChunkReports(lines: seq<string>, base: int, lo: nat, i: nat, c: Chunk)
    requires lo < i <= |lines|
    requires c.startLine == base + lo + 1 && c.endLine == base + i && c.text == Concat(lines[lo..i])
    ensures Reports(c, lines, base)
  {
  }

  /**
   * What the line-packing loops of `_chunk_fixed` and `_split_oversize`
   * keep true after the first `i` of `lines`, which are numbered from
   * `base + 1`: the buffer is the run of lines from `startLine` on,
   * every chunk so far reports its lines and carries `title`, and
   * without overlap the chunks and the buffer are bounded and together
   * are the lines read.
   */
  ghost predicate PackInv(lines: seq<string>, base: int, title: string, i: int, startLine: int,
                          buf: seq<string>, bufLen: int, chunks: seq<Chunk>, maxChars: int, overlapChars: int)
  {
    && 0 <= i <= |lines|
    && base + 1 <= startLine <= base + i + 1
    && buf == lines[startLine - base - 1..i] && bufLen == |Concat(buf)|
    && (forall k :: 0 <= k < |lines| ==> |lines[k]| > 0)
    && ChunksOk(lines, base, title, chunks, maxChars, overlapChars)
    && (overlapChars <= 0 ==> bufLen <= maxChars)
    && (overlapChars <= 0 ==> Concat(Texts(chunks)) + Concat(buf) == Concat(lines[..i]))
  }

  /** The facts about the chunks made so far that do not depend on the buffer. */
  ghost predicate ChunksOk(lines: seq<string>, base: int, title: string, chunks: seq<Chunk>, maxChars: int,
                           overlapChars: int)
  {
    && AllTitled(chunks, title)
    && AllReport(chunks, lines, base)
    && (overlapChars <= 0 ==> Bounded(chunks, maxChars))
  }

  /** The buffered run as one chunk, ending at the `i`-th line. */
  method FlushRun(path: string, lines: seq<string>, base: int, title: string, i: int, startLine: int,
                  buf: seq<string>, bufLen: int, chunks: seq<Chunk>, maxChars: int, overlapChars: int, sha1: Sha1Hex)
    returns (chunks': seq<Chunk>)
    requires PackInv(lines, base, title, i, startLine, buf, bufLen, chunks, maxChars, overlapChars) && |buf| > 0
    ensures PackInv(lines, base, title, i, base + i + 1, [], 0, chunks', maxChars, overlapChars)
    ensures chunks' == chunks + [BuildChunk(path, title, startLine, base + i, Concat(buf), sha1)]
  {
    var c := BuildChunk(path, title, startLine, base + i, Concat(buf), sha1);
    BufferedChunkReports(lines, base, startLine - base - 1, i, c);
    NonEmptyRun(buf);
    ChunksOkAppend(lines, base, title, chunks, c, maxChars, overlapChars);
    TotalAppend(chunks, c, Concat(buf));
    chunks' := chunks + [c];
    var none: seq<string> := [];
    assert lines[i..i] == none && Concat(none) == "";
  }

  /** A chunk that reports its lines, carries the title and (without overlap) is bounded keeps `ChunksOk`. */
  lemma ChunksOkAppend(lines: seq<string>, base: int, title: string, chunks: seq<Chunk>, c: Chunk, maxChars: int,
                       overlapChars: int)
    requires ChunksOk(lines, base, title, chunks, maxChars, overlapChars)
    requires Reports(c, lines, base) && c.title == title && c.strategy == ""
    requires overlapChars <= 0 ==> 0 < |c.text| <= maxChars
    ensures ChunksOk(lines, base, title, chunks + [c], maxChars, overlapChars)
  {
    ChunksAppend(chunks, [c], lines, base, maxChars, title);
  }

  /** One more chunk adds its text to the total. */
  lemma TotalAppend(chunks: seq<Chunk>, c: Chunk, text: string)
    requires c.text == text
    ensures Concat(Texts(chunks + [c])) == Concat(Texts(chunks)) + text
  {
    TextsOfAppend(chunks, [c]);
    var none: seq<string> := [];
    assert Texts([c]) == [c.text] && Concat([c.text]) == c.text + Concat(none);
  }

  /** A line longer than `maxChars`: the buffer is flushed and the line split on its own. */
  method LongLineStep(path: string, lines: seq<string>, base: int, title: string, i: int, startLine: int,
                      buf: seq<string>, bufLen: int, chunks: seq<Chunk>, maxChars: int, overlapChars: int,
                      sha1: Sha1Hex)
    returns (chunks': seq<Chunk>)
    requires maxChars > 0 && 0 <= i < |lines| && |lines[i]| > maxChars
    requires PackInv(lines, base, title, i, startLine, buf, bufLen, chunks, maxChars, overlapChars)
    ensures PackInv(lines, base, title, i + 1, base + i + 2, [], 0, chunks', maxChars, overlapChars)
  {
    chunks' := chunks;
    if |buf| > 0 {
      chunks' := FlushRun(path, lines, base, title, i, startLine, buf, bufLen, chunks, maxChars, overlapChars, sha1);
    }
    assert PackInv(lines, base, title, i, base + i + 1, [], 0, chunks', maxChars, overlapChars);
    var pieces := SplitLongLine(path, title, base + i + 1, lines[i], maxChars, sha1);
    assert AllReport(pieces, lines, base) by {
      forall k | 0 <= k < |pieces| ensures Reports(pieces[k], lines, base) {
        assert Contains(lines[(base + i + 1) - base - 1], pieces[k].text);
      }
    }
    PiecesStep(lines, base, title, i, chunks', pieces, maxChars, overlapChars);
    chunks' := chunks' + pieces;
  }

  /** The pieces of a long line follow the chunks so far. */
  lemma PiecesStep(lines: seq<string>, base: int, title: string, i: int, chunks: seq<Chunk>, pieces: seq<Chunk>,
                   maxChars: int, overlapChars: int)
    requires 0 <= i < |lines|
    requires PackInv(lines, base, title, i, base + i + 1, [], 0, chunks, maxChars, overlapChars)
    requires Concat(Texts(pieces)) == lines[i] && Bounded(pieces, maxChars)
    requires AllTitled(pieces, title) && AllReport(pieces, lines, base)
    ensures PackInv(lines, base, title, i + 1, base + i + 2, [], 0, chunks + pieces, maxChars, overlapChars)
  {
    TextsOfAppend(chunks, pieces);
    ChunksAppend(chunks, pieces, lines, base, maxChars, title);
    RunGrows(lines, 0, i);
    assert lines[i + 1..i + 1] == [];
    var none: seq<string> := [];
    assert Concat(none) == "";
    if overlapChars <= 0 {
      assert Concat(Texts(chunks)) == Concat(lines[..i]);
      assert Concat(Texts(chunks + pieces)) + Concat(none) == Concat(lines[..i + 1]);
    }
  }

  /** The buffer is full: it becomes a chunk and the next run starts with its overlap. */
  method FullBufferStep(path: string, lines: seq<string>, base: int, title: string, i: int, startLine: int,
                        buf: seq<string>, bufLen: int, chunks: seq<Chunk>, maxChars: int, overlapChars: int,
                        sha1: Sha1Hex)
    returns (chunks': seq<Chunk>, startLine': int, buf': seq<string>, bufLen': int)
    requires |buf| > 0
    requires PackInv(lines, base, title, i, startLine, buf, bufLen, chunks, maxChars, overlapChars)
    ensures PackInv(lines, base, title, i, startLine', buf', bufLen', chunks', maxChars, overlapChars)
    ensures overlapChars <= 0 ==> buf' == []
  {
    chunks' := FlushRun(path, lines, base, title, i, startLine, buf, bufLen, chunks, maxChars, overlapChars, sha1);
    var overlap, overlapLines := ComputeOverlap(buf, overlapChars);
    assert overlap == lines[i - overlapLines..i];
    buf' := overlap;
    bufLen' := |Concat(overlap)|;
    if overlapLines > 0 {
      startLine' := base + i - overlapLines + 1;
    } else {
      startLine' := base + i + 1;
    }
  }

  /** A line that fits joins the buffer. */
  lemma AppendStep(lines: seq<string>, base: int, title: string, i: int, startLine: int,
                   buf: seq<string>, bufLen: int, chunks: seq<Chunk>, maxChars: int, overlapChars: int)
    requires 0 <= i < |lines| && |lines[i]| <= maxChars
    requires PackInv(lines, base, title, i, startLine, buf, bufLen, chunks, maxChars, overlapChars)
    requires overlapChars <= 0 ==> bufLen + |lines[i]| <= maxChars
    ensures PackInv(lines, base, title, i + 1, startLine, buf + [lines[i]], bufLen + |lines[i]|, chunks,
                    maxChars, overlapChars)
  {
    var lo := startLine - base - 1;
    RunGrows(lines, lo, i);
    assert buf + [lines[i]] == lines[lo..i + 1];
    ConcatAppend(buf, lines[i]);
    assert bufLen + |lines[i]| == |Concat(buf + [lines[i]])|;
    if overlapChars <= 0 {
      AppendKeepsTotal(Concat(Texts(chunks)), buf, lines, i);
    }
  }

  /** What is read so far grows by the line that joins the buffer. */
  lemma AppendKeepsTotal(done: string, buf: seq<string>, lines: seq<string>, i: int)
    requires 0 <= i < |lines| && done + Concat(buf) == Concat(lines[..i])
    ensures done + Concat(buf + [lines[i]]) == Concat(lines[..i + 1])
  {
    RunGrows(lines, 0, i);
    ConcatAppend(buf, lines[i]);
    assert done + (Concat(buf) + lines[i]) == (done + Concat(buf)) + lines[i];
  }

  /**
   * The loop `_chunk_fixed` and `_split_oversize` share: runs of whole
   * lines, a line longer than `maxChars` split on its own, and (in
   * `_chunk_fixed` only) each new run starting with the overlap of the
   * previous one.
   */
  method PackLines(path: string, lines: seq<string>, base: int, title: string, maxChars: int, overlapChars: int,
                   sha1: Sha1Hex)
    returns (chunks: seq<Chunk>)
    requires maxChars > 0 && forall k :: 0 <= k < |lines| ==> |lines[k]| > 0
    ensures AllTitled(chunks, title) && AllReport(chunks, lines, base)
    ensures overlapChars <= 0 ==> Bounded(chunks, maxChars) && Concat(Texts(chunks)) == Concat(lines)
  {
    chunks := [];
    var startLine := base + 1;
    var buf: seq<string> := [];
    var bufLen := 0;
    for i := 0 to |lines|
      invariant PackInv(lines, base, title, i, startLine, buf, bufLen, chunks, maxChars, overlapChars)
    {
      chunks, startLine, buf, bufLen :=
        PackLine(path, lines, base, title, i, startLine, buf, bufLen, chunks, maxChars, overlapChars, sha1);
    }
    chunks := PackFinish(path, lines, base, title, startLine, buf, bufLen, chunks, maxChars, overlapChars, sha1);
  }

  /** One round of the packing loop: line `i` is split on its own, or joins the buffer, flushing it first when full. */
  method PackLine(path: string, lines: seq<string>, base: int, title: string, i: int, startLine: int,
                  buf: seq<string>, bufLen: int, chunks: seq<Chunk>, maxChars: int, overlapChars: int, sha1: Sha1Hex)
    returns (chunks': seq<Chunk>, startLine': int, buf': seq<string>, bufLen': int)
    requires maxChars > 0 && 0 <= i < |lines|
    requires PackInv(lines, base, title, i, startLine, buf, bufLen, chunks, maxChars, overlapChars)
    ensures PackInv(lines, base, title, i + 1, startLine', buf', bufLen', chunks', maxChars, overlapChars)
  {
    var line := lines[i];
    if |line| > maxChars {
      chunks' := LongLineStep(path, lines, base, title, i, startLine, buf, bufLen, chunks, maxChars, overlapChars, sha1);
      return chunks', base + i + 2, [], 0;
    }
    chunks', startLine', buf', bufLen' := chunks, startLine, buf, bufLen;
    if |buf| > 0 && bufLen + |line| > maxChars {
      chunks', startLine', buf', bufLen' :=
        FullBufferStep(path, lines, base, title, i, startLine, buf, bufLen, chunks, maxChars, overlapChars, sha1);
    }
    AppendStep(lines, base, title, i, startLine', buf', bufLen', chunks', maxChars, overlapChars);
    buf' := buf' + [line];
    bufLen' := bufLen' + |line|;
  }

  /** After the last line the buffer, if any, becomes the last chunk. */
  method PackFinish(path: string, lines: seq<string>, base: int, title: string, startLine: int,
                    buf: seq<string>, bufLen: int, chunks: seq<Chunk>, maxChars: int, overlapChars: int, sha1: Sha1Hex)
    returns (chunks': seq<Chunk>)
    requires PackInv(lines, base, title, |lines|, startLine, buf, bufLen, chunks, maxChars, overlapChars)
    ensures AllTitled(chunks', title) && AllReport(chunks', lines, base)
    ensures overlapChars <= 0 ==> Bounded(chunks', maxChars) && Concat(Texts(chunks')) == Concat(lines)
  {
    chunks' := chunks;
    if |buf| > 0 {
      chunks' := FlushRun(path, lines, base, title, |lines|, startLine, buf, bufLen, chunks, maxChars, overlapChars, sha1);
    }
    assert lines[..|lines|] == lines;
  }

  /** The lines of a text are non-empty. */
  lemma LinesNonEmpty(text: string)
    ensures forall k :: 0 <= k < |SplitLinesKeepEnds(text)| ==> |SplitLinesKeepEnds(text)[k]| > 0
  {
    var lines := SplitLinesKeepEnds(text);
    forall k | 0 <= k < |lines| ensures |lines[k]| > 0 {
      assert lines[k] in lines;
    }
  }

  /**
   * `_chunk_fixed(path, text, max_chars, overlap_chars)`, titled
   * "chunk" and numbered from the first line. Every chunk reports its
   * lines truthfully; without overlap the chunks are at most `maxChars`
   * long and together are exactly the text.
   */
  method ChunkFixed(path: string, text: string, maxChars: int, overlapChars: int, sha1: Sha1Hex)
    returns (chunks: seq<Chunk>)
    requires maxChars > 0
    ensures AllTitled(chunks, "chunk")
    ensures AllReport(chunks, SplitLinesKeepEnds(text), 0)
    ensures overlapChars <= 0 ==> Bounded(chunks, maxChars) && Concat(Texts(chunks)) == text
  {
    var lines := SplitLinesKeepEnds(text);
    SplitLinesKeepEndsConcat(text);
    LinesNonEmpty(text);
    chunks := PackLines(path, lines, 0, "chunk", maxChars, overlapChars, sha1);
  }

  // ------------------------------------------------------------ _split_oversize

  /** The title of part `i` of `n`. */
  function PartTitle(title: string, i: int, n: int): string {
    title + " (part " + IntToString(i) + "/" + IntToString(n) + ")"
  }

  /** Part `i` of `n` under its part title, with its id recomputed. */
  function Relabeled(part: Chunk, title: string, i: int, n: int, path: string, sha1: Sha1Hex): Chunk
  {
    var t := PartTitle(title, i, n);
    Chunk(ChunkId(path, part.startLine, part.endLine, t, sha1), t, part.strategy, part.startLine, part.endLine, part.text)
  }

  /** Every part keeps its lines and text and carries its part title. */
  ghost predicate LabeledAs(labeled: seq<Chunk>, parts: seq<Chunk>, title: string, path: string, sha1: Sha1Hex) {
    && |labeled| == |parts|
    && forall k :: 0 <= k < |parts| ==> labeled[k] == Relabeled(parts[k], title, k + 1, |parts|, path, sha1)
  }

  /**
   * `parts` is what `_split_oversize` makes of a section text: together
   * they are the text, each is non-empty and at most `maxChars` long when
   * the text is not empty, and a single part keeps the title while
   * several are numbered "title (part i/n)".
   */
  predicate SplitOf(parts: seq<Chunk>, title: string, text: string, maxChars: int) {
    && Concat(Texts(parts)) == text
    && (|text| > 0 ==> Bounded(parts, maxChars))
    && (forall k :: 0 <= k < |parts| ==> parts[k].strategy == "")
    && (|parts| == 1 ==> parts[0].title == title)
    && (|parts| != 1 ==> forall k :: 0 <= k < |parts| ==> parts[k].title == PartTitle(title, k + 1, |parts|))
  }

  /**
   * `_split_oversize(path, title, start_line, end_line, text, max_chars)`:
   * a text that fits is one chunk with the given title and lines;
   * otherwise it is packed into bounded runs of its lines, numbered from
   * `startLine`, which are titled "title (part i/n)" when there is more
   * than one.
   */
  method SplitOversize(path: string, title: string, startLine: int, endLine: int, text: string, maxChars: int,
                       sha1: Sha1Hex)
    returns (parts: seq<Chunk>)
    requires maxChars > 0
    ensures |text| <= maxChars ==> parts == [BuildChunk(path, title, startLine, endLine, text, sha1)]
    ensures SplitOf(parts, title, text, maxChars)
    ensures |text| > maxChars ==> AllReport(parts, SplitLinesKeepEnds(text), startLine - 1)
  {
    if |text| <= maxChars {
      var c := BuildChunk(path, title, startLine, endLine, text, sha1);
      assert Texts([c]) == [text];
      assert Concat([text]) == text + Concat([]);
      return [c];
    }
    var lines := SplitLinesKeepEnds(text);
    SplitLinesKeepEndsConcat(text);
    LinesNonEmpty(text);
    var packed := PackLines(path, lines, startLine - 1, title, maxChars, 0, sha1);
    if |packed| == 1 {
      return packed;
    }
    parts := LabelParts(path, title, packed, sha1);
    LabelingKeepsLines(parts, packed, title, path, sha1, lines, startLine - 1, maxChars);
  }

  /** The first `|parts|` parts of an `n`-part split, retitled in order. */
  function Relabel(parts: seq<Chunk>, title: string, n: int, path: string, sha1: Sha1Hex): (r: seq<Chunk>)
    ensures |r| == |parts|
  {
    if parts == [] then []
    else Relabel(parts[..|parts| - 1], title, n, path, sha1)
         + [Relabeled(parts[|parts| - 1], title, |parts|, n, path, sha1)]
  }

  lemma {:induction false} RelabelNumbersParts(parts: seq<Chunk>, title: string, n: int, path: string, sha1: Sha1Hex)
    ensures forall k :: 0 <= k < |parts| ==>
              Relabel(parts, title, n, path, sha1)[k] == Relabeled(parts[k], title, k + 1, n, path, sha1)
    decreases |parts|
  {
    if parts != [] {
      var init := parts[..|parts| - 1];
      RelabelNumbersParts(init, title, n, path, sha1);
      var r, ri := Relabel(parts, title, n, path, sha1), Relabel(init, title, n, path, sha1);
      var last := Relabeled(parts[|init|], title, |init| + 1, n, path, sha1);
      assert r == ri + [last];
      forall k | 0 <= k < |parts| ensures r[k] == Relabeled(parts[k], title, k + 1, n, path, sha1) {
        if k < |init| {
          assert r[k] == ri[k] && parts[k] == init[k];
        } else {
          assert k == |init| && r[k] == last;
        }
      }
    }
  }

  /** The loop of `_split_oversize` that retitles the parts. */
  method LabelParts(path: string, title: string, packed: seq<Chunk>, sha1: Sha1Hex) returns (labeled: seq<Chunk>)
    ensures LabeledAs(labeled, packed, title, path, sha1)
  {
    var total := |packed|;
    labeled := [];
    for i := 0 to total
      invariant labeled == Relabel(packed[..i], title, total, path, sha1)
    {
      labeled := labeled + [Relabeled(packed[i], title, i + 1, total, path, sha1)];
      RelabelStep(packed, i, title, total, path, sha1);
    }
    assert packed[..total] == packed;
    RelabelNumbersParts(packed, title, total, path, sha1);
  }

  lemma RelabelStep(parts: seq<Chunk>, i: int, title: string, n: int, path: string, sha1: Sha1Hex)
    requires 0 <= i < |parts|
    ensures Relabel(parts[..i + 1], title, n, path, sha1)
            == Relabel(parts[..i], title, n, path, sha1) + [Relabeled(parts[i], title, i + 1, n, path, sha1)]
  {
    assert parts[..i + 1][..i] == parts[..i];
  }

  /** Retitling keeps every part's text, lines and strategy. */
  lemma LabelingKeepsLines(labeled: seq<Chunk>, packed: seq<Chunk>, title: string, path: string, sha1: Sha1Hex,
                           lines: seq<string>, base: int, maxChars: int)
    requires LabeledAs(labeled, packed, title, path, sha1)
    ensures Texts(labeled) == Texts(packed)
    ensures Bounded(packed, maxChars) ==> Bounded(labeled, maxChars)
    ensures AllReport(packed, lines, base) ==> AllReport(labeled, lines, base)
    ensures (forall k :: 0 <= k < |packed| ==> packed[k].strategy == "") ==>
              forall k :: 0 <= k < |labeled| ==> labeled[k].strategy == ""
    ensures forall k :: 0 <= k < |labeled| ==> labeled[k].title == PartTitle(title, k + 1, |labeled|)
  {
    forall k | 0 <= k < |labeled|
      ensures labeled[k].text == packed[k].text && labeled[k].startLine == packed[k].startLine
      ensures labeled[k].endLine == packed[k].endLine && labeled[k].strategy == packed[k].strategy
      ensures labeled[k].title == PartTitle(title, k + 1, |labeled|)
    {
      assert labeled[k] == Relabeled(packed[k], title, k + 1, |packed|, path, sha1);
    }
    if AllReport(packed, lines, base) {
      forall k | 0 <= k < |labeled| ensures Reports(labeled[k], lines, base) {
        assert Reports(packed[k], lines, base);
      }
    }
  }

  // ------------------------------------------------------------ sections

  /** A run of lines `startLine..endLine` (1-based, inclusive) to be chunked under `title`. */
  datatype Section = Section(startLine: int, endLine: int, title: string)

  /** `"".join(lines[start_line - 1 : end_line])`; a section that ends before it starts is skipped and gives nothing. */
  function SectionText(lines: seq<string>, s: Section): string {
    if s.endLine < s.startLine then ""
    else
      var lo, hi := SliceBound(s.startLine - 1, |lines|), SliceBound(s.endLine, |lines|);
      if lo <= hi then Concat(lines[lo..hi]) else ""
  }

  function SectionTexts(lines: seq<string>, sections: seq<Section>): (r: seq<string>)
    ensures |r| == |sections| && forall k :: 0 <= k < |sections| ==> r[k] == SectionText(lines, sections[k])
  {
    seq(|sections|, k requires 0 <= k < |sections| => SectionText(lines, sections[k]))
  }

  /** The chunks of several sections, section by section. */
  function Flatten(groups: seq<seq<Chunk>>): seq<Chunk> {
    if groups == [] then [] else Flatten(groups[..|groups| - 1]) + groups[|groups| - 1]
  }

  /** `parts` are the chunks of section `s`: none when it is skipped, else its `_split_oversize`. */
  predicate SectionSplit(parts: seq<Chunk>, s: Section, lines: seq<string>, maxChars: int) {
    if s.endLine < s.startLine then parts == [] else SplitOf(parts, s.title, SectionText(lines, s), maxChars)
  }

  /**
   * The sections tile lines `from..n`: they follow one another without
   * gap or overlap, none is empty, and the last one ends at line `n`.
   */
  predicate Tiles(sections: seq<Section>, from: int, n: int)
    decreases |sections|
  {
    if sections == [] then from == n + 1
    else
      && sections[0].startLine == from
      && sections[0].startLine <= sections[0].endLine
      && Tiles(sections[1..], sections[0].endLine + 1, n)
  }

  /** Sections that tile lines `from..|lines|` together hold exactly those lines. */
  lemma {:induction false} TilesText(lines: seq<string>, sections: seq<Section>, from: int)
    requires 1 <= from <= |lines| + 1 && Tiles(sections, from, |lines|)
    ensures Concat(SectionTexts(lines, sections)) == Concat(lines[from - 1..])
    decreases |sections|
  {
    if sections == [] {
      assert lines[from - 1..] == [];
    } else {
      var s := sections[0];
      TilesEnd(sections[1..], s.endLine + 1, |lines|);
      var e := s.endLine;
      TilesText(lines, sections[1..], e + 1);
      InRangeSectionText(lines, s);
      SectionTextsFront(lines, sections);
      SplitRun(lines, from - 1, e);
    }
  }

  /** The text of a section inside the file is the run of its lines. */
  lemma InRangeSectionText(lines: seq<string>, s: Section)
    requires 1 <= s.startLine <= s.endLine <= |lines|
    ensures SectionText(lines, s) == Concat(lines[s.startLine - 1..s.endLine])
  {
  }

  lemma SectionTextsFront(lines: seq<string>, sections: seq<Section>)
    requires sections != []
    ensures Concat(SectionTexts(lines, sections))
            == SectionText(lines, sections[0]) + Concat(SectionTexts(lines, sections[1..]))
  {
    assert SectionTexts(lines, sections) == [SectionText(lines, sections[0])] + SectionTexts(lines, sections[1..]);
  }

  /** The lines from `lo` on are those up to `mid` followed by the rest. */
  lemma SplitRun(lines: seq<string>, lo: int, mid: int)
    requires 0 <= lo <= mid <= |lines|
    ensures Concat(lines[lo..]) == Concat(lines[lo..mid]) + Concat(lines[mid..])
  {
    assert lines[lo..] == lines[lo..mid] + lines[mid..];
    ConcatOfAppend(lines[lo..mid], lines[mid..]);
  }

  /** A tiling of `from..n` never starts past `n + 1`. */
  lemma {:induction false} TilesEnd(sections: seq<Section>, from: int, n: int)
    requires Tiles(sections, from, n)
    ensures from <= n + 1
    ensures sections != [] ==> from <= n
    decreases |sections|
  {
    if sections != [] {
      TilesEnd(sections[1..], sections[0].endLine + 1, n);
    }
  }

  /** A tiling of `from..m` followed by one section `m+1..n` tiles `from..n`. */
  lemma {:induction false} TilesAppend(sections: seq<Section>, from: int, m: int, s: Section)
    requires Tiles(sections, from, m) && s.startLine == m + 1 <= s.endLine
    ensures Tiles(sections + [s], from, s.endLine)
    decreases |sections|
  {
    if sections == [] {
      assert [s][1..] == [];
    } else {
      assert (sections + [s])[1..] == sections[1..] + [s];
      TilesAppend(sections[1..], sections[0].endLine + 1, m, s);
    }
  }

  lemma FlattenStep(groups: seq<seq<Chunk>>, part: seq<Chunk>)
    ensures Flatten(groups + [part]) == Flatten(groups) + part
    ensures Concat(Texts(Flatten(groups + [part]))) == Concat(Texts(Flatten(groups))) + Concat(Texts(part))
  {
    assert (groups + [part])[..|groups|] == groups;
    TextsOfAppend(Flatten(groups), part);
  }

  lemma SectionTextsStep(lines: seq<string>, sections: seq<Section>, i: int)
    requires 0 <= i < |sections|
    ensures Concat(SectionTexts(lines, sections[..i + 1]))
            == Concat(SectionTexts(lines, sections[..i])) + SectionText(lines, sections[i])
  {
    assert SectionTexts(lines, sections[..i + 1]) == SectionTexts(lines, sections[..i]) + [SectionText(lines, sections[i])];
    ConcatAppend(SectionTexts(lines, sections[..i]), SectionText(lines, sections[i]));
  }

  /** Chunks that split non-empty sections one by one are all bounded. */
  lemma {:induction false} FlattenBounded(groups: seq<seq<Chunk>>, maxChars: int)
    requires forall g :: 0 <= g < |groups| ==> Bounded(groups[g], maxChars)
    ensures Bounded(Flatten(groups), maxChars)
    decreases |groups|
  {
    if groups != [] {
      FlattenBounded(groups[..|groups| - 1], maxChars);
      ChunksAppend(Flatten(groups[..|groups| - 1]), groups[|groups| - 1], [], 0, maxChars, "");
    }
  }

  /** `groups[g]` are the chunks of `sections[g]`, for every `g`. */
  ghost predicate AllSplit(groups: seq<seq<Chunk>>, sections: seq<Section>, lines: seq<string>, maxChars: int)
    decreases |sections|
  {
    && |groups| == |sections|
    && (sections != [] ==>
          && AllSplit(groups[..|groups| - 1], sections[..|sections| - 1], lines, maxChars)
          && SectionSplit(groups[|groups| - 1], sections[|sections| - 1], lines, maxChars))
  }

  lemma {:induction false} AllSplitAt(groups: seq<seq<Chunk>>, sections: seq<Section>, lines: seq<string>, maxChars: int)
    requires AllSplit(groups, sections, lines, maxChars)
    ensures forall g :: 0 <= g < |sections| ==> SectionSplit(groups[g], sections[g], lines, maxChars)
    decreases |sections|
  {
    if sections != [] {
      var n := |sections| - 1;
      AllSplitAt(groups[..n], sections[..n], lines, maxChars);
      forall g | 0 <= g < |sections| ensures SectionSplit(groups[g], sections[g], lines, maxChars) {
        if g < n {
          assert groups[..n][g] == groups[g] && sections[..n][g] == sections[g];
        }
      }
    }
  }

  lemma AllSplitStep(groups: seq<seq<Chunk>>, sections: seq<Section>, i: int, part: seq<Chunk>, lines: seq<string>,
                     maxChars: int)
    requires 0 <= i < |sections| && AllSplit(groups, sections[..i], lines, maxChars)
    requires SectionSplit(part, sections[i], lines, maxChars)
    ensures AllSplit(groups + [part], sections[..i + 1], lines, maxChars)
  {
    assert (groups + [part])[..i] == groups;
    assert sections[..i + 1][..i] == sections[..i];
  }

  /**
   * The loop shared by `_chunk_by_headings`, `_chunk_by_python_ast` and
   * `_chunk_by_log`: each section that does not end before it starts is
   * passed through `_split_oversize`, and the parts are collected in
   * order.
   */
  method SplitSections(path: string, lines: seq<string>, sections: seq<Section>, maxChars: int, sha1: Sha1Hex)
    returns (chunks: seq<Chunk>, ghost groups: seq<seq<Chunk>>)
    requires maxChars > 0
    ensures chunks == Flatten(groups) && AllSplit(groups, sections, lines, maxChars)
    ensures Concat(Texts(chunks)) == Concat(SectionTexts(lines, sections))
  {
    chunks, groups := [], [];
    for i := 0 to |sections|
      invariant chunks == Flatten(groups) && AllSplit(groups, sections[..i], lines, maxChars)
      invariant Concat(Texts(chunks)) == Concat(SectionTexts(lines, sections[..i]))
    {
      var s := sections[i];
      var part: seq<Chunk> := [];
      if s.startLine <= s.endLine {
        part := SplitOversize(path, s.title, s.startLine, s.endLine, SectionText(lines, s), maxChars, sha1);
      } else {
        assert Texts(part) == [];
      }
      AllSplitStep(groups, sections, i, part, lines, maxChars);
      FlattenStep(groups, part);
      SectionTextsStep(lines, sections, i);
      chunks, groups := chunks + part, groups + [part];
    }
    assert sections[..|sections|] == sections;
  }

  /** Sections that tile the whole text give chunks that are exactly the text, each bounded. */
  lemma SectionsCoverText(lines: seq<string>, sections: seq<Section>, groups: seq<seq<Chunk>>, maxChars: int)
    requires Tiles(sections, 1, |lines|) && forall k :: 0 <= k < |lines| ==> |lines[k]| > 0
    requires AllSplit(groups, sections, lines, maxChars)
    ensures Concat(SectionTexts(lines, sections)) == Concat(lines)
    ensures Bounded(Flatten(groups), maxChars)
  {
    AllSplitAt(groups, sections, lines, maxChars);
    TilesText(lines, sections, 1);
    assert lines[0..] == lines;
    forall g | 0 <= g < |groups| ensures Bounded(groups[g], maxChars) {
      TiledSectionNonEmpty(lines, sections, 1, g);
    }
    FlattenBounded(groups, maxChars);
  }

  /** Every section of a tiling of non-empty lines has non-empty text. */
  lemma {:induction false} TiledSectionNonEmpty(lines: seq<string>, sections: seq<Section>, from: int, g: int)
    requires 1 <= from && Tiles(sections, from, |lines|) && forall k :: 0 <= k < |lines| ==> |lines[k]| > 0
    requires 0 <= g < |sections|
    ensures sections[g].startLine <= sections[g].endLine && |SectionText(lines, sections[g])| > 0
    decreases g
  {
    TilesEnd(sections[1..], sections[0].endLine + 1, |lines|);
    if g == 0 {
      var s := sections[0];
      NonEmptyRun(lines[s.startLine - 1..s.endLine]);
    } else {
      TiledSectionNonEmpty(lines, sections[1..], sections[0].endLine + 1, g - 1);
    }
  }

  // ------------------------------------------------------------ _extract_headings and _chunk_by_headings

  /** The length of the run of characters satisfying `p` that starts at `i`. */
  function Run(s: string, i: nat, p: char -> bool): (r: nat)
    requires i <= |s|
    ensures i + r <= |s|
    ensures forall k :: i <= k < i + r ==> p(s[k])
    ensures i + r < |s| ==> !p(s[i + r])
    decreases |s| - i
  {
    if i < |s| && p(s[i]) then 1 + Run(s, i + 1, p) else 0
  }

  /** `s.rstrip("\n")` */
  function RStripNewlines(s: string): string {
    if |s| > 0 && s[|s| - 1] == '\n' then RStripNewlines(s[..|s| - 1]) else s
  }

  /**
   * The title of a Markdown heading line, `^(#{1,6})\s+(.*)$`: one to six
   * `#` and whitespace; the rest after that whitespace, stripped, or
   * "heading" when nothing is left.
   */
  function MdTitle(line: string): (r: Option<string>)
    ensures r.Some? ==> |line| > 0 && line[0] == '#' && r.value != ""
  {
    var h := Run(line, 0, c => c == '#');
    if 1 <= h <= 6 && h < |line| && IsSpace(line[h]) then
      var t := Strip(LStrip(line[h..]));
      Some(if t == "" then "heading" else t)
    else None
  }

  /** `^[=\-]{3,}\s*$`: at least three `=` or `-`, then only whitespace. */
  predicate IsUnderline(u: string) {
    var r := Run(u, 0, c => c == '=' || c == '-');
    r >= 3 && AllSpace(u[r..])
  }

  /** A heading: its 1-based line number and its title. */
  datatype Heading = Heading(lineNo: int, title: string)

  /** The headings `_extract_headings` finds from line index `idx` on. */
  function HeadingsFrom(lines: seq<string>, idx: nat): seq<Heading>
    decreases |lines| - idx
  {
    if idx >= |lines| then []
    else
      var line := RStripNewlines(lines[idx]);
      match MdTitle(line)
      case Some(t) => [Heading(idx + 1, t)] + HeadingsFrom(lines, idx + 1)
      case None =>
        if idx + 1 < |lines| && IsUnderline(RStripNewlines(lines[idx + 1])) && Strip(line) != "" then
          [Heading(idx + 1, Strip(line))] + HeadingsFrom(lines, idx + 2)
        else HeadingsFrom(lines, idx + 1)
  }

  /** `_extract_headings(lines)`: Markdown headings, and setext titles underlined by the next line. */
  method ExtractHeadings(lines: seq<string>) returns (headings: seq<Heading>)
    ensures headings == HeadingsFrom(lines, 0)
  {
    headings := [];
    var idx := 0;
    while idx < |lines|
      invariant 0 <= idx <= |lines|
      invariant headings + HeadingsFrom(lines, idx) == HeadingsFrom(lines, 0)
      decreases |lines| - idx
    {
      var found, next := HeadingStep(lines, idx);
      headings, idx := headings + found, next;
    }
  }

  /** One round of the loop of `_extract_headings`: the heading at line index `idx`, if any, and where to go on. */
  method HeadingStep(lines: seq<string>, idx: nat) returns (found: seq<Heading>, next: nat)
    requires idx < |lines|
    ensures idx < next <= |lines| && |found| <= 1
    ensures HeadingsFrom(lines, idx) == found + HeadingsFrom(lines, next)
  {
    var line := RStripNewlines(lines[idx]);
    var md := MdTitle(line);
    if md.Some? {
      return [Heading(idx + 1, md.value)], idx + 1;
    }
    if idx + 1 < |lines| {
      var underline := RStripNewlines(lines[idx + 1]);
      if IsUnderline(underline) && Strip(line) != "" {
        return [Heading(idx + 1, Strip(line))], idx + 2;
      }
    }
    return [], idx + 1;
  }

  /** Line numbers in `lo + 1..n`, increasing, and titles that are not empty. */
  predicate Ascending(hs: seq<Heading>, lo: int, n: int) {
    && (forall k :: 0 <= k < |hs| ==> lo < hs[k].lineNo <= n && hs[k].title != "")
    && (forall k :: 0 <= k < |hs| - 1 ==> hs[k].lineNo < hs[k + 1].lineNo)
  }

  /** Line `h.lineNo` is a Markdown heading with that title, or a setext title over an underline. */
  ghost predicate IsHeadingLine(lines: seq<string>, h: Heading) {
    && 1 <= h.lineNo <= |lines|
    && var line := RStripNewlines(lines[h.lineNo - 1]);
       || MdTitle(line) == Some(h.title)
       || (&& MdTitle(line).None?
           && h.lineNo < |lines| && IsUnderline(RStripNewlines(lines[h.lineNo]))
           && Strip(line) != "" && h.title == Strip(line))
  }

  /** The headings come in line order, after line `idx`. */
  lemma {:induction false} HeadingsAscending(lines: seq<string>, idx: nat)
    ensures Ascending(HeadingsFrom(lines, idx), idx, |lines|)
    decreases |lines| - idx
  {
    if idx < |lines| {
      HeadingsAscending(lines, idx + 1);
      HeadingsFromShape(lines, idx);
      var hs := HeadingsFrom(lines, idx);
      if hs == HeadingsFrom(lines, idx + 1) {
        AscendingWeaken(hs, idx + 1, idx, |lines|);
      } else if hs[1..] == HeadingsFrom(lines, idx + 1) {
        AscendingFront(hs, idx, |lines|);
      } else {
        HeadingsAscending(lines, idx + 2);
        AscendingWeaken(hs[1..], idx + 2, idx + 1, |lines|);
        AscendingFront(hs, idx, |lines|);
      }
    }
  }

  /** Line `idx` gives no heading, a heading followed by the next line's, or a setext title and its underline. */
  lemma HeadingsFromShape(lines: seq<string>, idx: nat)
    requires idx < |lines|
    ensures var hs := HeadingsFrom(lines, idx);
            || hs == HeadingsFrom(lines, idx + 1)
            || (&& |hs| > 0 && hs[0].lineNo == idx + 1 && hs[0].title != ""
                && hs[1..] == HeadingsFrom(lines, idx + 1))
            || (&& idx + 2 <= |lines| && |hs| > 0 && hs[0].lineNo == idx + 1 && hs[0].title != ""
                && hs[1..] == HeadingsFrom(lines, idx + 2))
  {
  }

  lemma AscendingWeaken(hs: seq<Heading>, lo: int, lo': int, n: int)
    requires Ascending(hs, lo, n) && lo' <= lo
    ensures Ascending(hs, lo', n)
  {
  }

  lemma AscendingFront(hs: seq<Heading>, lo: int, n: int)
    requires |hs| > 0 && lo < hs[0].lineNo <= n && hs[0].title != "" && Ascending(hs[1..], hs[0].lineNo, n)
    ensures Ascending(hs, lo, n)
  {
    assert forall k :: 1 <= k < |hs| ==> hs[k] == hs[1..][k - 1];
  }

  /** Every heading found is a heading line. */
  lemma {:induction false} HeadingsSound(lines: seq<string>, idx: nat)
    ensures forall k :: 0 <= k < |HeadingsFrom(lines, idx)| ==> IsHeadingLine(lines, HeadingsFrom(lines, idx)[k])
    decreases |lines| - idx
  {
    if idx < |lines| {
      HeadingsSound(lines, idx + 1);
      if idx + 2 <= |lines| {
        HeadingsSound(lines, idx + 2);
      }
    }
  }

  /** No Markdown heading is missed: a setext underline, which is skipped, is never one. */
  lemma {:induction false} HeadingsComplete(lines: seq<string>, idx: nat, k: nat)
    requires idx <= k < |lines| && MdTitle(RStripNewlines(lines[k])).Some?
    ensures Heading(k + 1, MdTitle(RStripNewlines(lines[k])).value) in HeadingsFrom(lines, idx)
    decreases k - idx
  {
    var line := RStripNewlines(lines[idx]);
    if k > idx {
      if MdTitle(line).None? && idx + 1 < |lines| && IsUnderline(RStripNewlines(lines[idx + 1])) && Strip(line) != "" {
        UnderlineIsNoHeading(RStripNewlines(lines[idx + 1]));
        assert k != idx + 1;
        HeadingsComplete(lines, idx + 2, k);
      } else {
        HeadingsComplete(lines, idx + 1, k);
      }
    }
  }

  lemma UnderlineIsNoHeading(u: string)
    requires IsUnderline(u)
    ensures MdTitle(u).None?
  {
  }

  /** The sections under each heading, up to the next heading or the end. */
  function HeadingBody(hs: seq<Heading>, n: int): (r: seq<Section>)
    ensures |r| == |hs|
  {
    if hs == [] then []
    else
      var next := if |hs| > 1 then hs[1].lineNo else n + 1;
      [Section(hs[0].lineNo, next - 1, hs[0].title)] + HeadingBody(hs[1..], n)
  }

  /**
   * The sections `_chunk_by_headings` cuts `n` lines into: a preamble
   * before the first heading, then one per heading; "document" when
   * there is none.
   */
  function HeadingSections(hs: seq<Heading>, n: int): seq<Section> {
    if hs == [] then [Section(1, n, "document")]
    else (if hs[0].lineNo > 1 then [Section(1, hs[0].lineNo - 1, "preamble")] else []) + HeadingBody(hs, n)
  }

  lemma {:induction false} HeadingBodyTiles(hs: seq<Heading>, lo: int, n: int)
    requires hs != [] && Ascending(hs, lo, n)
    ensures Tiles(HeadingBody(hs, n), hs[0].lineNo, n)
    decreases |hs|
  {
    var body := HeadingBody(hs, n);
    assert body[1..] == HeadingBody(hs[1..], n);
    if |hs| > 1 {
      assert Ascending(hs[1..], lo, n) by {
        assert forall k :: 0 <= k < |hs| - 1 ==> hs[1..][k] == hs[k + 1];
      }
      HeadingBodyTiles(hs[1..], lo, n);
    }
  }

  /** Ascending headings cut lines `1..n` into sections that tile them. */
  lemma HeadingSectionsTile(hs: seq<Heading>, n: int)
    requires n >= 1 && Ascending(hs, 0, n)
    ensures Tiles(HeadingSections(hs, n), 1, n)
  {
    var sections := HeadingSections(hs, n);
    if hs == [] {
      assert sections[1..] == [];
    } else {
      HeadingBodyTiles(hs, 0, n);
      if hs[0].lineNo > 1 {
        assert sections[1..] == HeadingBody(hs, n);
      } else {
        assert sections == HeadingBody(hs, n);
      }
    }
  }

  /** A text with no lines is empty. */
  lemma NoLinesNoText(text: string)
    requires SplitLinesKeepEnds(text) == []
    ensures text == ""
  {
    SplitLinesKeepEndsConcat(text);
  }

  /**
   * `_chunk_by_headings(path, text, max_chars)`: the preamble and each
   * heading's section through `_split_oversize`. The chunks are bounded
   * and together are exactly the text.
   */
  method ChunkByHeadings(path: string, text: string, maxChars: int, sha1: Sha1Hex)
    returns (chunks: seq<Chunk>, sections: seq<Section>, ghost groups: seq<seq<Chunk>>)
    requires maxChars > 0
    ensures text != "" ==>
              sections == HeadingSections(HeadingsFrom(SplitLinesKeepEnds(text), 0), |SplitLinesKeepEnds(text)|)
    ensures Tiles(sections, 1, |SplitLinesKeepEnds(text)|)
    ensures chunks == Flatten(groups) && AllSplit(groups, sections, SplitLinesKeepEnds(text), maxChars)
    ensures Bounded(chunks, maxChars) && Concat(Texts(chunks)) == text
  {
    var lines := SplitLinesKeepEnds(text);
    SplitLinesKeepEndsConcat(text);
    if |lines| == 0 {
      chunks, sections, groups := [], [], [];
      return;
    }
    var headings := ExtractHeadings(lines);
    sections := HeadingSections(headings, |lines|);
    HeadingsAscending(lines, 0);
    HeadingSectionsTile(headings, |lines|);
    chunks, groups := SplitSections(path, lines, sections, maxChars, sha1);
    LinesNonEmpty(text);
    SectionsCoverText(lines, sections, groups, maxChars);
  }

  // ------------------------------------------------------------ _classify_log_line

  predicate IsAsciiAlnum(c: char) {
    ('a' <= c <= 'z') || ('A' <= c <= 'Z') || IsDigit(c)
  }

  /** A character of `\w`: a letter, a digit or `_`. */
  predicate IsWordChar(c: char) {
    IsAsciiAlnum(c) || c == '_'
  }

  /** `\d{2}:\d{2}:\d{2}` at index `i`. */
  predicate ClockAt(s: string, i: nat) {
    && i + 8 <= |s|
    && IsDigit(s[i]) && IsDigit(s[i + 1]) && s[i + 2] == ':'
    && IsDigit(s[i + 3]) && IsDigit(s[i + 4]) && s[i + 5] == ':'
    && IsDigit(s[i + 6]) && IsDigit(s[i + 7])
  }

  /** `\d{4}-\d{2}-\d{2}[ T]\d{2}:\d{2}:\d{2}` at the start. */
  predicate IsoStampStart(s: string) {
    && |s| >= 19
    && IsDigit(s[0]) && IsDigit(s[1]) && IsDigit(s[2]) && IsDigit(s[3]) && s[4] == '-'
    && IsDigit(s[5]) && IsDigit(s[6]) && s[7] == '-' && IsDigit(s[8]) && IsDigit(s[9])
    && (s[10] == ' ' || s[10] == 'T') && ClockAt(s, 11)
  }

  /** `word\b` at the start: the word, not followed by a word character. */
  predicate LevelAt(s: string, word: string) {
    IsPrefix(word, s) && (|s| == |word| || !IsWordChar(s[|word|]))
  }

  /** `(?:INFO|WARN|WARNING|ERROR|DEBUG|TRACE|FATAL)\b` at the start. */
  predicate LevelStart(s: string) {
    || LevelAt(s, "INFO") || LevelAt(s, "WARN") || LevelAt(s, "WARNING") || LevelAt(s, "ERROR")
    || LevelAt(s, "DEBUG") || LevelAt(s, "TRACE") || LevelAt(s, "FATAL")
  }

  /**
   * `[A-Z][a-z]{2}\s+\d{1,2}\s+\d{2}:\d{2}:\d{2}` at the start: whitespace
   * and digits never overlap, so each run is taken whole.
   */
  predicate SyslogStampStart(s: string) {
    && |s| >= 3 && 'A' <= s[0] <= 'Z' && 'a' <= s[1] <= 'z' && 'a' <= s[2] <= 'z'
    && var a := 3 + Run(s, 3, IsSpace);
       var d := Run(s, a, IsDigit);
       var b := a + d + Run(s, a + d, IsSpace);
       a > 3 && 1 <= d <= 2 && b > a + d && ClockAt(s, b)
  }

  /** `_LOG_LINE_RE.match(s)` */
  predicate LogLineStart(s: string) {
    IsoStampStart(s) || ClockAt(s, 0) || LevelStart(s) || SyslogStampStart(s)
  }

  /** A character of `[A-Za-z0-9_.-]`. */
  predicate IsPrefixChar(c: char) {
    IsAsciiAlnum(c) || c == '_' || c == '.' || c == '-'
  }

  /** `_PREFIX_RE.match(s)`: `^[A-Za-z0-9_.-]{2,}:\s` */
  predicate PrefixStart(s: string) {
    var r := Run(s, 0, IsPrefixChar);
    r >= 2 && r + 1 < |s| && s[r] == ':' && IsSpace(s[r + 1])
  }

  /** `_SYMBOL_CHARS` */
  const SymbolChars: set<char> :=
    {'[', ']', '{', '}', '(', ')', '=', ':', '+', '-', '_', '/', '\\', '|', '<', '>', '.', ',', '\'', '"'}

  /** The non-whitespace characters of `s`. */
  function NonSpaceCount(s: string): nat {
    if s == [] then 0 else NonSpaceCount(s[..|s| - 1]) + (if IsSpace(s[|s| - 1]) then 0 else 1)
  }

  /** The non-whitespace characters of `s` that are digits or in `_SYMBOL_CHARS`. */
  function SymbolCount(s: string): nat {
    if s == [] then 0
    else
      var c := s[|s| - 1];
      SymbolCount(s[..|s| - 1]) + (if !IsSpace(c) && (IsDigit(c) || c in SymbolChars) then 1 else 0)
  }

  /** Symbols are among the non-whitespace characters, so the ratio is at most one. */
  lemma {:induction false} SymbolsAmongNonSpace(s: string)
    ensures SymbolCount(s) <= NonSpaceCount(s)
    decreases |s|
  {
    if s != [] {
      SymbolsAmongNonSpace(s[..|s| - 1]);
    }
  }

  /** The counting loop of `_symbol_ratio(text)`. */
  method SymbolCounts(text: string) returns (symbols: nat, nonSpace: nat)
    ensures symbols == SymbolCount(text) && nonSpace == NonSpaceCount(text)
  {
    symbols, nonSpace := 0, 0;
    for i := 0 to |text|
      invariant symbols == SymbolCount(text[..i]) && nonSpace == NonSpaceCount(text[..i])
    {
      assert text[..i + 1][..i] == text[..i];
      var ch := text[i];
      if IsSpace(ch) {
        continue;
      }
      nonSpace := nonSpace + 1;
      if IsDigit(ch) || ch in SymbolChars {
        symbols := symbols + 1;
      }
    }
    assert text[..|text|] == text;
  }

  /** `_symbol_ratio(s) >= 0.35`, the ratio read as an exact fraction (0 when nothing but whitespace). */
  predicate SymbolHeavy(s: string) {
    NonSpaceCount(s) > 0 && 20 * SymbolCount(s) >= 7 * NonSpaceCount(s)
  }

  /**
   * `_looks_like_log_prefix(s)`: the part before the first `:` is 2 to 32
   * characters long and alphanumeric once `_` and `-` are dropped.
   */
  predicate LooksLikeLogPrefix(s: string) {
    match Find(s, ":")
    case None => false
    case Some(i) =>
      var head := s[..i];
      var bare := ReplaceAll(ReplaceAll(head, "_", ""), "-", "");
      2 <= |head| <= 32 && |bare| > 0 && forall k :: 0 <= k < |bare| ==> IsAsciiAlnum(bare[k])
  }

  /** What `_classify_log_line(line)` says: `None` for a blank line, else whether it looks like a log line. */
  function LogLineKind(line: string): Option<bool> {
    var s := Strip(line);
    if s == "" then None
    else
      Some(|| (IsPrefix("{", s) && IsSuffix("}", s))
           || LogLineStart(s) || PrefixStart(s) || SymbolHeavy(s) || LooksLikeLogPrefix(s))
  }

  /** `_classify_log_line(line)` */
  method ClassifyLogLine(line: string) returns (kind: Option<bool>)
    ensures kind == LogLineKind(line)
  {
    var stripped := Strip(line);
    if stripped == "" {
      return None;
    }
    if IsPrefix("{", stripped) && IsSuffix("}", stripped) {
      return Some(true);
    }
    if LogLineStart(stripped) || PrefixStart(stripped) {
      return Some(true);
    }
    var symbols, nonSpace := SymbolCounts(stripped);
    if nonSpace > 0 && 20 * symbols >= 7 * nonSpace {
      return Some(true);
    }
    if LooksLikeLogPrefix(stripped) {
      return Some(true);
    }
    return Some(false);
  }

  /** Only a line of nothing but whitespace is left unclassified. */
  lemma BlankLinesUnclassified(line: string)
    ensures LogLineKind(line).None? <==> AllSpace(line)
  {
    StripShape(line);
    var r := Strip(line);
    var a :| 0 <= a && a + |r| <= |line| && r == line[a..a + |r|] && AllSpace(line[..a]) && AllSpace(line[a + |r|..]);
    if r == "" {
      assert line == line[..a] + line[a..];
    } else {
      assert line[a] == r[0];
    }
  }

  /** Outer whitespace does not change the verdict. */
  lemma ClassifyIgnoresOuterSpace(line: string)
    ensures LogLineKind(Strip(line)) == LogLineKind(line)
  {
    StripShape(line);
    StripOfStripped(Strip(line));
  }

  // ------------------------------------------------------------ _chunk_by_log

  /** `_classify_log_line` of each line, in order. */
  function Classes(lines: seq<string>): (r: seq<Option<bool>>)
    ensures |r| == |lines|
  {
    if lines == [] then [] else Classes(lines[..|lines| - 1]) + [LogLineKind(lines[|lines| - 1])]
  }

  lemma {:induction false} ClassesAt(lines: seq<string>, j: nat)
    requires j < |lines|
    ensures Classes(lines)[j] == LogLineKind(lines[j])
    decreases |lines|
  {
    if j < |lines| - 1 {
      ClassesAt(lines[..|lines| - 1], j);
    }
  }

  /**
   * The kind `_chunk_by_log` gives line `j` (0-based) of lines classified
   * `cls`: its own class, or, for a blank line, the kind of the line
   * before it (false for a blank first line).
   */
  function EffKind(cls: seq<Option<bool>>, j: nat): bool
    requires j < |cls|
  {
    match cls[j]
    case Some(k) => k
    case None => if j == 0 then false else EffKind(cls, j - 1)
  }

  /** `_block_title(is_log)` */
  function BlockTitle(isLog: bool): (r: string)
    ensures (r == "log") == isLog
  {
    if isLog then "log" else "non-log"
  }

  /** Every line of `s` has kind `kind`. */
  predicate Uniform(cls: seq<Option<bool>>, s: Section, kind: bool) {
    forall j :: s.startLine - 1 <= j < s.endLine && 0 <= j < |cls| ==> EffKind(cls, j) == kind
  }

  /** The blocks are titled by the kind of their lines, and neighbours differ in kind. */
  predicate KindedBlocks(cls: seq<Option<bool>>, blocks: seq<Section>) {
    && (forall b :: 0 <= b < |blocks| ==>
          blocks[b].title == BlockTitle(blocks[b].title == "log") && Uniform(cls, blocks[b], blocks[b].title == "log"))
    && (forall b :: 0 < b < |blocks| ==> blocks[b - 1].title != blocks[b].title)
  }

  /**
   * The blocks `_chunk_by_log` finds in the first `m` lines: maximal runs
   * of lines of one kind, in order, covering every line once.
   */
  predicate LogRuns(lines: seq<string>, blocks: seq<Section>, m: int) {
    Tiles(blocks, 1, m) && KindedBlocks(Classes(lines), blocks)
  }

  /** The state of the block loop before line `i` (0-based). */
  predicate BlockInv(cls: seq<Option<bool>>, blocks: seq<Section>, i: nat, current: Option<bool>, bufStart: int) {
    && i <= |cls|
    && (i == 0 <==> current.None?)
    && (i == 0 ==> bufStart == 1 && blocks == [])
    && (i > 0 ==>
          && current == Some(EffKind(cls, i - 1))
          && 1 <= bufStart <= i
          && Uniform(cls, Section(bufStart, i, ""), current.value)
          && (blocks != [] ==> blocks[|blocks| - 1].title != BlockTitle(current.value)))
    && Tiles(blocks, 1, bufStart - 1)
    && KindedBlocks(cls, blocks)
  }

  /** Line `i` has the kind of the open block: the block grows. */
  lemma BlockExtend(cls: seq<Option<bool>>, blocks: seq<Section>, i: nat, current: Option<bool>, bufStart: int)
    requires i < |cls| && BlockInv(cls, blocks, i, current, bufStart)
    requires current.Some? && EffKind(cls, i) == current.value
    ensures BlockInv(cls, blocks, i + 1, current, bufStart)
  {
  }

  /** A block of one kind, unlike the last block, extends the kinded blocks. */
  lemma KindedAppend(cls: seq<Option<bool>>, blocks: seq<Section>, s: Section, kind: bool)
    requires KindedBlocks(cls, blocks) && s.title == BlockTitle(kind) && Uniform(cls, s, kind)
    requires blocks != [] ==> blocks[|blocks| - 1].title != s.title
    ensures KindedBlocks(cls, blocks + [s])
  {
    var all := blocks + [s];
    forall b | 0 <= b < |all|
      ensures all[b].title == BlockTitle(all[b].title == "log") && Uniform(cls, all[b], all[b].title == "log")
    {
      if b < |blocks| {
        assert all[b] == blocks[b];
      }
    }
    forall b | 0 < b < |all| ensures all[b - 1].title != all[b].title {
      if b < |blocks| {
        assert all[b - 1] == blocks[b - 1] && all[b] == blocks[b];
      }
    }
  }

  /** Line `i` changes kind: the open block is closed and a new one starts at it. */
  lemma BlockSwitch(cls: seq<Option<bool>>, blocks: seq<Section>, i: nat, current: Option<bool>, bufStart: int)
    requires i < |cls| && BlockInv(cls, blocks, i, current, bufStart)
    requires current.Some? && EffKind(cls, i) != current.value
    ensures BlockInv(cls, blocks + [Section(bufStart, i, BlockTitle(current.value))], i + 1,
                     Some(EffKind(cls, i)), i + 1)
  {
    var s := Section(bufStart, i, BlockTitle(current.value));
    TilesAppend(blocks, 1, bufStart - 1, s);
    KindedAppend(cls, blocks, s, current.value);
    assert Uniform(cls, Section(i + 1, i + 1, ""), EffKind(cls, i));
  }

  /** After the last line the open block is closed. */
  lemma BlockFinish(cls: seq<Option<bool>>, blocks: seq<Section>, current: Option<bool>, bufStart: int)
    requires BlockInv(cls, blocks, |cls|, current, bufStart) && current.Some?
    ensures var done := blocks + [Section(bufStart, |cls|, BlockTitle(current.value))];
            Tiles(done, 1, |cls|) && KindedBlocks(cls, done)
  {
    var s := Section(bufStart, |cls|, BlockTitle(current.value));
    TilesAppend(blocks, 1, bufStart - 1, s);
    KindedAppend(cls, blocks, s, current.value);
  }

  /**
   * The block loop of `_chunk_by_log` over `main_lines`: each line is
   * classified, a blank one taking the kind of the line before it, and a
   * block is closed whenever the kind changes.
   */
  method LogBlocks(mainLines: seq<string>) returns (blocks: seq<Section>)
    ensures LogRuns(mainLines, blocks, |mainLines|)
  {
    blocks := [];
    if |mainLines| == 0 {
      return;
    }
    ghost var cls := Classes(mainLines);
    var current: Option<bool> := None;
    var bufStart := 1;
    for i := 0 to |mainLines|
      invariant BlockInv(cls, blocks, i, current, bufStart)
    {
      var kind := ClassifyLineAt(mainLines, i);
      var isLog := if kind.Some? then kind.value else if current.Some? then current.value else false;
      assert isLog == EffKind(cls, i);
      if current.None? {
        current, bufStart := Some(isLog), i + 1;
      } else if isLog != current.value {
        BlockSwitch(cls, blocks, i, current, bufStart);
        blocks := blocks + [Section(bufStart, i, BlockTitle(current.value))];
        current, bufStart := Some(isLog), i + 1;
      } else {
        BlockExtend(cls, blocks, i, current, bufStart);
      }
    }
    BlockFinish(cls, blocks, current, bufStart);
    blocks := blocks + [Section(bufStart, |mainLines|, BlockTitle(current.value))];
  }

  /** `_classify_log_line` of line `i`, read as that line's class. */
  method ClassifyLineAt(lines: seq<string>, i: nat) returns (kind: Option<bool>)
    requires i < |lines|
    ensures kind == Classes(lines)[i]
  {
    kind := ClassifyLogLine(lines[i]);
    ClassesAt(lines, i);
  }

  /** How many of the blocks are log blocks. */
  function LogCount(blocks: seq<Section>): (r: nat)
    ensures r <= |blocks|
  {
    if blocks == [] then 0
    else LogCount(blocks[..|blocks| - 1]) + (if blocks[|blocks| - 1].title == "log" then 1 else 0)
  }

  /** The title `_chunk_by_log` gives the `number`-th log or non-log block. */
  function BlockName(isLog: bool, number: int): string {
    (if isLog then "log block " else "non-log block ") + IntToString(number)
  }

  /** The number of block `k` among the blocks of its kind, counted by the running indexes. */
  function BlockNumber(blocks: seq<Section>, k: nat): int
    requires k < |blocks|
  {
    var logs := LogCount(blocks[..k + 1]);
    if blocks[k].title == "log" then logs else k + 1 - logs
  }

  /** The blocks with their numbered titles, in the order `_chunk_by_log` splits them. */
  function Numbered(blocks: seq<Section>): (r: seq<Section>)
    ensures |r| == |blocks|
    ensures forall k :: 0 <= k < |blocks| ==>
              && r[k].startLine == blocks[k].startLine && r[k].endLine == blocks[k].endLine
              && r[k].title == BlockName(blocks[k].title == "log", BlockNumber(blocks, k))
  {
    seq(|blocks|, k requires 0 <= k < |blocks| =>
      Section(blocks[k].startLine, blocks[k].endLine, BlockName(blocks[k].title == "log", BlockNumber(blocks, k))))
  }

  /**
   * The `k`-th log block is named "log block k" and the `k`-th non-log
   * block "non-log block k": block `b`'s number is one more than the
   * blocks of its kind before it.
   */
  lemma BlockNumbers(blocks: seq<Section>, b: nat)
    requires b < |blocks|
    ensures var before := LogCount(blocks[..b]);
            Numbered(blocks)[b].title
            == BlockName(blocks[b].title == "log", if blocks[b].title == "log" then before + 1 else b - before + 1)
  {
    LogCountStep(blocks, b);
  }

  lemma LogCountStep(blocks: seq<Section>, b: nat)
    requires b < |blocks|
    ensures blocks[..b + 1] != [] && blocks[..b + 1][b] == blocks[b]
    ensures LogCount(blocks[..b + 1]) == LogCount(blocks[..b]) + (if blocks[b].title == "log" then 1 else 0)
  {
    assert blocks[..b + 1][..b] == blocks[..b];
  }

  /** Sections with the same line ranges tile the same lines. */
  lemma {:induction false} TilesSameLines(a: seq<Section>, b: seq<Section>, from: int, n: int)
    requires |a| == |b| && Tiles(a, from, n)
    requires forall k :: 0 <= k < |a| ==> a[k].startLine == b[k].startLine && a[k].endLine == b[k].endLine
    ensures Tiles(b, from, n)
    decreases |a|
  {
    if a != [] {
      TilesSameLines(a[1..], b[1..], a[0].endLine + 1, n);
    }
  }

  /** The lines `_chunk_by_log` keeps for its tail section: the last `min(200, n)`. */
  function TailStart(n: int): int {
    n - (if n < 200 then n else 200) + 1
  }

  /**
   * `_chunk_by_log(path, text, max_chars)`: the lines before the last
   * `min(200, n)` are cut into numbered log and non-log blocks, the last
   * lines form the "tail" section, and each section goes through
   * `_split_oversize`. The chunks are bounded and together are exactly
   * the text.
   */
  method ChunkByLog(path: string, text: string, maxChars: int, sha1: Sha1Hex)
    returns (chunks: seq<Chunk>, blocks: seq<Section>, sections: seq<Section>, ghost groups: seq<seq<Chunk>>)
    requires maxChars > 0
    ensures var lines := SplitLinesKeepEnds(text);
            lines != [] ==>
              && LogRuns(lines[..TailStart(|lines|) - 1], blocks, TailStart(|lines|) - 1)
              && sections == Numbered(blocks) + [Section(TailStart(|lines|), |lines|, "tail")]
    ensures Tiles(sections, 1, |SplitLinesKeepEnds(text)|)
    ensures chunks == Flatten(groups) && AllSplit(groups, sections, SplitLinesKeepEnds(text), maxChars)
    ensures Bounded(chunks, maxChars) && Concat(Texts(chunks)) == text
  {
    var lines := SplitLinesKeepEnds(text);
    SplitLinesKeepEndsConcat(text);
    if |lines| == 0 {
      chunks, blocks, sections, groups := [], [], [], [];
      return;
    }
    LinesNonEmpty(text);
    var tailCount := if |lines| < 200 then |lines| else 200;
    var tailStart := |lines| - tailCount + 1;
    var mainLines := lines[..tailStart - 1];
    blocks := [];
    if |mainLines| > 0 {
      blocks := LogBlocks(mainLines);
    }
    sections := Numbered(blocks);
    TilesSameLines(blocks, sections, 1, tailStart - 1);
    var tailText := Concat(lines[tailStart - 1..]);
    NonEmptyRun(lines[tailStart - 1..]);
    if tailText != "" {
      var tail := Section(tailStart, |lines|, "tail");
      TilesAppend(sections, 1, tailStart - 1, tail);
      sections := sections + [tail];
    }
    chunks, groups := SplitSections(path, lines, sections, maxChars, sha1);
    SectionsCoverText(lines, sections, groups, maxChars);
  }

  // ------------------------------------------------------------ _chunk_by_python_ast

  /** Every section lies within lines `1..n` and does not end before it starts. */
  predicate InFile(sections: seq<Section>, n: int) {
    forall k :: 0 <= k < |sections| ==> 1 <= sections[k].startLine <= sections[k].endLine <= n
  }

  /** Chunks that split sections of non-empty lines lying within the file are all bounded. */
  lemma InFileBounded(groups: seq<seq<Chunk>>, sections: seq<Section>, lines: seq<string>, maxChars: int)
    requires AllSplit(groups, sections, lines, maxChars) && InFile(sections, |lines|)
    requires forall k :: 0 <= k < |lines| ==> |lines[k]| > 0
    ensures Bounded(Flatten(groups), maxChars)
  {
    AllSplitAt(groups, sections, lines, maxChars);
    forall g | 0 <= g < |groups| ensures Bounded(groups[g], maxChars) {
      var s := sections[g];
      InRangeSectionText(lines, s);
      NonEmptyRun(lines[s.startLine - 1..s.endLine]);
    }
    FlattenBounded(groups, maxChars);
  }

  /**
   * The sections `_chunk_by_python_ast` splits, given the line ranges and
   * titles of the module's top-level functions and classes: the lines
   * before the first one as "module", then each definition.
   */
  function AstSections(defs: seq<Section>): (r: seq<Section>)
    requires defs != []
    ensures r == defs || r == [Section(1, defs[0].startLine - 1, "module")] + defs
  {
    if defs[0].startLine > 1 then [Section(1, defs[0].startLine - 1, "module")] + defs else defs
  }

  /**
   * `_chunk_by_python_ast(path, text, max_chars)`. Python's parser is the
   * parameter `defs`: `None` when the text does not parse (or a definition
   * has no line numbers), else the top-level `def`, `async def` and
   * `class` nodes in order, as sections titled by `_title_for_node`.
   * Unparsable text is chunked as fixed runs without overlap; a module
   * without definitions is split whole; otherwise the preamble and each
   * definition are split. The chunks are bounded whenever the
   * definitions lie within the file, as the parser's nodes do.
   */
  method ChunkByPythonAst(path: string, text: string, maxChars: int, defs: Option<seq<Section>>, sha1: Sha1Hex)
    returns (chunks: seq<Chunk>, ghost groups: seq<seq<Chunk>>)
    requires maxChars > 0
    ensures defs.None? ==> AllTitled(chunks, "chunk") && Bounded(chunks, maxChars) && Concat(Texts(chunks)) == text
    ensures defs == Some([]) ==> SplitOf(chunks, "module", text, maxChars)
    ensures defs.Some? && defs.value != [] ==>
              && (InFile(defs.value, |SplitLinesKeepEnds(text)|) ==> Bounded(chunks, maxChars))
              && chunks == Flatten(groups)
              && AllSplit(groups, AstSections(defs.value), SplitLinesKeepEnds(text), maxChars)
              && Concat(Texts(chunks)) == Concat(SectionTexts(SplitLinesKeepEnds(text), AstSections(defs.value)))
  {
    groups := [];
    if defs.None? {
      chunks := ChunkFixed(path, text, maxChars, 0, sha1);
      return;
    }
    var lines := SplitLinesKeepEnds(text);
    var nodes := defs.value;
    if nodes == [] {
      chunks := SplitOversize(path, "module", 1, |lines|, text, maxChars, sha1);
      return;
    }
    var sections := AstSections(nodes);
    chunks, groups := SplitSections(path, lines, sections, maxChars, sha1);
    if InFile(nodes, |lines|) {
      assert InFile(sections, |lines|);
      LinesNonEmpty(text);
      InFileBounded(groups, sections, lines, maxChars);
    }
  }

  // ------------------------------------------------------------ chunk_file

  /** The chunks with `strategy` stamped on each, in order. */
  function Stamped(chunks: seq<Chunk>, strategy: string): (r: seq<Chunk>)
    ensures |r| == |chunks|
    ensures forall k :: 0 <= k < |chunks| ==> r[k] == chunks[k].(strategy := strategy)
  {
    seq(|chunks|, k requires 0 <= k < |chunks| => chunks[k].(strategy := strategy))
  }

  /** Stamping changes neither the texts nor their lengths. */
  lemma StampKeepsTexts(chunks: seq<Chunk>, strategy: string, maxChars: int)
    ensures Texts(Stamped(chunks, strategy)) == Texts(chunks)
    ensures Bounded(Stamped(chunks, strategy), maxChars) == Bounded(chunks, maxChars)
  {
    assert forall k :: 0 <= k < |chunks| ==> Stamped(chunks, strategy)[k].text == chunks[k].text;
  }

  /** The loop of `chunk_file` that sets each chunk's strategy. */
  method StampStrategy(chunks: seq<Chunk>, strategy: string) returns (stamped: seq<Chunk>)
    ensures stamped == Stamped(chunks, strategy)
  {
    stamped := [];
    for i := 0 to |chunks|
      invariant stamped == Stamped(chunks[..i], strategy)
    {
      stamped := stamped + [chunks[i].(strategy := strategy)];
    }
    assert chunks[..|chunks|] == chunks;
  }

  /** Every chunk carries `strategy`. */
  predicate AllStamped(chunks: seq<Chunk>, strategy: string) {
    forall k :: 0 <= k < |chunks| ==> chunks[k].strategy == strategy
  }

  /**
   * `chunk_file(path, text, strategy, max_chars, overlap_chars)`. Python's
   * parser is `pythonDefs`, applied to the normalised text. A
   * non-positive `max_chars` and an unknown strategy are errors; empty
   * text has no chunks; otherwise every chunk carries the resolved
   * strategy, and for every strategy but overlapping fixed runs the
   * chunks are bounded and together are the normalised text (for Python
   * source that parses, the definitions and what precedes them).
   */
  method ChunkFile(path: string, text: string, strategy: string, maxChars: int, overlapChars: int,
                   pythonDefs: string -> Option<seq<Section>>, sha1: Sha1Hex)
    returns (r: Result<seq<Chunk>>)
    ensures maxChars <= 0 <==> r == Err("max_chars must be positive")
    ensures maxChars > 0 && NormalizeNewlines(text) == "" ==> r == Ok([])
    ensures var resolved := ResolveStrategy(path, strategy);
            maxChars > 0 && NormalizeNewlines(text) != "" ==>
              (r.Err? <==> resolved !in {"headings", "python_ast", "log", "fixed"})
    ensures r.Err? && maxChars > 0 ==> r.msg == "Unknown chunking strategy '" + strategy + "'"
    ensures r.Ok? ==> AllStamped(r.value, ResolveStrategy(path, strategy))
    ensures var resolved := ResolveStrategy(path, strategy);
            r.Ok? && resolved != "python_ast" && (resolved != "fixed" || overlapChars <= 0) ==>
              Bounded(r.value, maxChars) && Concat(Texts(r.value)) == NormalizeNewlines(text)
    ensures var normalized := NormalizeNewlines(text);
            r.Ok? && ResolveStrategy(path, strategy) == "python_ast" ==>
              && (pythonDefs(normalized).None? || pythonDefs(normalized) == Some([]) ==>
                    Bounded(r.value, maxChars) && Concat(Texts(r.value)) == normalized)
              && (pythonDefs(normalized).Some? && InFile(pythonDefs(normalized).value, |SplitLinesKeepEnds(normalized)|) ==>
                    Bounded(r.value, maxChars))
  {
    if maxChars <= 0 {
      return Err("max_chars must be positive");
    }
    var normalized := NormalizeNewlines(text);
    if normalized == "" {
      return Ok([]);
    }
    var resolved := ResolveStrategy(path, strategy);
    var chunks: seq<Chunk>;
    ghost var groups: seq<seq<Chunk>>;
    if resolved == "headings" {
      var sections;
      chunks, sections, groups := ChunkByHeadings(path, normalized, maxChars, sha1);
    } else if resolved == "python_ast" {
      chunks, groups := ChunkByPythonAst(path, normalized, maxChars, pythonDefs(normalized), sha1);
    } else if resolved == "log" {
      var blocks, sections;
      chunks, blocks, sections, groups := ChunkByLog(path, normalized, maxChars, sha1);
    } else if resolved == "fixed" {
      chunks := ChunkFixed(path, normalized, maxChars, overlapChars, sha1);
    } else {
      return Err("Unknown chunking strategy '" + strategy + "'");
    }
    var stamped := StampStrategy(chunks, resolved);
    StampKeepsTexts(chunks, resolved, maxChars);
    return Ok(stamped);
  }
}
