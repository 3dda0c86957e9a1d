/**
 * The text block that presents memory-retrieval hits to the model: a
 * framed list of numbered entries, each with a one-line preview of the
 * record's text. The `{score:.3f}` rendering of a score is the
 * parameter `scoreText`.
 */
module Retrieval {
  import opened Strings

  const Header: string := "=== RETRIEVAL ==="
  const Footer: string := "=== END RETRIEVAL ==="
  const NoMatches: string := "(no matches)"
  const PreviewLimit: int := 160

  /** A `(MemoryRecord, score)` pair: the record's id and text, and the similarity score. */
  datatype Hit = Hit(id: string, text: string, score: real)

  // ------------------------------------------------------------ _truncate_preview

  /** `" ".join(text.split())` */
  function Collapse(text: string): string {
    Join(SplitWhitespace(text), " ")
  }

  /** Words: non-empty, with no whitespace. */
  predicate Words(words: seq<string>) {
    forall k :: 0 <= k < |words| ==> |words[k]| > 0 && forall j :: 0 <= j < |words[k]| ==> !IsSpace(words[k][j])
  }

  /**
   * No whitespace at either end, and every whitespace character is a
   * single space between two other characters.
   */
  predicate SingleSpaced(s: string) {
    forall k :: 0 <= k < |s| && IsSpace(s[k]) ==>
      s[k] == ' ' && 0 < k < |s| - 1 && !IsSpace(s[k - 1]) && !IsSpace(s[k + 1])
  }

  lemma {:induction false} SplitGivesWords(text: string)
    ensures Words(SplitWhitespace(text))
    decreases |text|
  {
    LStripShape(text);
    var t := LStrip(text);
    if t != [] {
      var n := WordLength(t);
      SplitGivesWords(t[n..]);
      var words := SplitWhitespace(text);
      assert words == [t[..n]] + SplitWhitespace(t[n..]);
      forall k | 0 <= k < |words| ensures |words[k]| > 0 && forall j :: 0 <= j < |words[k]| ==> !IsSpace(words[k][j]) {
        if k > 0 {
          assert words[k] == SplitWhitespace(t[n..])[k - 1];
        }
      }
    }
  }

  lemma WordsTail(words: seq<string>)
    requires Words(words) && |words| > 0
    ensures Words(words[1..])
  {
    var rest := words[1..];
    forall k | 0 <= k < |rest| ensures |rest[k]| > 0 && forall j :: 0 <= j < |rest[k]| ==> !IsSpace(rest[k][j]) {
      assert rest[k] == words[k + 1];
    }
  }

  /** Two or more words: the first, a space, and the rest joined. */
  lemma JoinFirst(words: seq<string>, sep: string)
    requires |words| >= 2
    ensures Join(words, sep) == words[0] + (sep + Join(words[1..], sep))
  {
  }

  /** A word, a space and single-spaced text that starts with a word are single-spaced. */
  lemma WordThenSpaced(w: string, tail: string)
    requires |w| > 0 && (forall j :: 0 <= j < |w| ==> !IsSpace(w[j]))
    requires SingleSpaced(tail) && |tail| > 0
    ensures SingleSpaced(w + (" " + tail))
  {
    var s := w + (" " + tail);
    assert !IsSpace(tail[0]) && !IsSpace(tail[|tail| - 1]);
    forall k | 0 <= k < |s|
      ensures IsSpace(s[k]) ==> s[k] == ' ' && 0 < k < |s| - 1 && !IsSpace(s[k - 1]) && !IsSpace(s[k + 1])
    {
      if k < |w| {
        assert s[k] == w[k];
      } else if k == |w| {
        assert s[k - 1] == w[|w| - 1] && s[k + 1] == tail[0];
      } else {
        var t := k - |w| - 1;
        assert s[k] == tail[t];
        if IsSpace(tail[t]) {
          assert s[k - 1] == tail[t - 1] && s[k + 1] == tail[t + 1];
        }
      }
    }
  }

  /** Words joined by single spaces are single-spaced. */
  lemma {:induction false} JoinedWordsSingleSpaced(words: seq<string>)
    requires Words(words)
    ensures SingleSpaced(Join(words, " "))
    ensures |words| > 0 ==> |Join(words, " ")| > 0 && Join(words, " ")[0] == words[0][0]
    decreases |words|
  {
    if |words| > 1 {
      WordsTail(words);
      JoinedWordsSingleSpaced(words[1..]);
      JoinFirst(words, " ");
      WordThenSpaced(words[0], Join(words[1..], " "));
    }
  }

  /** `text.split()` depends only on the text after its leading whitespace. */
  lemma SplitAfterLeadingSpace(a: string, b: string)
    requires LStrip(a) == LStrip(b)
    ensures SplitWhitespace(a) == SplitWhitespace(b)
  {
  }

  /** A word followed by whitespace: the word is the first run. */
  lemma {:induction false} WordLengthOfWord(w: string, rest: string)
    requires forall j :: 0 <= j < |w| ==> !IsSpace(w[j])
    requires |rest| == 0 || IsSpace(rest[0])
    ensures WordLength(w + rest) == |w|
    decreases |w|
  {
    if |w| > 0 {
      assert (w + rest)[1..] == w[1..] + rest;
      WordLengthOfWord(w[1..], rest);
    } else {
      assert w + rest == rest;
    }
  }

  /** The first word of a word followed by nothing or whitespace is that word. */
  lemma SplitWordThen(w: string, tail: string)
    requires |w| > 0 && (forall j :: 0 <= j < |w| ==> !IsSpace(w[j]))
    requires |tail| == 0 || IsSpace(tail[0])
    ensures SplitWhitespace(w + tail) == [w] + SplitWhitespace(tail)
  {
    var s := w + tail;
    assert s[0] == w[0];
    assert LStrip(s) == s;
    WordLengthOfWord(w, tail);
    assert s[..|w|] == w && s[|w|..] == tail;
  }

  /** Splitting words joined by single spaces gives the words back. */
  lemma {:induction false} SplitJoinedWords(words: seq<string>)
    requires Words(words)
    ensures SplitWhitespace(Join(words, " ")) == words
    decreases |words|
  {
    var none := "";
    assert SplitWhitespace(none) == [];
    if |words| == 1 {
      SplitWordThen(words[0], none);
      assert words[0] + none == words[0];
    } else if |words| > 1 {
      var joined := Join(words[1..], " ");
      WordsTail(words);
      JoinFirst(words, " ");
      JoinedWordsSingleSpaced(words[1..]);
      SplitWordThen(words[0], " " + joined);
      assert (" " + joined)[1..] == joined;
      assert LStrip(joined) == joined by {
        assert !IsSpace(joined[0]);
      }
      SplitAfterLeadingSpace(" " + joined, joined);
      SplitJoinedWords(words[1..]);
      assert words == [words[0]] + words[1..];
    }
  }

  /** Collapsing leaves single-spaced text, and collapsing twice changes nothing. */
  lemma CollapseSingleSpaced(text: string)
    ensures SingleSpaced(Collapse(text))
    ensures Collapse(Collapse(text)) == Collapse(text)
  {
    SplitGivesWords(text);
    JoinedWordsSingleSpaced(SplitWhitespace(text));
    SplitJoinedWords(SplitWhitespace(text));
  }

  /**
   * `_truncate_preview(text, limit)`: the collapsed text when it fits,
   * otherwise its first `limit - 3` characters (a Python slice bound)
   * followed by "...".
   */
  function TruncatePreview(text: string, limit: int): string {
    var flattened := Collapse(text);
    if |flattened| <= limit then flattened
    else flattened[..SliceBound(limit - 3, |flattened|)] + "..."
  }

  /**
   * A collapsed text that fits is the preview; one that does not is cut
   * to exactly `limit` characters, the last three being "...".
   */
  lemma PreviewBounds(text: string, limit: int)
    ensures |Collapse(text)| <= limit ==> TruncatePreview(text, limit) == Collapse(text)
    ensures |Collapse(text)| > limit >= 3 ==>
              var r := TruncatePreview(text, limit);
              |r| == limit && r[..limit - 3] == Collapse(text)[..limit - 3] && r[limit - 3..] == "..."
    ensures limit >= 3 ==> |TruncatePreview(text, limit)| <= limit
  {
  }

  /** A preview that was not cut is single-spaced and is its own preview. */
  lemma PreviewOfPreview(text: string, limit: int)
    requires |Collapse(text)| <= limit
    ensures SingleSpaced(TruncatePreview(text, limit))
    ensures TruncatePreview(TruncatePreview(text, limit), limit) == TruncatePreview(text, limit)
  {
    CollapseSingleSpaced(text);
  }

  // ------------------------------------------------------------ format_retrieval_block

  /** The entry line for the `count`-th hit. */
  function EntryLine(count: int, hit: Hit, scoreText: real -> string): string {
    "[" + IntToString(count) + "] score=" + scoreText(hit.score) + " id=" + hit.id + " text="
    + TruncatePreview(hit.text, PreviewLimit)
  }

  /** One entry line per hit, numbered from 1 in input order. */
  function EntryLines(results: seq<Hit>, scoreText: real -> string): (r: seq<string>)
    ensures |r| == |results|
  {
    if results == [] then []
    else EntryLines(results[..|results| - 1], scoreText) + [EntryLine(|results|, results[|results| - 1], scoreText)]
  }

  lemma {:induction false} EntryLinesAt(results: seq<Hit>, scoreText: real -> string, k: nat)
    requires k < |results|
    ensures EntryLines(results, scoreText)[k] == EntryLine(k + 1, results[k], scoreText)
    decreases |results|
  {
    if k < |results| - 1 {
      EntryLinesAt(results[..|results| - 1], scoreText, k);
    }
  }

  lemma EntryLinesSnoc(results: seq<Hit>, scoreText: real -> string, i: nat)
    requires i < |results|
    ensures EntryLines(results[..i + 1], scoreText)
         == EntryLines(results[..i], scoreText) + [EntryLine(i + 1, results[i], scoreText)]
  {
    assert results[..i + 1][..i] == results[..i];
  }

  /** The lines of the block: header, entries or "(no matches)", footer. */
  function BlockLines(results: seq<Hit>, scoreText: real -> string): seq<string> {
    [Header] + EntryLines(results, scoreText) + (if |results| == 0 then [NoMatches] else []) + [Footer]
  }

  /** `format_retrieval_block(results)` */
  method FormatRetrievalBlock(results: seq<Hit>, scoreText: real -> string) returns (block: string)
    ensures block == Join(BlockLines(results, scoreText), "\n")
  {
    var lines := [Header];
    var count := 0;
    for i := 0 to |results|
      invariant count == i && lines == [Header] + EntryLines(results[..i], scoreText)
    {
      count := count + 1;
      lines := lines + [EntryLine(count, results[i], scoreText)];
      EntryLinesSnoc(results, scoreText, i);
    }
    assert results[..|results|] == results;
    ghost var entries := lines;
    if count == 0 {
      lines := lines + [NoMatches];
    }
    assert lines == entries + (if |results| == 0 then [NoMatches] else []);
    lines := lines + [Footer];
    assert lines == BlockLines(results, scoreText);
    block := Join(lines, "\n");
  }

  /** Joining a first line, some middle lines and a last line. */
  lemma JoinFramed(first: string, middle: seq<string>, last: string, sep: string)
    ensures Join([first] + middle + [last], sep) == first + sep + Join(middle + [last], sep)
    ensures Join([first] + middle + [last], sep) == Join([first] + middle, sep) + sep + last
  {
    assert ([first] + middle + [last])[1..] == middle + [last];
    JoinAppend([first] + middle, last, sep);
  }

  lemma Affixes(a: string, b: string)
    ensures IsPrefix(a, a + b) && IsSuffix(b, a + b)
  {
    assert (a + b)[..|a|] == a && (a + b)[|a + b| - |b|..] == b;
  }

  /**
   * The block opens with the header line and closes with the footer
   * line; between them are the numbered entries in order, or the single
   * line "(no matches)".
   */
  lemma BlockFraming(results: seq<Hit>, scoreText: real -> string)
    ensures var block := Join(BlockLines(results, scoreText), "\n");
            IsPrefix(Header + "\n", block) && IsSuffix("\n" + Footer, block)
    ensures var lines := BlockLines(results, scoreText);
            && |lines| == |results| + (if |results| == 0 then 3 else 2)
            && (forall k :: 0 <= k < |results| ==> lines[k + 1] == EntryLine(k + 1, results[k], scoreText))
    ensures results == [] ==> Join(BlockLines(results, scoreText), "\n") == Header + "\n" + NoMatches + "\n" + Footer
  {
    var middle := EntryLines(results, scoreText) + (if |results| == 0 then [NoMatches] else []);
    var lines := BlockLines(results, scoreText);
    assert lines == [Header] + middle + [Footer];
    JoinFramed(Header, middle, Footer, "\n");
    Affixes(Header + "\n", Join(middle + [Footer], "\n"));
    Affixes(Join([Header] + middle, "\n"), "\n" + Footer);
    forall k | 0 <= k < |results| ensures lines[k + 1] == EntryLine(k + 1, results[k], scoreText) {
      EntryLinesAt(results, scoreText, k);
    }
    if results == [] {
      assert middle == [NoMatches];
      assert Join([NoMatches] + [Footer], "\n") == NoMatches + "\n" + Footer;
    }
  }
}
