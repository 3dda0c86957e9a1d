/**
 * `sanitize_visible_text`: the reasoning wrappers a model may emit are cut
 * out of its answer, while the notes and tool-call blocks, whose payloads may
 * legitimately mention the same tags, are shielded behind numbered
 * placeholders during the cut and put back afterwards.
 */
module Sanitize {
  import opened Wrappers
  import opened Strings
  import opened MarkerBlock
  import Notes
  import ToolCalls

  // ------------------------------------------------------------ shielding

  /**
   * The end of a match of the protected pattern at index `j`: a notes block
   * is tried first, then a tool-call block; each runs from its start marker
   * to the first end marker after it (the lazy `.*?`).
   */
  function ProtectedEnd(text: string, j: nat): (e: Option<nat>)
    ensures e.Some? ==> j < e.value <= |text|
  {
    var notes := if OccursAt(text, Notes.StartMarker, j)
                 then FindFrom(text, Notes.EndMarker, j + |Notes.StartMarker|) else None;
    if notes.Some? then Some(notes.value + |Notes.EndMarker|)
    else
      var tools := if OccursAt(text, ToolCalls.StartMarker, j)
                   then FindFrom(text, ToolCalls.EndMarker, j + |ToolCalls.StartMarker|) else None;
      if tools.Some? then Some(tools.value + |ToolCalls.EndMarker|) else None
  }

  /** The text before one protected block, and the block itself. */
  datatype Shield = Shield(before: string, block: string)

  /** The protected blocks in order, each with the text before it, and the text after the last. */
  datatype Shielding = Shielding(pairs: seq<Shield>, tail: string)

  /**
   * The `finditer` loop over the protected pattern: matches are searched
   * from index `j`, the current unprotected segment having begun at `from`.
   */
  function ShieldFrom(text: string, from: nat, j: nat): Shielding
    requires from <= j <= |text|
    decreases |text| - j
  {
    if j == |text| then Shielding([], text[from..])
    else
      match ProtectedEnd(text, j)
      case None => ShieldFrom(text, from, j + 1)
      case Some(e) =>
        var rest := ShieldFrom(text, e, e);
        Shielding([Shield(text[from..j], text[j..e])] + rest.pairs, rest.tail)
  }

  function ShieldAll(text: string): Shielding {
    ShieldFrom(text, 0, 0)
  }

  const PlaceholderHead: string := "<<<SPECTATOR_BLOCK_"

  /** `f"<<<SPECTATOR_BLOCK_{idx}>>>"` */
  function Placeholder(idx: nat): string {
    PlaceholderHead + NatToString(idx) + ">>>"
  }

  /** `"".join(segments)`: each block replaced by its placeholder, numbered from `idx`. */
  function Shielded(pairs: seq<Shield>, tail: string, idx: nat): string
    decreases |pairs|
  {
    if |pairs| == 0 then tail
    else pairs[0].before + Placeholder(idx) + Shielded(pairs[1..], tail, idx + 1)
  }

  /** The same pieces with every block in its place. */
  function Unshielded(pairs: seq<Shield>, tail: string): string
    decreases |pairs|
  {
    if |pairs| == 0 then tail
    else pairs[0].before + pairs[0].block + Unshielded(pairs[1..], tail)
  }

  /** The `placeholders` dictionary, in insertion order: entry `idx` is block `idx`. */
  function Blocks(pairs: seq<Shield>): (r: seq<string>)
    ensures |r| == |pairs| && forall k :: 0 <= k < |pairs| ==> r[k] == pairs[k].block
  {
    seq(|pairs|, k requires 0 <= k < |pairs| => pairs[k].block)
  }

  /** The restoring loop: from entry `k` on, each placeholder is replaced by its block. */
  function RestoreFrom(s: string, blocks: seq<string>, k: nat): string
    decreases |blocks| - k
  {
    if k >= |blocks| then s
    else RestoreFrom(ReplaceAll(s, Placeholder(k), blocks[k]), blocks, k + 1)
  }

  // ------------------------------------------------------------ reasoning wrappers

  const ThinkOpen: string := "<think>"
  const ThinkClose: string := "</think>"
  const ThoughtsOpen: string := "<<<THOUGHTS>>>"
  const ThoughtsClose: string := "<<<END_THOUGHTS>>>"
  const ReasoningOpen: string := "=== REASONING ==="
  const ReasoningClose: string := "=== END REASONING ==="

  /**
   * `re.sub(open + ".*?" + close, "", s, flags=re.DOTALL)`. The first match
   * starts at the first `open` (an earlier index holds no `open`) and runs to
   * the nearest `close` after it; the search resumes behind that `close`.
   * If the first `open` has no `close` after it, no later `open` has one
   * either, and the rest is kept as it is.
   */
  function RemovePairs(s: string, open: string, close: string): string
    requires |open| > 0
    decreases |s|
  {
    match Find(s, open)
    case None => s
    case Some(j) =>
      match FindFrom(s, close, j + |open|)
      case None => s
      case Some(e) => s[..j] + RemovePairs(s[e + |close|..], open, close)
  }

  /** `_strip_reasoning_wrappers`: the three wrapper kinds, in this fixed order. */
  function StripReasoningWrappers(s: string): string {
    var noThink := RemovePairs(s, ThinkOpen, ThinkClose);
    var noThoughts := RemovePairs(noThink, ThoughtsOpen, ThoughtsClose);
    RemovePairs(noThoughts, ReasoningOpen, ReasoningClose)
  }

  /** `sanitize_visible_text` */
  function SanitizeVisibleText(text: string): string {
    if |text| == 0 then text
    else
      var sh := ShieldAll(text);
      RestoreFrom(StripReasoningWrappers(Shielded(sh.pairs, sh.tail, 0)), Blocks(sh.pairs), 0)
  }

  // ------------------------------------------------------------ the scan covers the text

  lemma {:induction false} ShieldCovers(text: string, from: nat, j: nat)
    requires from <= j <= |text|
    ensures Unshielded(ShieldFrom(text, from, j).pairs, ShieldFrom(text, from, j).tail) == text[from..]
    decreases |text| - j
  {
    if j < |text| {
      match ProtectedEnd(text, j)
      case None => ShieldCovers(text, from, j + 1);
      case Some(e) =>
        ShieldCovers(text, e, e);
        var rest := ShieldFrom(text, e, e);
        var first := Shield(text[from..j], text[j..e]);
        assert ShieldFrom(text, from, j) == Shielding([first] + rest.pairs, rest.tail);
        UnshieldedCons(first, rest.pairs, rest.tail);
        SuffixSplit(text, from, j, e);
    }
  }

  lemma UnshieldedCons(first: Shield, pairs: seq<Shield>, tail: string)
    ensures Unshielded([first] + pairs, tail) == first.before + first.block + Unshielded(pairs, tail)
  {
    assert ([first] + pairs)[1..] == pairs;
  }

  lemma SuffixSplit(text: string, a: nat, b: nat, c: nat)
    requires a <= b <= c <= |text|
    ensures text[a..] == text[a..b] + text[b..c] + text[c..]
  {
  }

  /** Every unprotected piece lies in the text, so it lacks whatever the text lacks. */
  predicate PiecesFree(pairs: seq<Shield>, tail: string, pat: string) {
    && (forall k :: 0 <= k < |pairs| ==> !Contains(pairs[k].before, pat))
    && !Contains(tail, pat)
  }

  lemma {:induction false} ShieldPiecesFree(text: string, from: nat, j: nat, pat: string)
    requires from <= j <= |text| && !Contains(text, pat)
    ensures PiecesFree(ShieldFrom(text, from, j).pairs, ShieldFrom(text, from, j).tail, pat)
    decreases |text| - j
  {
    if j == |text| {
      SliceFree(text, pat, from, |text|);
      assert text[from..|text|] == text[from..];
    } else {
      match ProtectedEnd(text, j)
      case None => ShieldPiecesFree(text, from, j + 1, pat);
      case Some(e) =>
        ShieldPiecesFree(text, e, e, pat);
        SliceFree(text, pat, from, j);
        var rest := ShieldFrom(text, e, e);
        var r := ShieldFrom(text, from, j);
        assert r.pairs[0].before == text[from..j];
        assert forall k :: 1 <= k < |r.pairs| ==> r.pairs[k] == rest.pairs[k - 1];
    }
  }

  // ------------------------------------------------------------ placeholders

  lemma PlaceholderShape(idx: nat)
    ensures |Placeholder(idx)| > |PlaceholderHead| + 3
    ensures Placeholder(idx)[..|PlaceholderHead|] == PlaceholderHead
    ensures Placeholder(idx)[3] == 'S'
    ensures forall q :: 3 <= q < |Placeholder(idx)| ==> Placeholder(idx)[q] != '<' && Placeholder(idx)[q] != '='
    ensures MarkerLike(PlaceholderHead)
  {
    var p := Placeholder(idx);
    var d := NatToString(idx);
    forall q | |PlaceholderHead| <= q < |PlaceholderHead| + |d|
      ensures p[q] == d[q - |PlaceholderHead|]
    {
    }
  }

  /** An occurrence of a placeholder begins with an occurrence of the common head. */
  lemma HeadOfPlaceholder(t: string, idx: nat, j: int)
    requires OccursAt(t, Placeholder(idx), j)
    ensures OccursAt(t, PlaceholderHead, j)
  {
    PlaceholderShape(idx);
    OccursPrefix(t, Placeholder(idx), |PlaceholderHead|, j);
  }

  /** Two placeholders occurring at the same index carry the same number. */
  lemma PlaceholdersDiffer(t: string, p: nat, k: nat, c: nat)
    requires OccursAt(t, Placeholder(k), p) && OccursAt(t, Placeholder(c), p)
    ensures k == c
  {
    var h := |PlaceholderHead|;
    var dk, dc := NatToString(k), NatToString(c);
    var pk, pc := Placeholder(k), Placeholder(c);
    assert pk == PlaceholderHead + dk + ">>>" && pc == PlaceholderHead + dc + ">>>";
    forall i | 0 <= i < |dk| && i < |dc| ensures dk[i] == dc[i] {
      CharOfOccurrence(t, pk, p, p + h + i);
      CharOfOccurrence(t, pc, p, p + h + i);
      assert pk[h + i] == dk[i] && pc[h + i] == dc[i];
    }
    // Where the shorter number ends, one placeholder has a digit and the other a `>`.
    var n := if |dk| < |dc| then |dk| else |dc|;
    CharOfOccurrence(t, pk, p, p + h + n);
    CharOfOccurrence(t, pc, p, p + h + n);
    if |dk| == |dc| {
      assert dk == dc;
      DigitsValueOfNatToString(k);
      DigitsValueOfNatToString(c);
    }
  }

  /**
   * In `before + placeholder(c) + rest`, the head of a placeholder can only
   * occur where that placeholder starts or further right.
   */
  lemma HeadOnlyAtPlaceholder(t: string, before: string, c: nat, j: int)
    requires IsPrefix(before + Placeholder(c), t) && !Contains(before, PlaceholderHead)
    requires OccursAt(t, PlaceholderHead, j) && j < |before| + |Placeholder(c)|
    ensures j == |before|
  {
    var x := |before|;
    var ph := Placeholder(c);
    PlaceholderShape(c);
    assert t[x..x + |ph|] == ph by {
      assert t[..x + |ph|] == before + ph;
    }
    assert OccursAt(t, ph, x);
    HeadOfPlaceholder(t, c, x);
    OccursInFront(t, before, PlaceholderHead, j);
    if j < x {
      NoStraddle(t, PlaceholderHead, PlaceholderHead, x, j);
      assert false;
    } else if j > x {
      if j < x + |PlaceholderHead| {
        NoStraddle(t, PlaceholderHead, PlaceholderHead, j, x);
        assert false;
      } else {
        CharOfOccurrence(t, PlaceholderHead, j, j);
        CharOfOccurrence(t, ph, x, j);
        assert false;
      }
    }
  }

  /** A placeholder other than number `k` between two pieces cannot create placeholder `k`. */
  lemma NoPlaceholderAcross(before: string, c: nat, rest: string, k: nat)
    requires k != c && !Contains(before, PlaceholderHead) && !Contains(rest, Placeholder(k))
    ensures !Contains(before + Placeholder(c) + rest, Placeholder(k))
  {
    var ph := Placeholder(c);
    var w := before + ph + rest;
    forall j | 0 <= j <= |w| ensures !OccursAt(w, Placeholder(k), j) {
      if OccursAt(w, Placeholder(k), j) {
        HeadOfPlaceholder(w, k, j);
        if j < |before| + |ph| {
          assert IsPrefix(before + ph, w);
          HeadOnlyAtPlaceholder(w, before, c, j);
          OccursInRight(before, ph + rest, ph, j);
          OccursInLeft(ph, rest, ph, 0);
          OccursInSuffix(before, ph + rest, ph, 0);
          PlaceholdersDiffer(w, j, k, c);
        } else {
          OccursInRight(before + ph, rest, Placeholder(k), j);
        }
      }
    }
  }

  /** Placeholders numbered from `c` on never spell placeholder `k < c`. */
  lemma {:induction false} NoEarlierPlaceholder(pairs: seq<Shield>, tail: string, c: nat, k: nat)
    requires k < c && PiecesFree(pairs, tail, PlaceholderHead)
    ensures !Contains(Shielded(pairs, tail, c), Placeholder(k))
    decreases |pairs|
  {
    if |pairs| == 0 {
      forall j | 0 <= j <= |tail| ensures !OccursAt(tail, Placeholder(k), j) {
        if OccursAt(tail, Placeholder(k), j) {
          HeadOfPlaceholder(tail, k, j);
        }
      }
    } else {
      assert PiecesFree(pairs[1..], tail, PlaceholderHead) by {
        assert forall q :: 0 <= q < |pairs[1..]| ==> pairs[1..][q] == pairs[q + 1];
      }
      NoEarlierPlaceholder(pairs[1..], tail, c + 1, k);
      NoPlaceholderAcross(pairs[0].before, c, Shielded(pairs[1..], tail, c + 1), k);
    }
  }

  /** Replacing placeholder `k` touches exactly the one copy of it. */
  lemma ReplaceOnePlaceholder(a: string, k: nat, block: string, v: string)
    requires !Contains(a, PlaceholderHead) && !Contains(v, Placeholder(k))
    ensures ReplaceAll(a + Placeholder(k) + v, Placeholder(k), block) == a + block + v
  {
    var ph := Placeholder(k);
    var t := a + ph + v;
    assert t[|a|..|a| + |ph|] == ph;
    forall j | 0 <= j < |a| ensures !OccursAt(t, ph, j) {
      if OccursAt(t, ph, j) {
        HeadOfPlaceholder(t, k, j);
        assert IsPrefix(a + ph, t);
        HeadOnlyAtPlaceholder(t, a, k, j);
      }
    }
    FindFromIs(t, ph, 0, |a|);
    assert t[..|a|] == a && t[|a| + |ph|..] == v;
  }

  /** One round of the restoring loop puts back the first shielded block. */
  lemma RestoreStep(u: string, pairs: seq<Shield>, tail: string, b: nat)
    requires |pairs| > 0
    requires !Contains(u + Unshielded(pairs, tail), PlaceholderHead)
    requires PiecesFree(pairs, tail, PlaceholderHead)
    ensures ReplaceAll(u + Shielded(pairs, tail, b), Placeholder(b), pairs[0].block)
            == (u + pairs[0].before + pairs[0].block) + Shielded(pairs[1..], tail, b + 1)
  {
    var x := u + pairs[0].before;
    var rest := Shielded(pairs[1..], tail, b + 1);
    FreeBeforeFirst(u, pairs, tail);
    PiecesFreeRest(pairs, tail, PlaceholderHead);
    NoEarlierPlaceholder(pairs[1..], tail, b + 1, b);
    ReplaceOnePlaceholder(x, b, pairs[0].block, rest);
    ShieldedCons(pairs, tail, b);
    Regroup(u, pairs[0].before, Placeholder(b), rest);
  }

  lemma ShieldedCons(pairs: seq<Shield>, tail: string, b: nat)
    requires |pairs| > 0
    ensures Shielded(pairs, tail, b) == pairs[0].before + Placeholder(b) + Shielded(pairs[1..], tail, b + 1)
  {
  }

  lemma Regroup(u: string, p: string, q: string, r: string)
    ensures u + (p + q + r) == (u + p) + q + r
  {
  }

  lemma FreeBeforeFirst(u: string, pairs: seq<Shield>, tail: string)
    requires |pairs| > 0 && !Contains(u + Unshielded(pairs, tail), PlaceholderHead)
    ensures !Contains(u + pairs[0].before, PlaceholderHead)
  {
    var x := u + pairs[0].before;
    var y := pairs[0].block + Unshielded(pairs[1..], tail);
    assert u + Unshielded(pairs, tail) == x + y;
    PartsFree(x, y, PlaceholderHead);
  }

  lemma PiecesFreeRest(pairs: seq<Shield>, tail: string, pat: string)
    requires |pairs| > 0 && PiecesFree(pairs, tail, pat)
    ensures PiecesFree(pairs[1..], tail, pat)
  {
    assert forall q :: 0 <= q < |pairs[1..]| ==> pairs[1..][q] == pairs[q + 1];
  }

  /**
   * The restoring loop undoes the shielding, provided the text never spells
   * the head of a placeholder: `u` is the part already restored.
   */
  lemma {:induction false} RestoreShielded(u: string, pairs: seq<Shield>, tail: string, blocks: seq<string>, b: nat)
    requires b <= |blocks| && blocks[b..] == Blocks(pairs)
    requires !Contains(u + Unshielded(pairs, tail), PlaceholderHead)
    requires PiecesFree(pairs, tail, PlaceholderHead)
    ensures RestoreFrom(u + Shielded(pairs, tail, b), blocks, b) == u + Unshielded(pairs, tail)
    decreases |pairs|
  {
    if |pairs| > 0 {
      var u' := u + pairs[0].before + pairs[0].block;
      var s := u + Shielded(pairs, tail, b);
      var s' := u' + Shielded(pairs[1..], tail, b + 1);
      BlocksRest(pairs, blocks, b);
      RestoreStep(u, pairs, tail, b);
      assert RestoreFrom(s, blocks, b) == RestoreFrom(s', blocks, b + 1);
      RestoredPrefix(u, pairs, tail);
      FreeAfterRestore(u, pairs, tail);
      PiecesFreeRest(pairs, tail, PlaceholderHead);
      RestoreShielded(u', pairs[1..], tail, blocks, b + 1);
    }
  }

  lemma RestoredPrefix(u: string, pairs: seq<Shield>, tail: string)
    requires |pairs| > 0
    ensures (u + pairs[0].before + pairs[0].block) + Unshielded(pairs[1..], tail) == u + Unshielded(pairs, tail)
  {
    Regroup(u, pairs[0].before, pairs[0].block, Unshielded(pairs[1..], tail));
  }

  lemma FreeAfterRestore(u: string, pairs: seq<Shield>, tail: string)
    requires |pairs| > 0 && !Contains(u + Unshielded(pairs, tail), PlaceholderHead)
    ensures !Contains((u + pairs[0].before + pairs[0].block) + Unshielded(pairs[1..], tail), PlaceholderHead)
  {
    RestoredPrefix(u, pairs, tail);
  }

  lemma BlocksRest(pairs: seq<Shield>, blocks: seq<string>, b: nat)
    requires |pairs| > 0 && b <= |blocks| && blocks[b..] == Blocks(pairs)
    ensures b < |blocks| && blocks[b] == pairs[0].block && blocks[b + 1..] == Blocks(pairs[1..])
  {
    assert blocks[b..][0] == blocks[b];
    assert blocks[b + 1..] == blocks[b..][1..];
    assert Blocks(pairs)[1..] == Blocks(pairs[1..]);
  }

  // ------------------------------------------------------------ wrappers never meet a placeholder

  /**
   * The three openers cannot overlap a placeholder: a marker-like opener that
   * differs from the head at index 3, an opener whose only `<` is its first
   * character and whose second is not `S`, or an opener with no `<` that
   * starts with `=`.
   */
  predicate ShieldSafe(o: string) {
    || (MarkerLike(o) && o[3] != 'S')
    || (|o| >= 2 && o[0] == '<' && o[1] != 'S' && forall q :: 1 <= q < |o| ==> o[q] != '<')
    || (|o| >= 1 && o[0] == '=' && forall q :: 0 <= q < |o| ==> o[q] != '<')
  }

  lemma OpenersShieldSafe()
    ensures ShieldSafe(ThinkOpen) && ShieldSafe(ThoughtsOpen) && ShieldSafe(ReasoningOpen)
  {
  }

  lemma OpenerMissesPlaceholder(t: string, x: nat, c: nat, o: string, j: int)
    requires ShieldSafe(o) && OccursAt(t, Placeholder(c), x)
    requires j < x + |Placeholder(c)| && x < j + |o|
    ensures !OccursAt(t, o, j)
  {
    if OccursAt(t, o, j) {
      var ph := Placeholder(c);
      PlaceholderShape(c);
      HeadOfPlaceholder(t, c, x);
      CharOfOccurrence(t, ph, x, x);
      if j < x {
        CharOfOccurrence(t, o, j, x);
        if MarkerLike(o) && o[3] != 'S' {
          NoStraddle(t, o, PlaceholderHead, x, j);
        }
      } else {
        CharOfOccurrence(t, o, j, j);
        CharOfOccurrence(t, ph, x, j);
        if MarkerLike(o) && o[3] != 'S' {
          if j == x {
            CharOfOccurrence(t, o, j, x + 3);
            CharOfOccurrence(t, ph, x, x + 3);
          } else {
            NoStraddle(t, PlaceholderHead, o, j, x);
          }
        } else if o[0] == '<' {
          CharOfOccurrence(t, o, j, j + 1);
          CharOfOccurrence(t, ph, x, j + 1);
        }
      }
    }
  }

  /** An opener cannot appear around a placeholder set between two pieces that lack it. */
  lemma NoOpenerAcross(before: string, c: nat, rest: string, o: string)
    requires ShieldSafe(o) && !Contains(before, o) && !Contains(rest, o)
    ensures !Contains(before + Placeholder(c) + rest, o)
  {
    var ph := Placeholder(c);
    var w := before + ph + rest;
    OccursInSuffix(before, ph + rest, ph, 0) by {
      assert (ph + rest)[..|ph|] == ph;
    }
    assert before + (ph + rest) == w;
    forall j | 0 <= j <= |w| ensures !OccursAt(w, o, j) {
      if j + |o| <= |before| {
        if OccursAt(w, o, j) {
          OccursInLeft(before, ph + rest, o, j);
        }
      } else if j < |before| + |ph| {
        OpenerMissesPlaceholder(w, |before|, c, o, j);
      } else if OccursAt(w, o, j) {
        OccursInRight(before + ph, rest, o, j);
      }
    }
  }

  lemma {:induction false} NoOpenerInShielded(pairs: seq<Shield>, tail: string, c: nat, o: string)
    requires ShieldSafe(o) && PiecesFree(pairs, tail, o)
    ensures !Contains(Shielded(pairs, tail, c), o)
    decreases |pairs|
  {
    if |pairs| > 0 {
      assert PiecesFree(pairs[1..], tail, o) by {
        assert forall q :: 0 <= q < |pairs[1..]| ==> pairs[1..][q] == pairs[q + 1];
      }
      NoOpenerInShielded(pairs[1..], tail, c + 1, o);
      NoOpenerAcross(pairs[0].before, c, Shielded(pairs[1..], tail, c + 1), o);
    }
  }

  lemma RemoveWithoutOpener(s: string, open: string, close: string)
    requires |open| > 0 && !Contains(s, open)
    ensures RemovePairs(s, open, close) == s
  {
    FindIsContains(s, open);
  }

  /**
   * One wrapper pair: the first opener, through the nearest closer after it,
   * is deleted, and the scan goes on behind that closer.
   */
  lemma RemoveFirstPair(pre: string, mid: string, post: string, open: string, close: string)
    requires |open| > 0 && NoSelfOverlap(open) && NoSelfOverlap(close)
    requires !Contains(pre, open) && !Contains(mid, close)
    ensures RemovePairs(pre + open + mid + close + post, open, close) == pre + RemovePairs(post, open, close)
  {
    var t := pre + open + mid + close + post;
    var e := |pre| + |open| + |mid|;
    FirstOccurrenceOf(pre, open, mid + close + post);
    assert pre + open + (mid + close + post) == t;
    assert t[e..e + |close|] == close;
    forall j | |pre| + |open| <= j < e ensures !OccursAt(t, close, j) {
      if j + |close| <= e {
        if OccursAt(t, close, j) {
          assert t[j..j + |close|] == mid[j - |pre| - |open|..j - |pre| - |open| + |close|];
          assert OccursAt(mid, close, j - |pre| - |open|);
        }
      } else {
        SelfStraddle(t, close, e, j);
      }
    }
    FindFromIs(t, close, |pre| + |open|, e);
    assert t[..|pre|] == pre && t[e + |close|..] == post;
  }

  /** An opener with no closer anywhere after it is left in place. */
  lemma RemoveWithoutCloser(s: string, open: string, close: string)
    requires |open| > 0 && !Contains(s, close)
    ensures RemovePairs(s, open, close) == s
  {
    match Find(s, open)
    case None =>
    case Some(j) =>
      NoneFound(s, close, j + |open|);
  }

  lemma ThinkTagsDoNotOverlap()
    ensures NoSelfOverlap(ThinkOpen) && NoSelfOverlap(ThinkClose)
  {
    forall d | 0 < d < |ThinkOpen| ensures ThinkOpen[d..] != ThinkOpen[..|ThinkOpen| - d] {
      assert ThinkOpen[d..][0] != ThinkOpen[..|ThinkOpen| - d][0];
    }
    forall d | 0 < d < |ThinkClose| ensures ThinkClose[d..] != ThinkClose[..|ThinkClose| - d] {
      assert ThinkClose[d..][0] != ThinkClose[..|ThinkClose| - d][0];
    }
  }

  /**
   * A `<think>` tag is deleted together with everything up to the nearest
   * `</think>` after it, the tags included.
   */
  lemma ThinkBlockRemoved(pre: string, mid: string, post: string)
    requires !Contains(pre, ThinkOpen) && !Contains(mid, ThinkClose)
    ensures RemovePairs(pre + ThinkOpen + mid + ThinkClose + post, ThinkOpen, ThinkClose)
            == pre + RemovePairs(post, ThinkOpen, ThinkClose)
  {
    ThinkTagsDoNotOverlap();
    RemoveFirstPair(pre, mid, post, ThinkOpen, ThinkClose);
  }

  /** The same for a `<<<THOUGHTS>>>` block, up to the nearest `<<<END_THOUGHTS>>>`. */
  lemma ThoughtsBlockRemoved(pre: string, mid: string, post: string)
    requires !Contains(pre, ThoughtsOpen) && !Contains(mid, ThoughtsClose)
    ensures RemovePairs(pre + ThoughtsOpen + mid + ThoughtsClose + post, ThoughtsOpen, ThoughtsClose)
            == pre + RemovePairs(post, ThoughtsOpen, ThoughtsClose)
  {
    MarkerLikeNoSelfOverlap(ThoughtsOpen);
    MarkerLikeNoSelfOverlap(ThoughtsClose);
    RemoveFirstPair(pre, mid, post, ThoughtsOpen, ThoughtsClose);
  }

  /** Without a notes or tool-call start marker, the scan protects nothing. */
  lemma {:induction false} ShieldWithoutBlocks(text: string, from: nat, j: nat)
    requires from <= j <= |text|
    requires !Contains(text, Notes.StartMarker) && !Contains(text, ToolCalls.StartMarker)
    ensures ShieldFrom(text, from, j) == Shielding([], text[from..])
    decreases |text| - j
  {
    if j < |text| {
      assert !OccursAt(text, Notes.StartMarker, j) && !OccursAt(text, ToolCalls.StartMarker, j);
      ShieldWithoutBlocks(text, from, j + 1);
    }
  }

  // ------------------------------------------------------------ what the sanitizer promises

  /** Empty input is returned unchanged. */
  lemma SanitizeEmpty()
    ensures SanitizeVisibleText("") == ""
  {
  }

  /**
   * A text that never spells a placeholder comes back unchanged when no
   * reasoning opener occurs outside its protected blocks; tags inside a
   * notes or tool-call block are never stripped, and the blocks come back
   * verbatim.
   */
  lemma SanitizeKeepsShieldedText(text: string)
    requires !Contains(text, PlaceholderHead)
    requires PiecesFree(ShieldAll(text).pairs, ShieldAll(text).tail, ThinkOpen)
    requires PiecesFree(ShieldAll(text).pairs, ShieldAll(text).tail, ThoughtsOpen)
    requires PiecesFree(ShieldAll(text).pairs, ShieldAll(text).tail, ReasoningOpen)
    ensures SanitizeVisibleText(text) == text
  {
    if |text| > 0 {
      var sh := ShieldAll(text);
      var p := Shielded(sh.pairs, sh.tail, 0);
      OpenersShieldSafe();
      NoOpenerInShielded(sh.pairs, sh.tail, 0, ThinkOpen);
      NoOpenerInShielded(sh.pairs, sh.tail, 0, ThoughtsOpen);
      NoOpenerInShielded(sh.pairs, sh.tail, 0, ReasoningOpen);
      RemoveWithoutOpener(p, ThinkOpen, ThinkClose);
      RemoveWithoutOpener(p, ThoughtsOpen, ThoughtsClose);
      RemoveWithoutOpener(p, ReasoningOpen, ReasoningClose);
      assert StripReasoningWrappers(p) == p;
      ShieldCovers(text, 0, 0);
      ShieldPiecesFree(text, 0, 0, PlaceholderHead);
      assert "" + Unshielded(sh.pairs, sh.tail) == text;
      RestoreShielded("", sh.pairs, sh.tail, Blocks(sh.pairs), 0);
      assert "" + p == p;
    }
  }

  /** Text with no reasoning opener at all (and no placeholder) is returned unchanged. */
  lemma SanitizeWithoutWrappers(text: string)
    requires !Contains(text, PlaceholderHead)
    requires !Contains(text, ThinkOpen) && !Contains(text, ThoughtsOpen) && !Contains(text, ReasoningOpen)
    ensures SanitizeVisibleText(text) == text
  {
    ShieldPiecesFree(text, 0, 0, ThinkOpen);
    ShieldPiecesFree(text, 0, 0, ThoughtsOpen);
    ShieldPiecesFree(text, 0, 0, ReasoningOpen);
    SanitizeKeepsShieldedText(text);
  }

  /**
   * A `<think>` block in text with no protected block is removed up to the
   * nearest `</think>`, and the text around it is kept as it is.
   */
  lemma SanitizeDropsThinkBlock(pre: string, mid: string, post: string)
    requires !Contains(pre + ThinkOpen + mid + ThinkClose + post, Notes.StartMarker)
    requires !Contains(pre + ThinkOpen + mid + ThinkClose + post, ToolCalls.StartMarker)
    requires !Contains(pre, ThinkOpen) && !Contains(mid, ThinkClose) && !Contains(post, ThinkOpen)
    requires !Contains(pre + post, ThoughtsOpen) && !Contains(pre + post, ReasoningOpen)
    ensures SanitizeVisibleText(pre + ThinkOpen + mid + ThinkClose + post) == pre + post
  {
    var text := pre + ThinkOpen + mid + ThinkClose + post;
    ShieldWithoutBlocks(text, 0, 0);
    assert ShieldAll(text) == Shielding([], text);
    StripOnlyThink(pre, mid, post);
    assert Blocks([]) == [];
  }

  lemma StripOnlyThink(pre: string, mid: string, post: string)
    requires !Contains(pre, ThinkOpen) && !Contains(mid, ThinkClose) && !Contains(post, ThinkOpen)
    requires !Contains(pre + post, ThoughtsOpen) && !Contains(pre + post, ReasoningOpen)
    ensures StripReasoningWrappers(pre + ThinkOpen + mid + ThinkClose + post) == pre + post
  {
    ThinkBlockRemoved(pre, mid, post);
    RemoveWithoutOpener(post, ThinkOpen, ThinkClose);
    RemoveWithoutOpener(pre + post, ThoughtsOpen, ThoughtsClose);
    RemoveWithoutOpener(pre + post, ReasoningOpen, ReasoningClose);
  }
}
