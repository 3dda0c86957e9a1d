/**
 * The marker-delimited block shared by the notes and tool-call parsers: the
 * first start marker, then the first end marker searched for from the start
 * marker's index, with the whitespace-stripped text between them as payload.
 */
module MarkerBlock {
  import opened Wrappers
  import opened Strings

  /** The payload, the index of the start marker, and the index just past the end marker. */
  datatype Block = Block(payload: string, start: nat, stop: nat)

  /** `_extract_block` (None stands for the `(None, -1, -1)` answer). */
  function ExtractBlock(text: string, sm: string, em: string): Option<Block>
  {
    match Find(text, sm)
    case None => None
    case Some(s) =>
      match FindFrom(text, em, s)
      case None => None
      case Some(e) => Some(Block(Strip(PySlice(text, s + |sm|, e)), s, e + |em|))
  }

  /** The block `_extract_block` returns starts at the first start marker. */
  lemma ExtractBlockStart(text: string, sm: string, em: string, b: Block)
    requires ExtractBlock(text, sm, em) == Some(b)
    ensures OccursAt(text, sm, b.start)
    ensures forall j :: 0 <= j < b.start ==> !OccursAt(text, sm, j)
  {
    assert Find(text, sm) == Some(b.start);
  }

  /** It ends just past the first end marker found at or after the start marker. */
  lemma ExtractBlockEnd(text: string, sm: string, em: string, b: Block)
    requires ExtractBlock(text, sm, em) == Some(b)
    ensures b.stop >= |em| && OccursAt(text, em, b.stop - |em|)
    ensures forall j :: b.start <= j < b.stop - |em| ==> !OccursAt(text, em, j)
  {
    var e := FindFrom(text, em, b.start).value;
    assert b.stop - |em| == e;
  }

  /** Its payload is the stripped text strictly between the two markers. */
  lemma ExtractBlockPayload(text: string, sm: string, em: string, b: Block)
    requires ExtractBlock(text, sm, em) == Some(b)
    ensures b.start + |sm| <= |text| && b.stop - |em| <= |text|
    ensures b.payload == Strip(PySlice(text, b.start + |sm|, b.stop - |em|))
  {
    var a := Find(text, sm).value;
    assert OccursAt(text, sm, a);
    var e := FindFrom(text, em, a).value;
    assert OccursAt(text, em, e);
    assert b == Block(Strip(PySlice(text, a + |sm|, e)), a, e + |em|);
  }

  /** `_extract_block` finds nothing exactly when a marker is missing. */
  lemma ExtractBlockMissing(text: string, sm: string, em: string)
    ensures ExtractBlock(text, sm, em).None? <==>
      (forall j :: 0 <= j ==> !OccursAt(text, sm, j))
      || (exists s :: OccursAt(text, sm, s) && (forall j :: 0 <= j < s ==> !OccursAt(text, sm, j))
                      && forall j :: s <= j ==> !OccursAt(text, em, j))
  {
    match Find(text, sm)
    case None =>
    case Some(s) =>
      if ExtractBlock(text, sm, em).None? {
        assert OccursAt(text, sm, s);
      } else {
        forall s' | OccursAt(text, sm, s') && (forall j :: 0 <= j < s' ==> !OccursAt(text, sm, j))
          ensures exists j :: s' <= j && OccursAt(text, em, j)
        {
          assert s' == s;
          var e := FindFrom(text, em, s).value;
          assert OccursAt(text, em, e);
        }
      }
  }

  /** A found block lies inside the text, its end marker at or after its start. */
  lemma ExtractBlockBounds(text: string, sm: string, em: string)
    ensures var r := ExtractBlock(text, sm, em);
            r.Some? ==> r.value.start + |em| <= r.value.stop <= |text|
  {
  }

  /** The block `_extract_block` returns once both markers have been located. */
  lemma ExtractBlockFound(text: string, sm: string, em: string, a: nat, e: nat, stop: nat, payload: string)
    requires Find(text, sm) == Some(a) && FindFrom(text, em, a) == Some(e)
    requires stop == e + |em| && PySlice(text, a + |sm|, e) == payload
    ensures ExtractBlock(text, sm, em) == Some(Block(Strip(payload), a, stop))
  {
    var r := ExtractBlock(text, sm, em);
    assert r.Some? && r.value.start == a && r.value.stop == stop;
  }

  /** The text with the block cut out: `text[:start] + text[stop:]`. */
  function Splice(text: string, b: Block): (r: string)
    requires b.start <= b.stop <= |text|
    ensures |r| == |text| - (b.stop - b.start)
  {
    text[..b.start] + text[b.stop..]
  }

  /**
   * The shape all four protocol markers share: three `<` and then no `<`
   * anywhere else. Such a marker cannot overlap a copy of itself.
   */
  predicate MarkerLike(m: string) {
    |m| > 3 && m[0] == '<' && m[1] == '<' && m[2] == '<'
    && forall k :: 3 <= k < |m| ==> m[k] != '<'
  }

  /** A marker-like string cannot overlap a shifted copy of itself. */
  lemma MarkerLikeNoSelfOverlap(m: string)
    requires MarkerLike(m)
    ensures NoSelfOverlap(m)
  {
    forall d | 0 < d < |m| ensures m[d..] != m[..|m| - d] {
      if d < 3 {
        assert m[d..][3 - d] != m[..|m| - d][3 - d];
      } else {
        assert m[d..][0] != m[..|m| - d][0];
      }
    }
  }

  /** A start and an end marker that differ at their first non-`<` character. */
  predicate Separated(sm: string, em: string) {
    MarkerLike(sm) && MarkerLike(em) && sm[3] != em[3]
  }

  lemma CharOfOccurrence(t: string, m: string, j: int, x: int)
    requires OccursAt(t, m, j) && j <= x < j + |m|
    ensures t[x] == m[x - j]
  {
    assert t[j..j + |m|][x - j] == m[x - j];
  }

  /** `CharOfOccurrence` for an occurrence that may not be there. */
  lemma CharIfOccurs(t: string, m: string, j: int, x: int)
    ensures OccursAt(t, m, j) && j <= x < j + |m| ==> t[x] == m[x - j]
  {
    if OccursAt(t, m, j) && j <= x < j + |m| {
      CharOfOccurrence(t, m, j, x);
    }
  }

  /**
   * Two marker-like strings cannot overlap unless they start at the same
   * index: `m2` occurring at `p` rules out an `m` that straddles `p`.
   * An `m` at `j` would put its `<` at `p`, so `p - j <= 2`, and then its
   * fourth character, not a `<`, would fall on one of the `<` of `m2`.
   */
  lemma NoStraddle(t: string, m: string, m2: string, p: int, j: int)
    requires MarkerLike(m) && MarkerLike(m2) && OccursAt(t, m2, p) && j < p < j + |m|
    ensures !OccursAt(t, m, j)
  {
    var k := p - j;
    CharOfOccurrence(t, m2, p, p);
    CharIfOccurs(t, m, j, p);
    CharIfOccurs(t, m, j, j + 3);
    if k <= 2 {
      CharOfOccurrence(t, m2, p, p + 3 - k);
    }
  }

  /**
   * An end marker cannot start inside an occurrence of a separated start
   * marker: its `<` would be one of the first three characters there, and
   * the start marker's fourth character would meet a `<` or the end
   * marker's different fourth character.
   */
  lemma EndNotInsideStart(t: string, sm: string, em: string, p: int, j: int)
    requires Separated(sm, em) && OccursAt(t, sm, p) && p <= j < p + |sm|
    ensures !OccursAt(t, em, j)
  {
    CharIfOccurs(t, em, j, j);
    CharOfOccurrence(t, sm, p, j);
    CharOfOccurrence(t, sm, p, p + 3);
    CharIfOccurs(t, em, j, p + 3);
  }

  /** In `pre + m + rest`, with no `m` inside `pre`, the first `m` is the one after `pre`. */
  lemma FirstOccurrence(pre: string, m: string, rest: string)
    requires MarkerLike(m) && !Contains(pre, m)
    ensures Find(pre + m + rest, m) == Some(|pre|)
  {
    var t := pre + m + rest;
    assert t[|pre|..|pre| + |m|] == m;
    assert OccursAt(t, m, |pre|);
    forall j | 0 <= j < |pre| ensures !OccursAt(t, m, j) {
      if j + |m| <= |pre| {
        if OccursAt(t, m, j) {
          assert t[j..j + |m|] == pre[j..j + |m|];
          assert OccursAt(pre, m, j);
        }
      } else {
        NoStraddle(t, m, m, |pre|, j);
      }
    }
    FindFromIs(t, m, 0, |pre|);
  }

  /**
   * With a separated start marker at `s` and an end marker at `p`, and no end
   * marker inside the text between them, the end search from `s` finds `p`.
   */
  lemma EndAfterStart(text: string, sm: string, em: string, s: nat, p: nat)
    requires Separated(sm, em) && OccursAt(text, sm, s) && OccursAt(text, em, p)
    requires s + |sm| <= p && !Contains(text[s + |sm|..p], em)
    ensures FindFrom(text, em, s) == Some(p)
  {
    forall j | s <= j < p ensures !OccursAt(text, em, j) {
      if j < s + |sm| {
        EndNotInsideStart(text, sm, em, s, j);
      } else if j + |em| <= p {
        if OccursAt(text, em, j) {
          OccursInSlice(text, em, s + |sm|, p, j);
        }
      } else {
        NoStraddle(text, em, em, p, j);
      }
    }
    FindFromIs(text, em, s, p);
  }

  lemma FramedFacts(pre: string, payload: string, post: string, sm: string, em: string)
    ensures var text := pre + sm + payload + em + post;
            var p := |pre| + |sm| + |payload|;
            && text == pre + sm + (payload + em + post)
            && OccursAt(text, sm, |pre|) && OccursAt(text, em, p)
            && text[|pre| + |sm|..p] == payload
            && text[..|pre|] + text[p + |em|..] == pre + post
  {
    var text := pre + sm + payload + em + post;
    var p := |pre| + |sm| + |payload|;
    assert text[|pre|..|pre| + |sm|] == sm;
    assert text[p..p + |em|] == em;
    assert text[..|pre|] == pre;
    assert text[p + |em|..] == post;
  }

  /**
   * Round trip: a block framed by separated markers, with no start marker
   * before it and no end marker inside its payload, is found, its payload is
   * the stripped text between the markers, and cutting it out leaves the
   * surrounding text.
   */
  lemma {:induction false} ExtractFramed(pre: string, payload: string, post: string, sm: string, em: string)
    requires Separated(sm, em)
    requires !Contains(pre, sm) && !Contains(payload, em)
    ensures ExtractBlock(pre + sm + payload + em + post, sm, em)
            == Some(Block(Strip(payload), |pre|, |pre| + |sm| + |payload| + |em|))
    ensures Splice(pre + sm + payload + em + post, Block(Strip(payload), |pre|, |pre| + |sm| + |payload| + |em|))
            == pre + post
  {
    var text := pre + sm + payload + em + post;
    var p := |pre| + |sm| + |payload|;
    FramedFacts(pre, payload, post, sm, em);
    FirstOccurrence(pre, sm, payload + em + post);
    EndAfterStart(text, sm, em, |pre|, p);
    assert PySlice(text, |pre| + |sm|, p) == payload;
    ExtractBlockFound(text, sm, em, |pre|, p, |pre| + |sm| + |payload| + |em|, payload);
    assert Splice(text, Block(Strip(payload), |pre|, |pre| + |sm| + |payload| + |em|)) == pre + post by {
      assert text[..|pre|] + text[p + |em|..] == pre + post;
    }
  }
}
