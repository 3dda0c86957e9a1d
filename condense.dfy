/**
 * Keeping the state and the upstream context small: duplicate removal,
 * tail capping and marker truncation, applied to five list fields of the
 * state (in place) and to the texts of earlier roles.
 */
module Condense {
  import opened Wrappers
  import opened Types
  import opened Notes

  const TruncationMarker: string := "...[truncated]"

  /** `CondensePolicy` */
  datatype CondensePolicy = CondensePolicy(
    maxGoals: int,
    maxOpenLoops: int,
    maxDecisions: int,
    maxConstraints: int,
    maxMemoryTags: int,
    maxUpstreamCharsPerRole: int,
    maxUpstreamTotalChars: int)

  const DefaultPolicy := CondensePolicy(32, 32, 32, 32, 32, 1500, 4000)

  /** `CondenseReport`: how many entries each list lost. */
  datatype CondenseReport = CondenseReport(
    goalsRemoved: int,
    openLoopsRemoved: int,
    decisionsRemoved: int,
    constraintsRemoved: int,
    memoryTagsRemoved: int)

  /** `CondenseReport.trimmed` */
  predicate Trimmed(r: CondenseReport) {
    r.goalsRemoved != 0 || r.openLoopsRemoved != 0 || r.decisionsRemoved != 0
    || r.constraintsRemoved != 0 || r.memoryTagsRemoved != 0
  }

  /** `RoleResult` of pipeline.py: the shape `condense_upstream` rebuilds. */
  datatype RoleResult = RoleResult(role: string, text: string, notes: Option<NotesPatch>)

  predicate NoDup(s: seq<string>) {
    forall i, j :: 0 <= i < j < |s| ==> s[i] != s[j]
  }

  /** The index of the first occurrence of `x`. */
  function FirstIndex(s: seq<string>, x: string): (k: nat)
    requires x in s
    ensures k < |s| && s[k] == x && forall i :: 0 <= i < k ==> s[i] != x
  {
    if s[0] == x then 0 else 1 + FirstIndex(s[1..], x)
  }

  lemma FirstIndexOfAppend(a: seq<string>, y: string, x: string)
    requires x in a
    ensures FirstIndex(a + [y], x) == FirstIndex(a, x)
  {
    var k, k' := FirstIndex(a + [y], x), FirstIndex(a, x);
    assert (a + [y])[k'] == x;
    assert a[k] == x || k == |a|;
  }

  /** `dedupe_preserve_order`, one item at a time from the left. */
  function Dedupe(items: seq<string>): (r: seq<string>)
    ensures NoDup(r)
    ensures forall x :: x in r <==> x in items
    ensures |r| <= |items|
    ensures NoDup(items) ==> r == items
    decreases |items|
  {
    if |items| == 0 then []
    else
      var init, last := items[..|items| - 1], items[|items| - 1];
      assert items == init + [last];
      var d := Dedupe(init);
      if last in d then d else d + [last]
  }

  /**
   * The deduplicated list keeps each item's first occurrence, in the order
   * of those first occurrences; with the two facts `Dedupe` ensures, this
   * determines it completely.
   */
  lemma {:induction false} DedupeOrder(items: seq<string>)
    ensures forall i, j :: 0 <= i < j < |Dedupe(items)| ==>
              FirstIndex(items, Dedupe(items)[i]) < FirstIndex(items, Dedupe(items)[j])
    decreases |items|
  {
    if |items| > 0 {
      var init, last := items[..|items| - 1], items[|items| - 1];
      assert items == init + [last];
      var d := Dedupe(init);
      DedupeOrder(init);
      forall x | x in init ensures FirstIndex(items, x) == FirstIndex(init, x) {
        FirstIndexOfAppend(init, last, x);
      }
      if last !in d {
        assert FirstIndex(items, last) == |init|;
      }
    }
  }

  /** `cap_tail`: the last `min(len, max(max_n, 0))` items. */
  function CapTail(items: seq<string>, maxN: int): (r: seq<string>)
    ensures var n := if maxN < 0 then 0 else if maxN < |items| then maxN else |items|;
            r == items[|items| - n..]
  {
    if maxN < 0 then []
    else if |items| <= maxN then items
    else if maxN == 0 then []
    else items[|items| - maxN..]
  }

  /** `truncate_text` */
  function TruncateText(text: string, maxChars: int): (r: string)
    ensures maxChars <= 0 ==> r == ""
    ensures 0 < maxChars && |text| <= maxChars ==> r == text
    ensures 0 < maxChars < |text| ==> |r| == maxChars
    ensures |TruncationMarker| <= maxChars < |text| ==>
              r == text[..maxChars - |TruncationMarker|] + TruncationMarker
    ensures maxChars < |TruncationMarker| && maxChars < |text| ==> r == TruncationMarker[..if maxChars < 0 then 0 else maxChars]
    ensures |r| <= |text|
  {
    if maxChars <= 0 then ""
    else if |text| <= maxChars then text
    else if maxChars < |TruncationMarker| then TruncationMarker[..maxChars]
    else text[..maxChars - |TruncationMarker|] + TruncationMarker
  }

  /** `_condense_list` */
  function CondenseList(items: seq<string>, maxItems: int): seq<string> {
    CapTail(Dedupe(items), maxItems)
  }

  /**
   * A condensed list is duplicate-free, within its non-negative limit, and
   * holds the newest distinct entries: a suffix of the deduplicated list.
   */
  lemma CondenseListBounds(items: seq<string>, maxItems: int)
    ensures NoDup(CondenseList(items, maxItems))
    ensures |CondenseList(items, maxItems)| <= if maxItems < 0 then 0 else maxItems
    ensures forall x :: x in CondenseList(items, maxItems) ==> x in items
    ensures var d := Dedupe(items); var r := CondenseList(items, maxItems);
            |r| <= |d| && r == d[|d| - |r|..]
  {
    var d := Dedupe(items);
    var r := CondenseList(items, maxItems);
    assert r == d[|d| - |r|..];
    SuffixKeeps(d, |d| - |r|);
  }

  /** A suffix of a duplicate-free list is duplicate-free, and holds only its items. */
  lemma SuffixKeeps(d: seq<string>, k: nat)
    requires k <= |d| && NoDup(d)
    ensures NoDup(d[k..]) && forall x :: x in d[k..] ==> x in d
  {
    var t := d[k..];
    forall i, j | 0 <= i < j < |t| ensures t[i] != t[j] {
      assert t[i] == d[k + i] && t[j] == d[k + j];
    }
    forall x | x in t ensures x in d {
      var i :| 0 <= i < |t| && t[i] == x;
      assert d[k + i] == x;
    }
  }

  /** Condensing a condensed list changes nothing. */
  lemma CondenseListIdempotent(items: seq<string>, maxItems: int)
    ensures CondenseList(CondenseList(items, maxItems), maxItems) == CondenseList(items, maxItems)
  {
    CondenseListBounds(items, maxItems);
  }

  /** `condense_state` on the value of a state. */
  function CondenseValue(s: StateValue, p: CondensePolicy): StateValue {
    s.(goals := CondenseList(s.goals, p.maxGoals),
       openLoops := CondenseList(s.openLoops, p.maxOpenLoops),
       decisions := CondenseList(s.decisions, p.maxDecisions),
       constraints := CondenseList(s.constraints, p.maxConstraints),
       memoryTags := CondenseList(s.memoryTags, p.maxMemoryTags))
  }

  /** The report `condense_state` returns: before-length minus after-length per list. */
  function ReportOf(before: StateValue, after: StateValue): CondenseReport {
    CondenseReport(|before.goals| - |after.goals|, |before.openLoops| - |after.openLoops|,
                   |before.decisions| - |after.decisions|, |before.constraints| - |after.constraints|,
                   |before.memoryTags| - |after.memoryTags|)
  }

  /** Condensing never adds entries, and touches neither the summary, the refs nor the capabilities. */
  lemma CondenseValueKeeps(s: StateValue, p: CondensePolicy)
    ensures var t := CondenseValue(s, p);
      && t.episodeSummary == s.episodeSummary && t.memoryRefs == s.memoryRefs
      && t.capabilitiesGranted == s.capabilitiesGranted && t.capabilitiesPending == s.capabilitiesPending
    ensures var r := ReportOf(s, CondenseValue(s, p));
      r.goalsRemoved >= 0 && r.openLoopsRemoved >= 0 && r.decisionsRemoved >= 0
      && r.constraintsRemoved >= 0 && r.memoryTagsRemoved >= 0
  {
    CondenseListBounds(s.goals, p.maxGoals);
    CondenseListBounds(s.openLoops, p.maxOpenLoops);
    CondenseListBounds(s.decisions, p.maxDecisions);
    CondenseListBounds(s.constraints, p.maxConstraints);
    CondenseListBounds(s.memoryTags, p.maxMemoryTags);
  }

  /** A second `condense_state` removes nothing and reports nothing trimmed. */
  lemma CondenseValueIdempotent(s: StateValue, p: CondensePolicy)
    ensures CondenseValue(CondenseValue(s, p), p) == CondenseValue(s, p)
    ensures !Trimmed(ReportOf(CondenseValue(s, p), CondenseValue(CondenseValue(s, p), p)))
  {
    CondenseListIdempotent(s.goals, p.maxGoals);
    CondenseListIdempotent(s.openLoops, p.maxOpenLoops);
    CondenseListIdempotent(s.decisions, p.maxDecisions);
    CondenseListIdempotent(s.constraints, p.maxConstraints);
    CondenseListIdempotent(s.memoryTags, p.maxMemoryTags);
  }

  /** `condense_state(state, policy)`: five fields condensed in place, and the report. */
  method CondenseState(state: State, p: CondensePolicy) returns (report: CondenseReport)
    modifies state
    ensures state.Value() == CondenseValue(old(state.Value()), p)
    ensures report == ReportOf(old(state.Value()), state.Value())
  {
    var goals := CondenseList(state.goals, p.maxGoals);
    var openLoops := CondenseList(state.openLoops, p.maxOpenLoops);
    var decisions := CondenseList(state.decisions, p.maxDecisions);
    var constraints := CondenseList(state.constraints, p.maxConstraints);
    var memoryTags := CondenseList(state.memoryTags, p.maxMemoryTags);
    report := CondenseReport(|state.goals| - |goals|, |state.openLoops| - |openLoops|,
                             |state.decisions| - |decisions|, |state.constraints| - |constraints|,
                             |state.memoryTags| - |memoryTags|);
    CondenseValueFields(state.Value(), p);
    state.goals, state.openLoops, state.decisions, state.constraints, state.memoryTags
      := goals, openLoops, decisions, constraints, memoryTags;
  }

  /** The value `CondenseValue` builds, field by field. */
  lemma CondenseValueFields(s: StateValue, p: CondensePolicy)
    ensures CondenseValue(s, p) == StateValue(
      CondenseList(s.goals, p.maxGoals), CondenseList(s.openLoops, p.maxOpenLoops),
      CondenseList(s.decisions, p.maxDecisions), CondenseList(s.constraints, p.maxConstraints),
      s.episodeSummary, CondenseList(s.memoryTags, p.maxMemoryTags), s.memoryRefs,
      s.capabilitiesGranted, s.capabilitiesPending)
  {
  }

  // ------------------------------------------------------------ upstream texts

  function TotalChars(rs: seq<RoleResult>): nat {
    if |rs| == 0 then 0 else |rs[0].text| + TotalChars(rs[1..])
  }

  /** The first pass: every text cut to the per-role limit. */
  function TruncateEach(rs: seq<RoleResult>, maxChars: int): (r: seq<RoleResult>)
    ensures |r| == |rs|
    ensures forall k :: 0 <= k < |rs| ==> r[k] == rs[k].(text := TruncateText(rs[k].text, maxChars))
  {
    seq(|rs|, k requires 0 <= k < |rs| => rs[k].(text := TruncateText(rs[k].text, maxChars)))
  }

  /** The second pass: each text cut to what is left of the total budget. */
  function ShareBudget(rs: seq<RoleResult>, remaining: int): seq<RoleResult>
    decreases |rs|
  {
    if |rs| == 0 then []
    else
      var text := TruncateText(rs[0].text, remaining);
      var left := if remaining - |text| <= 0 then 0 else remaining - |text|;
      [rs[0].(text := text)] + ShareBudget(rs[1..], left)
  }

  /** `condense_upstream` as a value. */
  function UpstreamSpec(results: seq<RoleResult>, p: CondensePolicy): seq<RoleResult> {
    var truncated := TruncateEach(results, p.maxUpstreamCharsPerRole);
    if TotalChars(truncated) <= p.maxUpstreamTotalChars then truncated
    else ShareBudget(truncated, p.maxUpstreamTotalChars)
  }

  /** The budget pass keeps count, roles and notes, never lengthens a text, and spends at most the budget. */
  lemma {:induction false} ShareBudgetBounds(rs: seq<RoleResult>, remaining: int)
    ensures var r := ShareBudget(rs, remaining);
      && |r| == |rs|
      && (forall k :: 0 <= k < |rs| ==> r[k].role == rs[k].role && r[k].notes == rs[k].notes
                                        && |r[k].text| <= |rs[k].text|)
      && TotalChars(r) <= (if remaining < 0 then 0 else remaining)
    decreases |rs|
  {
    if |rs| > 0 {
      var text := TruncateText(rs[0].text, remaining);
      var left := if remaining - |text| <= 0 then 0 else remaining - |text|;
      ShareBudgetBounds(rs[1..], left);
      var r := ShareBudget(rs, remaining);
      assert r == [rs[0].(text := text)] + ShareBudget(rs[1..], left);
      assert r[1..] == ShareBudget(rs[1..], left);
    }
  }

  /**
   * `condense_upstream` keeps count, order, roles and notes; every text is
   * within the per-role limit, and the total is within the total limit
   * when that limit is not negative.
   */
  lemma UpstreamSpecBounds(results: seq<RoleResult>, p: CondensePolicy)
    ensures var r := UpstreamSpec(results, p);
      && |r| == |results|
      && (forall k :: 0 <= k < |r| ==> r[k].role == results[k].role && r[k].notes == results[k].notes)
      && (forall k :: 0 <= k < |r| ==>
            |r[k].text| <= (if p.maxUpstreamCharsPerRole < 0 then 0 else p.maxUpstreamCharsPerRole))
      && (p.maxUpstreamTotalChars >= 0 ==> TotalChars(r) <= p.maxUpstreamTotalChars)
  {
    var truncated := TruncateEach(results, p.maxUpstreamCharsPerRole);
    ShareBudgetBounds(truncated, p.maxUpstreamTotalChars);
  }

  /** `condense_upstream(results, policy)`: the first pass, then the budget loop when the total is over. */
  method CondenseUpstream(results: seq<RoleResult>, p: CondensePolicy) returns (condensed: seq<RoleResult>)
    ensures condensed == UpstreamSpec(results, p)
  {
    var truncated := TruncateEach(results, p.maxUpstreamCharsPerRole);
    if TotalChars(truncated) <= p.maxUpstreamTotalChars {
      return truncated;
    }
    condensed := [];
    var remaining := p.maxUpstreamTotalChars;
    var i := 0;
    while i < |truncated|
      invariant 0 <= i <= |truncated|
      invariant condensed + ShareBudget(truncated[i..], remaining) == ShareBudget(truncated, p.maxUpstreamTotalChars)
    {
      var text := TruncateText(truncated[i].text, remaining);
      assert truncated[i..][1..] == truncated[i + 1..];
      condensed := condensed + [truncated[i].(text := text)];
      remaining := remaining - |text|;
      if remaining <= 0 {
        remaining := 0;
      }
      i := i + 1;
    }
  }
}
