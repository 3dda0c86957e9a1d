/**
 * The capability state machine over the two ordered lists of a `State`:
 * capabilities asked for (pending) and capabilities given (granted). The
 * functions below say what each step does to the pair of lists; the methods
 * do the same steps in place on a `State` object.
 */
module Capabilities {
  import opened Strings
  import opened Types

  const RequestPrefix: string := "request_permission:"
  const GrantPrefix: string := "grant_permission:"

  /** The two capability lists of a state. */
  datatype Caps = Caps(granted: seq<string>, pending: seq<string>)

  /** The lists after one helper, and the helper's boolean answer. */
  datatype Step = Step(caps: Caps, changed: bool)

  /** One entry of `ignored`: the action and why it was skipped. */
  datatype Ignored = Ignored(action: string, reason: string)

  /** The dictionary `apply_permission_actions` returns. */
  datatype PermissionReport = PermissionReport(before: Caps, after: Caps, applied: seq<string>, ignored: seq<Ignored>)

  function CapsOf(s: StateValue): Caps {
    Caps(s.capabilitiesGranted, s.capabilitiesPending)
  }

  function WithCaps(s: StateValue, c: Caps): StateValue {
    s.(capabilitiesGranted := c.granted, capabilitiesPending := c.pending)
  }

  /** No capability is both granted and pending. */
  predicate Disjoint(c: Caps) {
    forall x :: x in c.granted ==> x !in c.pending
  }

  /** `_remove_value`: every copy of `v` goes, the rest keep their order. */
  function RemoveValue(items: seq<string>, v: string): (r: seq<string>)
    ensures forall x :: x in r <==> x in items && x != v
    ensures |r| <= |items|
    ensures v !in items ==> r == items
  {
    if |items| == 0 then []
    else if items[0] == v then RemoveValue(items[1..], v)
    else [items[0]] + RemoveValue(items[1..], v)
  }

  /** The pending entries that are not granted, in order. */
  function NotIn(items: seq<string>, granted: seq<string>): (r: seq<string>)
    ensures forall x :: x in r <==> x in items && x !in granted
    ensures |r| <= |items|
  {
    if |items| == 0 then []
    else if items[0] in granted then NotIn(items[1..], granted)
    else [items[0]] + NotIn(items[1..], granted)
  }

  /** `normalize_capabilities`: granted capabilities are dropped from pending. */
  function Normalize(c: Caps): (r: Caps)
    ensures Disjoint(r)
    ensures r.granted == c.granted
    ensures forall x :: x in r.pending <==> x in c.pending && x !in c.granted
  {
    if |c.granted| == 0 then c else Caps(c.granted, NotIn(c.pending, c.granted))
  }

  /** `request_permission` */
  function Request(c: Caps, cap: string): (r: Step)
    ensures r.changed <==> cap !in c.granted && cap !in c.pending
    ensures r.caps.granted == c.granted
    ensures r.caps.pending == if r.changed then c.pending + [cap] else c.pending
  {
    if cap in c.granted then Step(c, false)
    else if cap in c.pending then Step(c, false)
    else Step(Caps(c.granted, c.pending + [cap]), true)
  }

  /** `grant_permission` */
  function Grant(c: Caps, cap: string): (r: Step)
    ensures cap in r.caps.granted && cap !in r.caps.pending
    ensures r.changed <==> cap !in c.granted || cap in c.pending
    ensures r.changed <==> r.caps != c
    ensures forall x :: x != cap ==> (x in r.caps.granted <==> x in c.granted)
    ensures forall x :: x != cap ==> (x in r.caps.pending <==> x in c.pending)
  {
    var granted := if cap !in c.granted then c.granted + [cap] else c.granted;
    var pending := if cap in c.pending then RemoveValue(c.pending, cap) else c.pending;
    assert cap in c.pending ==> pending != c.pending;
    assert cap !in c.granted ==> granted != c.granted;
    Step(Caps(granted, pending), cap !in c.granted || cap in c.pending)
  }

  /** `revoke_permission`: every copy goes from granted; pending is never touched. */
  function Revoke(c: Caps, cap: string): (r: Step)
    ensures r.changed <==> cap in c.granted
    ensures cap !in r.caps.granted && r.caps.pending == c.pending
    ensures forall x :: x != cap ==> (x in r.caps.granted <==> x in c.granted)
    ensures !r.changed ==> r.caps == c
  {
    if cap !in c.granted then Step(c, false)
    else Step(Caps(RemoveValue(c.granted, cap), c.pending), true)
  }

  /** `clear_pending` */
  function Clear(c: Caps): (r: Step)
    ensures r.caps == Caps(c.granted, [])
    ensures r.changed <==> |c.pending| > 0
  {
    if |c.pending| == 0 then Step(c, false) else Step(Caps(c.granted, []), true)
  }

  /** What the loop of `apply_permission_actions` makes of one action. */
  datatype Kind = RequestKind(cap: string) | GrantKind(cap: string) | EmptyCapability | UnknownAction

  function Classify(action: string): (k: Kind)
    ensures k.RequestKind? ==> action == RequestPrefix + k.cap && |k.cap| > 0
    ensures k.GrantKind? ==> action == GrantPrefix + k.cap && |k.cap| > 0
    ensures k.EmptyCapability? ==> action == RequestPrefix || action == GrantPrefix
    ensures k.UnknownAction? ==> !IsPrefix(RequestPrefix, action) && !IsPrefix(GrantPrefix, action)
  {
    if IsPrefix(RequestPrefix, action) then
      var cap := action[|RequestPrefix|..];
      assert action == RequestPrefix + cap;
      if |cap| == 0 then EmptyCapability else RequestKind(cap)
    else if IsPrefix(GrantPrefix, action) then
      var cap := action[|GrantPrefix|..];
      assert action == GrantPrefix + cap;
      if |cap| == 0 then EmptyCapability else GrantKind(cap)
    else UnknownAction
  }

  /** The lists, `applied` and `ignored` after the loop has seen `actions`. */
  datatype Progress = Progress(caps: Caps, applied: seq<string>, ignored: seq<Ignored>)

  function ApplyOne(p: Progress, action: string): Progress {
    match Classify(action)
    case RequestKind(cap) =>
      var st := Request(p.caps, cap);
      Progress(st.caps, if st.changed then p.applied + [action] else p.applied, p.ignored)
    case GrantKind(cap) =>
      var st := Grant(p.caps, cap);
      Progress(st.caps, if st.changed then p.applied + [action] else p.applied, p.ignored)
    case EmptyCapability => Progress(p.caps, p.applied, p.ignored + [Ignored(action, "empty_capability")])
    case UnknownAction => Progress(p.caps, p.applied, p.ignored + [Ignored(action, "unknown_action")])
  }

  /** The loop over `actions`, from the left. */
  function ApplyAll(c: Caps, actions: seq<string>): Progress
    decreases |actions|
  {
    if |actions| == 0 then Progress(c, [], [])
    else ApplyOne(ApplyAll(c, actions[..|actions| - 1]), actions[|actions| - 1])
  }

  /** `apply_permission_actions` as a value: the loop, then `normalize_capabilities`. */
  function ApplyActions(c: Caps, actions: seq<string>): (r: PermissionReport)
    ensures r.before == c && Disjoint(r.after)
  {
    var p := ApplyAll(c, actions);
    PermissionReport(c, Normalize(p.caps), p.applied, p.ignored)
  }

  /** The ignored entries depend on the actions alone, never on the lists. */
  function IgnoredOf(actions: seq<string>): seq<Ignored>
    decreases |actions|
  {
    if |actions| == 0 then []
    else
      var last := actions[|actions| - 1];
      var k := Classify(last);
      IgnoredOf(actions[..|actions| - 1])
      + (if k.EmptyCapability? then [Ignored(last, "empty_capability")]
         else if k.UnknownAction? then [Ignored(last, "unknown_action")]
         else [])
  }

  // ------------------------------------------------------------ properties

  /** A second identical grant answers false and changes nothing. */
  lemma GrantIdempotent(c: Caps, cap: string)
    ensures Grant(Grant(c, cap).caps, cap) == Step(Grant(c, cap).caps, false)
  {
  }

  /** A request for a granted or pending capability is a no-op. */
  lemma RequestKnownIsNoOp(c: Caps, cap: string)
    requires cap in c.granted || cap in c.pending
    ensures Request(c, cap) == Step(c, false)
  {
  }

  /** Requests and revocations keep the lists disjoint; so does a grant. */
  lemma StepsKeepDisjoint(c: Caps, cap: string)
    requires Disjoint(c)
    ensures Disjoint(Request(c, cap).caps)
    ensures Disjoint(Grant(c, cap).caps)
    ensures Disjoint(Revoke(c, cap).caps)
    ensures Disjoint(Clear(c).caps)
  {
  }

  /** `ignored` lists exactly the actions with an empty capability or no known prefix, in input order. */
  lemma {:induction false} ApplyAllIgnored(c: Caps, actions: seq<string>)
    ensures ApplyAll(c, actions).ignored == IgnoredOf(actions)
    decreases |actions|
  {
    if |actions| > 0 {
      ApplyAllIgnored(c, actions[..|actions| - 1]);
    }
  }

  /** Each action lands in at most one of `applied` and `ignored`, and `applied` keeps input order. */
  lemma {:induction false} ApplyAllCounts(c: Caps, actions: seq<string>)
    ensures |ApplyAll(c, actions).applied| + |ApplyAll(c, actions).ignored| <= |actions|
    ensures forall a :: a in ApplyAll(c, actions).applied ==> a in actions
    decreases |actions|
  {
    if |actions| > 0 {
      var init := actions[..|actions| - 1];
      ApplyAllCounts(c, init);
      assert forall a :: a in init ==> a in actions;
    }
  }

  /** Every applied action is a request or grant whose capability is not empty. */
  lemma {:induction false} AppliedAreKnown(c: Caps, actions: seq<string>)
    ensures forall a :: a in ApplyAll(c, actions).applied ==> Classify(a).RequestKind? || Classify(a).GrantKind?
    decreases |actions|
  {
    if |actions| > 0 {
      AppliedAreKnown(c, actions[..|actions| - 1]);
    }
  }

  /** Whatever came before, a grant as the last action leaves its capability granted and not pending. */
  lemma GrantLast(c: Caps, actions: seq<string>, cap: string)
    requires |cap| > 0 && |actions| > 0 && actions[|actions| - 1] == GrantPrefix + cap
    ensures cap in ApplyActions(c, actions).after.granted
    ensures cap !in ApplyActions(c, actions).after.pending
  {
    var init := actions[..|actions| - 1];
    assert IsPrefix(GrantPrefix, GrantPrefix + cap);
    assert !IsPrefix(RequestPrefix, GrantPrefix + cap) by {
      assert (GrantPrefix + cap)[0] != RequestPrefix[0];
    }
    assert Classify(GrantPrefix + cap) == GrantKind(cap) by {
      assert (GrantPrefix + cap)[|GrantPrefix|..] == cap;
    }
  }

  // ------------------------------------------------------------ in place on a State

  /** `normalize_capabilities(state)` */
  method NormalizeCapabilities(state: State)
    modifies state
    ensures state.Value() == WithCaps(old(state.Value()), Normalize(CapsOf(old(state.Value()))))
  {
    if |state.capabilitiesGranted| > 0 {
      state.capabilitiesPending := NotIn(state.capabilitiesPending, state.capabilitiesGranted);
    }
  }

  /** `request_permission(state, cap)` */
  method RequestPermission(state: State, cap: string) returns (changed: bool)
    modifies state
    ensures var st := Request(CapsOf(old(state.Value())), cap);
            changed == st.changed && state.Value() == WithCaps(old(state.Value()), st.caps)
  {
    if cap in state.capabilitiesGranted {
      return false;
    }
    if cap in state.capabilitiesPending {
      return false;
    }
    state.capabilitiesPending := state.capabilitiesPending + [cap];
    return true;
  }

  /** `grant_permission(state, cap)` */
  method GrantPermission(state: State, cap: string) returns (changed: bool)
    modifies state
    ensures var st := Grant(CapsOf(old(state.Value())), cap);
            changed == st.changed && state.Value() == WithCaps(old(state.Value()), st.caps)
  {
    changed := false;
    if cap !in state.capabilitiesGranted {
      state.capabilitiesGranted := state.capabilitiesGranted + [cap];
      changed := true;
    }
    if cap in state.capabilitiesPending {
      state.capabilitiesPending := RemoveValue(state.capabilitiesPending, cap);
      changed := true;
    }
  }

  /** `revoke_permission(state, cap)` */
  method RevokePermission(state: State, cap: string) returns (changed: bool)
    modifies state
    ensures var st := Revoke(CapsOf(old(state.Value())), cap);
            changed == st.changed && state.Value() == WithCaps(old(state.Value()), st.caps)
  {
    if cap !in state.capabilitiesGranted {
      return false;
    }
    state.capabilitiesGranted := RemoveValue(state.capabilitiesGranted, cap);
    return true;
  }

  /** `clear_pending(state)` */
  method ClearPending(state: State) returns (changed: bool)
    modifies state
    ensures var st := Clear(CapsOf(old(state.Value())));
            changed == st.changed && state.Value() == WithCaps(old(state.Value()), st.caps)
  {
    if |state.capabilitiesPending| == 0 {
      return false;
    }
    state.capabilitiesPending := [];
    return true;
  }

  /**
   * `apply_permission_actions(state, actions)`: the report and the new lists
   * are those of `ApplyActions`, every other field is kept, and afterwards
   * no capability is both granted and pending.
   */
  method ApplyPermissionActions(state: State, actions: seq<string>) returns (report: PermissionReport)
    modifies state
    ensures report == ApplyActions(CapsOf(old(state.Value())), actions)
    ensures state.Value() == WithCaps(old(state.Value()), report.after)
    ensures Disjoint(CapsOf(state.Value()))
  {
    var before := Caps(state.capabilitiesGranted, state.capabilitiesPending);
    var applied: seq<string> := [];
    var ignored: seq<Ignored> := [];
    var i := 0;
    while i < |actions|
      invariant 0 <= i <= |actions|
      invariant ApplyAll(before, actions[..i]) == Progress(CapsOf(state.Value()), applied, ignored)
      invariant state.Value() == WithCaps(old(state.Value()), CapsOf(state.Value()))
    {
      var action := actions[i];
      assert actions[..i + 1][..i] == actions[..i];
      match Classify(action) {
        case RequestKind(cap) =>
          var ok := RequestPermission(state, cap);
          if ok { applied := applied + [action]; }
        case GrantKind(cap) =>
          var ok := GrantPermission(state, cap);
          if ok { applied := applied + [action]; }
        case EmptyCapability =>
          ignored := ignored + [Ignored(action, "empty_capability")];
        case UnknownAction =>
          ignored := ignored + [Ignored(action, "unknown_action")];
      }
      i := i + 1;
    }
    assert actions[..i] == actions;
    NormalizeCapabilities(state);
    report := PermissionReport(before, CapsOf(state.Value()), applied, ignored);
  }
}
