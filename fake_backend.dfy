/**
 * The scripted backend used in tests and smoke runs: canned responses
 * served first-in first-out, per role when a role queue has entries, and
 * a log of every request.
 */
module FakeBackends {
  import opened Wrappers
  import opened JsonValue

  /** One logged request: the prompt and the parameters (`params or {}`). */
  datatype BackendCall = BackendCall(prompt: string, params: map<string, Json>)

  datatype BackendValue = BackendValue(
    responses: seq<string>,
    roleResponses: map<string, seq<string>>,
    calls: seq<BackendCall>)

  /** The role queue a request may draw from: a non-empty string `role` parameter. */
  function RoleKey(params: map<string, Json>): Option<string> {
    var role := Get(params, "role");
    if role.JStr? && |role.s| > 0 then Some(role.s) else None
  }

  /** What `complete` answers, and the backend after it. */
  datatype Completion = Completion(backend: BackendValue, response: string)

  function CompleteSpec(b: BackendValue, prompt: string, params: Option<map<string, Json>>): (c: Completion)
    ensures var p := if params.Some? then params.value else map[];
            c.backend.calls == b.calls + [BackendCall(prompt, p)]
  {
    var p := if params.Some? then params.value else map[];
    var calls := b.calls + [BackendCall(prompt, p)];
    var role := RoleKey(p);
    if role.Some? && role.value in b.roleResponses && |b.roleResponses[role.value]| > 0 then
      var q := b.roleResponses[role.value];
      Completion(BackendValue(b.responses, b.roleResponses[role.value := q[1..]], calls), q[0])
    else if |b.responses| > 0 then
      Completion(BackendValue(b.responses[1..], b.roleResponses, calls), b.responses[0])
    else Completion(BackendValue(b.responses, b.roleResponses, calls), "")
  }

  /** A named role with queued responses gets the front of its own queue, which is removed. */
  lemma RoleQueueServedFirst(b: BackendValue, prompt: string, params: map<string, Json>, role: string)
    requires Get(params, "role") == JStr(role) && |role| > 0 && role in b.roleResponses && |b.roleResponses[role]| > 0
    ensures var c := CompleteSpec(b, prompt, Some(params));
      && c.response == b.roleResponses[role][0]
      && c.backend.roleResponses == b.roleResponses[role := b.roleResponses[role][1..]]
      && c.backend.responses == b.responses
  {
  }

  /** Otherwise the general queue is served, front first. */
  lemma GeneralQueueServed(b: BackendValue, prompt: string, params: Option<map<string, Json>>)
    requires var p := if params.Some? then params.value else map[];
             RoleKey(p).None? || RoleKey(p).value !in b.roleResponses || |b.roleResponses[RoleKey(p).value]| == 0
    requires |b.responses| > 0
    ensures var c := CompleteSpec(b, prompt, params);
      c.response == b.responses[0] && c.backend.responses == b.responses[1..]
      && c.backend.roleResponses == b.roleResponses
  {
  }

  /** With nothing queued for the request, the answer is empty and no queue changes. */
  lemma ExhaustedAnswersEmpty(b: BackendValue, prompt: string, params: Option<map<string, Json>>)
    requires b.responses == [] && forall r :: r in b.roleResponses ==> b.roleResponses[r] == []
    ensures CompleteSpec(b, prompt, params).response == ""
    ensures CompleteSpec(b, prompt, params).backend.responses == []
    ensures CompleteSpec(b, prompt, params).backend.roleResponses == b.roleResponses
  {
  }

  class FakeBackend {
    var responses: seq<string>
    var roleResponses: map<string, seq<string>>
    var calls: seq<BackendCall>

    function Value(): BackendValue
      reads this
    {
      BackendValue(responses, roleResponses, calls)
    }

    constructor (responses: seq<string>, roleResponses: map<string, seq<string>>)
      ensures Value() == BackendValue(responses, roleResponses, [])
    {
      this.responses := responses;
      this.roleResponses := roleResponses;
      calls := [];
    }

    /** `complete(prompt, params)` */
    method Complete(prompt: string, params: Option<map<string, Json>>) returns (response: string)
      modifies this
      ensures var c := CompleteSpec(old(Value()), prompt, params);
              Value() == c.backend && response == c.response
    {
      var p := if params.Some? then params.value else map[];
      calls := calls + [BackendCall(prompt, p)];
      var role := RoleKey(p);
      if role.Some? && role.value in roleResponses && |roleResponses[role.value]| > 0 {
        var q := roleResponses[role.value];
        roleResponses := roleResponses[role.value := q[1..]];
        return q[0];
      }
      if |responses| > 0 {
        response := responses[0];
        responses := responses[1..];
        return;
      }
      return "";
    }

    /** `extend_responses` */
    method ExtendResponses(more: seq<string>)
      modifies this
      ensures Value() == old(Value()).(responses := old(responses) + more)
    {
      responses := responses + more;
    }

    /** `extend_role_responses`: the role's queue is created when missing, then extended in order. */
    method ExtendRoleResponses(role: string, more: seq<string>)
      modifies this
      ensures Value() == old(Value()).(roleResponses := old(roleResponses)[role :=
                (if role in old(roleResponses) then old(roleResponses)[role] else []) + more])
    {
      var q := if role in roleResponses then roleResponses[role] else [];
      roleResponses := roleResponses[role := q + more];
    }
  }
}
