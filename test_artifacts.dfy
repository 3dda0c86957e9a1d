/**
 * Redaction of request and response bodies before they are written as
 * test artifacts, and the layout of a test case's artifact directories.
 * Bodies are decoded JSON values; every object key that names a
 * credential has its value replaced by a fixed marker.
 */
module TestArtifacts {
  import opened Wrappers
  import opened JsonValue
  import opened Strings
  import Sandbox

  /** `_REDACT_KEYS` */
  const RedactKeys: seq<string> := ["authorization", "api_key", "apikey", "token", "access_token"]

  const Redacted: string := "***REDACTED***"
  const BearerRedacted: string := "Bearer ***REDACTED***"
  const BearerPrefix: string := "Bearer "

  /** `_should_redact(key)`: some redaction key occurs in the lower-cased key. */
  predicate ShouldRedact(key: string) {
    exists t | t in RedactKeys :: Contains(Lower(key), t)
  }

  /** Every key containing "token" or "authorization", in any letter case, is redacted. */
  lemma RedactsTokenKeys(key: string)
    ensures Contains(Lower(key), "token") ==> ShouldRedact(key)
    ensures Contains(Lower(key), "authorization") ==> ShouldRedact(key)
    ensures !ShouldRedact(key) ==> forall t :: t in RedactKeys ==> !Contains(Lower(key), t)
  {
    assert RedactKeys[3] == "token" && RedactKeys[0] == "authorization";
  }

  /** A key spelled with the Kelvin sign is lower-cased to `token`, so it is redacted too. */
  lemma KelvinTokenRedacted()
    ensures ShouldRedact("TO" + [KelvinSign] + "EN")
  {
    var key := "TO" + [KelvinSign] + "EN";
    assert Lower(key) == "token";
    assert Contains(Lower(key), RedactKeys[3]) by {
      assert OccursAt(Lower(key), "token", 0);
    }
  }

  /** `_redact_value(value)`: a bearer token keeps its scheme word, anything else becomes the marker. */
  function RedactValue(value: Json): (r: Json)
    ensures r == JStr(BearerRedacted) || r == JStr(Redacted)
    ensures r == JStr(BearerRedacted) <==> value.JStr? && IsPrefix(BearerPrefix, value.s)
  {
    if value.JStr? && IsPrefix(BearerPrefix, value.s) then JStr(BearerRedacted) else JStr(Redacted)
  }

  /** A redacted value is its own redaction. */
  lemma RedactValueIdempotent(value: Json)
    ensures RedactValue(RedactValue(value)) == RedactValue(value)
  {
    assert BearerRedacted[..|BearerPrefix|] == BearerPrefix;
    assert !IsPrefix(BearerPrefix, Redacted) by {
      assert Redacted[0] != BearerPrefix[0];
    }
  }

  /**
   * `redact_obj(obj)`: objects keep every key, the values of credential keys
   * are redacted and the others redacted recursively; lists are mapped
   * item by item; every other value is returned as it is.
   */
  function RedactObj(obj: Json): (r: Json)
    ensures obj.JObj? <==> r.JObj?
    ensures obj.JObj? ==> r.fields.Keys == obj.fields.Keys
    ensures obj.JArr? <==> r.JArr?
    ensures obj.JArr? ==> |r.items| == |obj.items|
    ensures !obj.JObj? && !obj.JArr? ==> r == obj
  {
    match obj
    case JObj(fields) =>
      JObj(map key | key in fields :: if ShouldRedact(key) then RedactValue(fields[key]) else RedactObj(fields[key]))
    case JArr(items) =>
      JArr(seq(|items|, k requires 0 <= k < |items| => RedactObj(items[k])))
    case _ => obj
  }

  /** `maybe_redact(obj, enabled)` */
  function MaybeRedact(obj: Json, enabled: bool): (r: Json)
    ensures !enabled ==> r == obj
    ensures enabled ==> r == RedactObj(obj)
  {
    if !enabled then obj else RedactObj(obj)
  }

  /**
   * No credential survives: in every object, at any depth, the value of
   * a credential key is one of the two markers.
   */
  predicate Redacted?(j: Json) {
    match j
    case JObj(fields) =>
      forall key | key in fields ::
        if ShouldRedact(key) then fields[key] == JStr(BearerRedacted) || fields[key] == JStr(Redacted)
        else Redacted?(fields[key])
    case JArr(items) => forall k | 0 <= k < |items| :: Redacted?(items[k])
    case _ => true
  }

  /** A redacted value holds no credential. */
  lemma {:induction false} RedactObjHidesCredentials(obj: Json)
    ensures Redacted?(RedactObj(obj))
  {
    match obj
    case JObj(fields) =>
      var r := RedactObj(obj);
      forall key | key in fields && !ShouldRedact(key) ensures Redacted?(r.fields[key]) {
        RedactObjHidesCredentials(fields[key]);
      }
    case JArr(items) =>
      forall k | 0 <= k < |items| ensures Redacted?(RedactObj(obj).items[k]) {
        RedactObjHidesCredentials(items[k]);
      }
    case _ =>
  }

  /** A value that holds no credential is left exactly as it is. */
  lemma {:induction false} RedactObjKeepsRedacted(obj: Json)
    requires Redacted?(obj)
    ensures RedactObj(obj) == obj
  {
    match obj
    case JObj(fields) =>
      var r := RedactObj(obj);
      forall key | key in fields ensures r.fields[key] == fields[key] {
        if ShouldRedact(key) {
          RedactValueIdempotent(fields[key]);
          assert RedactValue(fields[key]) == fields[key] by {
            if fields[key] == JStr(BearerRedacted) {
              assert BearerRedacted[..|BearerPrefix|] == BearerPrefix;
            } else {
              assert Redacted[0] != BearerPrefix[0];
            }
          }
        } else {
          RedactObjKeepsRedacted(fields[key]);
        }
      }
      assert r.fields == fields;
    case JArr(items) =>
      var r := RedactObj(obj);
      forall k | 0 <= k < |items| ensures r.items[k] == items[k] {
        RedactObjKeepsRedacted(items[k]);
      }
      assert r.items == items;
    case _ =>
  }

  /** Redacting twice is redacting once. */
  lemma RedactObjIdempotent(obj: Json)
    ensures RedactObj(RedactObj(obj)) == RedactObj(obj)
  {
    RedactObjHidesCredentials(obj);
    RedactObjKeepsRedacted(RedactObj(obj));
  }

  // ------------------------------------------------------------ get_test_context

  /** `TestArtifactContext` */
  datatype TestArtifactContext = TestArtifactContext(
    enabled: bool, outdir: Option<Sandbox.PurePath>, caseId: Option<string>, sessionId: Option<string>, redact: bool)

  /**
   * `get_test_context()`, given the values of `SPECTATOR_TEST_OUTDIR`,
   * `SPECTATOR_TEST_CASE_ID` and `SPECTATOR_TEST_REDACT` (`None` when
   * unset).
   */
  function GetTestContext(outdirRaw: Option<string>, caseId: Option<string>, redactRaw: Option<string>)
    : (r: TestArtifactContext)
    ensures r.enabled <==> outdirRaw.Some? && outdirRaw.value != "" && caseId.Some? && caseId.value != ""
    ensures r.redact <==> redactRaw == Some("1")
    ensures r.enabled ==> r.outdir.Some? && Sandbox.RenderPath(r.outdir.value) == Sandbox.RenderPath(Sandbox.ParsePath(outdirRaw.value))
    ensures r.enabled ==> r.caseId == caseId && r.sessionId == Some(Sandbox.PathName(r.outdir.value))
    ensures !r.enabled ==> r.outdir.None? && r.caseId.None? && r.sessionId.None?
  {
    var redact := redactRaw == Some("1");
    if outdirRaw.Some? && outdirRaw.value != "" && caseId.Some? && caseId.value != "" then
      var outdir := Sandbox.ParsePath(outdirRaw.value);
      TestArtifactContext(true, Some(outdir), caseId, Some(Sandbox.PathName(outdir)), redact)
    else
      TestArtifactContext(false, None, None, None, redact)
  }

  // ------------------------------------------------------------ artifact_paths

  /** The three directory names are single components. */
  lemma Leaves()
    ensures Sandbox.Component("requests") && Sandbox.Component("responses") && Sandbox.Component("meta")
  {
  }

  /** `artifact_paths(outdir, case_id)`: the requests, responses and meta directories of a case. */
  function ArtifactPaths(outdir: Sandbox.PurePath, caseId: string): (r: (Sandbox.PurePath, Sandbox.PurePath, Sandbox.PurePath))
    ensures var caseRoot := Sandbox.Div(Sandbox.Div(outdir, "cases"), caseId);
            && Sandbox.ParentPath(r.0) == caseRoot && Sandbox.PathName(r.0) == "requests"
            && Sandbox.ParentPath(r.1) == caseRoot && Sandbox.PathName(r.1) == "responses"
            && Sandbox.ParentPath(r.2) == caseRoot && Sandbox.PathName(r.2) == "meta"
    ensures Sandbox.NormalPath(outdir) ==> Sandbox.NormalPath(r.0) && Sandbox.NormalPath(r.1) && Sandbox.NormalPath(r.2)
  {
    var caseRoot := Sandbox.Div(Sandbox.Div(outdir, "cases"), caseId);
    Leaves();
    (Sandbox.Div(caseRoot, "requests"), Sandbox.Div(caseRoot, "responses"), Sandbox.Div(caseRoot, "meta"))
  }

  /** The three directories are distinct. */
  lemma ArtifactPathsDistinct(outdir: Sandbox.PurePath, caseId: string)
    ensures var (req, resp, meta) := ArtifactPaths(outdir, caseId);
            req != resp && resp != meta && req != meta
  {
    var (req, resp, meta) := ArtifactPaths(outdir, caseId);
    assert Sandbox.PathName(req) != Sandbox.PathName(resp);
    assert Sandbox.PathName(resp) != Sandbox.PathName(meta);
    assert Sandbox.PathName(req) != Sandbox.PathName(meta);
  }

  /**
   * For an output directory given as text and a relative case id, each
   * directory is the path of the joined text `<outdir>/cases/<case_id>/<leaf>`.
   */
  lemma ArtifactPathsAreJoinedText(outdirRaw: string, caseId: string)
    requires outdirRaw != "" && !Sandbox.IsAbsolute(caseId)
    ensures var caseText := outdirRaw + "/" + "cases" + "/" + caseId;
            ArtifactPaths(Sandbox.ParsePath(outdirRaw), caseId)
              == (Sandbox.ParsePath(caseText + "/" + "requests"), Sandbox.ParsePath(caseText + "/" + "responses"),
                  Sandbox.ParsePath(caseText + "/" + "meta"))
  {
    var casesText := outdirRaw + "/" + "cases";
    var caseText := casesText + "/" + caseId;
    Sandbox.DivIsJoinedText(outdirRaw, "cases");
    Sandbox.DivIsJoinedText(casesText, caseId);
    Sandbox.DivIsJoinedText(caseText, "requests");
    Sandbox.DivIsJoinedText(caseText, "responses");
    Sandbox.DivIsJoinedText(caseText, "meta");
  }
}
