/**
 * The pure and list-handling parts of the llama.cpp server backend: the
 * boolean environment flag, merging the system rules into the chat
 * messages, the request payload, reading the answer out of a response,
 * the server-sent-event line filter and the accumulation of streamed
 * deltas. Reading the rules prompt, the environment, the HTTP requests
 * and `str()` of a non-string value are parameters.
 */
module LlamaServer {
  import opened Wrappers
  import opened JsonValue
  import opened Strings

  // ------------------------------------------------------------ _env_bool

  /** `_env_bool(name, default)` given the variable's value, `None` when unset. */
  function EnvBool(raw: Option<string>, default: bool): (r: bool)
    ensures raw.None? ==> r == default
    ensures raw.Some? ==>
              (r <==> Lower(Strip(raw.value)) in {"1", "true", "yes", "on"})
  {
    match raw
    case None => default
    case Some(s) => Lower(Strip(s)) in {"1", "true", "yes", "on"}
  }

  /** Surrounding whitespace and letter case do not matter. */
  lemma EnvBoolIgnoresCaseAndSpace(raw: string, default: bool)
    ensures EnvBool(Some(raw), default) == EnvBool(Some(Lower(Strip(raw))), default)
  {
    var s := Strip(raw);
    var l := Lower(s);
    StripShape(raw);
    if |s| > 0 {
      assert l[0] == LowerChar(s[0]) && l[|l| - 1] == LowerChar(s[|s| - 1]);
    }
    StripOfStripped(l);
    LowerIdempotent(s);
  }

  // ------------------------------------------------------------ _ensure_system_rules

  function Message(role: string, content: string): Json {
    JObj(map["role" := JStr(role), "content" := JStr(content)])
  }

  /** `isinstance(msg, dict) and msg.get("role") == "system"` */
  predicate IsSystem(msg: Json) {
    msg.JObj? && Get(msg.fields, "role") == JStr("system")
  }

  /** The index of the first system message. */
  function FirstSystem(messages: seq<Json>): (r: Option<nat>)
    ensures r.None? ==> forall k :: 0 <= k < |messages| ==> !IsSystem(messages[k])
    ensures r.Some? ==> r.value < |messages| && IsSystem(messages[r.value])
    ensures r.Some? ==> forall k :: 0 <= k < r.value ==> !IsSystem(messages[k])
  {
    if |messages| == 0 then None
    else if IsSystem(messages[0]) then Some(0)
    else
      var rest := FirstSystem(messages[1..]);
      assert forall k :: 1 <= k < |messages| ==> messages[k] == messages[1..][k - 1];
      if rest.Some? then Some(rest.value + 1) else None
  }

  /** The replacement for a system message: the rules before non-blank content, or the rules alone. */
  function MergedSystem(msg: Json, systemText: string): Json
    requires msg.JObj?
  {
    var content := Get(msg.fields, "content");
    if content.JStr? && Strip(content.s) != "" then Message("system", systemText + "\n\n" + content.s)
    else Message("system", systemText)
  }

  /** What `_ensure_system_rules` leaves: the first system message merged, or the rules put in front. */
  function EnsureSystemRulesSpec(messages: seq<Json>, systemText: string): (r: seq<Json>)
    ensures FirstSystem(messages).Some? ==> |r| == |messages|
    ensures FirstSystem(messages).None? ==> r == [Message("system", systemText)] + messages
  {
    match FirstSystem(messages)
    case Some(i) => messages[i := MergedSystem(messages[i], systemText)]
    case None => [Message("system", systemText)] + messages
  }

  /**
   * The rules always end up in the first system message, at its front,
   * and every other message is kept where it was.
   */
  lemma RulesLeadFirstSystem(messages: seq<Json>, systemText: string)
    ensures var r := EnsureSystemRulesSpec(messages, systemText);
            && FirstSystem(r).Some?
            && var i := FirstSystem(r).value;
               && Get(r[i].fields, "content").JStr?
               && IsPrefix(systemText, Get(r[i].fields, "content").s)
               && (FirstSystem(messages).Some? ==>
                     i == FirstSystem(messages).value &&
                     forall k :: 0 <= k < |r| && k != i ==> r[k] == messages[k])
               && (FirstSystem(messages).None? ==> i == 0 && r[1..] == messages)
  {
    var r := EnsureSystemRulesSpec(messages, systemText);
    match FirstSystem(messages)
    case Some(i) =>
      var m := MergedSystem(messages[i], systemText);
      assert IsSystem(m) && r[i] == m;
      assert forall k :: 0 <= k < i ==> r[k] == messages[k];
      assert FirstSystem(r) == Some(i);
    case None =>
      assert IsSystem(r[0]);
  }

  /**
   * `_ensure_system_rules(messages, system_text)`: the list itself is
   * updated in place and returned when it holds a system message;
   * otherwise a new list with the rules in front is returned and the
   * given one is left alone.
   */
  method EnsureSystemRules(messages: array<Json>, systemText: string) returns (r: array<Json>)
    modifies messages
    ensures r[..] == EnsureSystemRulesSpec(old(messages[..]), systemText)
    ensures FirstSystem(old(messages[..])).Some? ==> r == messages
    ensures FirstSystem(old(messages[..])).None? ==> fresh(r) && messages[..] == old(messages[..])
  {
    for i := 0 to messages.Length
      invariant messages[..] == old(messages[..])
      invariant forall k :: 0 <= k < i ==> !IsSystem(messages[k])
    {
      var msg := messages[i];
      if msg.JObj? && Get(msg.fields, "role") == JStr("system") {
        assert messages[..][i] == msg;
        assert FirstSystem(messages[..]) == Some(i);
        var content := Get(msg.fields, "content");
        if content.JStr? && Strip(content.s) != "" {
          messages[i] := Message("system", systemText + "\n\n" + content.s);
        } else {
          messages[i] := Message("system", systemText);
        }
        return messages;
      }
    }
    r := new Json[messages.Length + 1](k => if k == 0 then Message("system", systemText) else JNull);
    forall k | 1 <= k < r.Length {
      r[k] := messages[k - 1];
    }
    assert r[1..] == messages[..];
  }

  // ------------------------------------------------------------ _build_payload

  /** Python truthiness of a decoded value. */
  predicate Truthy(v: Json) {
    match v
    case JNull => false
    case JBool(b) => b
    case JInt(i) => i != 0
    case JFloat(f) => f != 0.0
    case JStr(s) => s != ""
    case JArr(items) => items != []
    case JObj(fields) => fields != map[]
  }

  /** The order a dictionary's keys are iterated in: a parameter. */
  type KeyOrder = map<string, Json> -> seq<string>

  /** `str(value)` for a non-string value: a parameter. */
  type PyStr = Json -> string

  function Formatted(v: Json, pyStr: PyStr): string {
    if v.JStr? then v.s else pyStr(v)
  }

  /** `_build_system_rules(model)` over the loaded rules text. */
  function SystemRules(rules: string, model: Json, pyStr: PyStr): string {
    rules + " " +
    (if Truthy(model) then "The underlying model is " + Formatted(model, pyStr) + "." else "The underlying model is unknown.")
  }

  /** The option keys `_build_payload` takes out before the rest is sent. */
  const Dropped: set<string> := {"role", "stream_callback", "system_prompt", "messages", "model"}

  /** `options` after the pops and the four `setdefault`s. */
  function Options(params: map<string, Json>): (r: map<string, Json>)
    ensures "role" !in r && "stream_callback" !in r && "system_prompt" !in r
    ensures "messages" !in r && "model" !in r
    ensures forall k :: k in params && k !in Dropped ==> k in r && r[k] == params[k]
    ensures r.Keys == (params.Keys - Dropped) + {"temperature", "top_p", "max_tokens", "seed"}
    ensures ("cache_prompt" in r <==> "cache_prompt" in params) && GetOr(r, "cache_prompt", JNull) == GetOr(params, "cache_prompt", JNull)
    ensures r["temperature"] == GetOr(params, "temperature", JInt(0))
    ensures r["top_p"] == GetOr(params, "top_p", JInt(1))
    ensures r["max_tokens"] == GetOr(params, "max_tokens", JInt(512))
    ensures r["seed"] == GetOr(params, "seed", JInt(7))
  {
    var o := params - Dropped;
    var o1 := if "temperature" in o then o else o["temperature" := JInt(0)];
    var o2 := if "top_p" in o1 then o1 else o1["top_p" := JInt(1)];
    var o3 := if "max_tokens" in o2 then o2 else o2["max_tokens" := JInt(512)];
    if "seed" in o3 then o3 else o3["seed" := JInt(7)]
  }

  /** The rules, followed by the caller's `system_prompt` when that is non-empty. */
  function MergedRules(params: map<string, Json>, rules: string, model: Json, pyStr: PyStr): string {
    var base := SystemRules(rules, model, pyStr);
    var upstream := GetOr(params, "system_prompt", JNull);
    if upstream.JNull? then base
    else
      var text := Formatted(upstream, pyStr);
      if text == "" then base else base + "\n\n" + text
  }

  /**
   * The message list `_ensure_system_rules` receives, or the error
   * iterating a value that is not iterable raises. A string is
   * iterated character by character and a dictionary key by key, in
   * the dictionary's own order.
   */
  function GivenMessages(params: map<string, Json>, prompt: string, keysOf: KeyOrder): Result<seq<Json>> {
    var messages := GetOr(params, "messages", JNull);
    match messages
    case JNull => Ok([Message("user", prompt)])
    case JArr(items) => Ok(items)
    case JStr(s) => Ok(seq(|s|, k requires 0 <= k < |s| => JStr([s[k]])))
    case JObj(fields) => Ok(seq(|keysOf(fields)|, k requires 0 <= k < |keysOf(fields)| => JStr(keysOf(fields)[k])))
    case _ => Err("TypeError")
  }

  /** `options.pop("model", self.model)` */
  function PayloadModel(params: map<string, Json>, selfModel: Option<string>): Json {
    GetOr(params, "model", if selfModel.Some? then JStr(selfModel.value) else JNull)
  }

  /**
   * The payload dictionary: the messages, the model when it is truthy,
   * `cache_prompt` false by default, then every option, an option
   * overriding what was there before.
   */
  function Assembled(messages: seq<Json>, model: Json, options: map<string, Json>): (p: map<string, Json>)
    ensures forall k :: k in p <==> k == "messages" || k == "cache_prompt" || (k == "model" && Truthy(model)) || k in options
    ensures forall k :: k in options ==> p[k] == options[k]
    ensures "messages" !in options ==> p["messages"] == JArr(messages)
    ensures "model" !in options && Truthy(model) ==> p["model"] == model
    ensures "cache_prompt" !in options ==> p["cache_prompt"] == JBool(false)
  {
    var payload := map["messages" := JArr(messages)];
    var withModel := if Truthy(model) then payload["model" := model] else payload;
    withModel["cache_prompt" := JBool(false)] + options
  }

  /** `_build_payload(prompt, params)`, or the error iterating the given messages raises. */
  function BuildPayloadSpec(prompt: string, params: map<string, Json>, selfModel: Option<string>,
                            rules: string, pyStr: PyStr, keysOf: KeyOrder): Result<map<string, Json>>
  {
    var model := PayloadModel(params, selfModel);
    match GivenMessages(params, prompt, keysOf)
    case Err(m) => Err(m)
    case Ok(given) =>
      Ok(Assembled(EnsureSystemRulesSpec(given, MergedRules(params, rules, model, pyStr)), model, Options(params)))
  }

  /**
   * `_build_payload(prompt, params)` of the later definition, which is
   * the one in effect. The given message list is copied into a fresh
   * array here, so the caller's own list is not shared.
   */
  method BuildPayload(prompt: string, params: map<string, Json>, selfModel: Option<string>,
                      rules: string, pyStr: PyStr, keysOf: KeyOrder) returns (r: Result<map<string, Json>>)
    ensures r == BuildPayloadSpec(prompt, params, selfModel, rules, pyStr, keysOf)
  {
    var options := Options(params);
    var model := PayloadModel(params, selfModel);
    var merged := MergedRules(params, rules, model, pyStr);
    var given := GivenMessages(params, prompt, keysOf);
    if given.Err? {
      return Err(given.msg);
    }
    var list := new Json[|given.value|](k requires 0 <= k < |given.value| => given.value[k]);
    assert list[..] == given.value;
    var messages := EnsureSystemRules(list, merged);
    var payload := map["messages" := JArr(messages[..])];
    if Truthy(model) {
      payload := payload["model" := model];
    }
    payload := payload["cache_prompt" := JBool(false)];
    return Ok(payload + options);
  }

  /** Building fails only when the given messages are a bare boolean or number. */
  lemma PayloadFailsOnlyOnScalars(prompt: string, params: map<string, Json>, selfModel: Option<string>,
                                  rules: string, pyStr: PyStr, keysOf: KeyOrder)
    ensures var given := GetOr(params, "messages", JNull);
            BuildPayloadSpec(prompt, params, selfModel, rules, pyStr, keysOf).Err? <==>
              given.JBool? || given.JInt? || given.JFloat?
  {
  }

  /** The rules are merged into the messages, and the model is sent exactly when it is truthy. */
  lemma PayloadMessagesAndModel(prompt: string, params: map<string, Json>, selfModel: Option<string>,
                                rules: string, pyStr: PyStr, keysOf: KeyOrder)
    requires GivenMessages(params, prompt, keysOf).Ok?
    ensures var r := BuildPayloadSpec(prompt, params, selfModel, rules, pyStr, keysOf);
            var model := PayloadModel(params, selfModel);
            && r.Ok?
            && r.value["messages"] == JArr(EnsureSystemRulesSpec(GivenMessages(params, prompt, keysOf).value,
                                                                MergedRules(params, rules, model, pyStr)))
            && ("model" in r.value <==> Truthy(model))
            && ("model" in r.value ==> r.value["model"] == model)
  {
  }

  /**
   * The keys the backend consumes are gone, every other option is sent
   * as given, the four sampling defaults are filled in only where
   * absent, and `cache_prompt` is false unless the caller set it.
   */
  lemma PayloadOptions(prompt: string, params: map<string, Json>, selfModel: Option<string>,
                       rules: string, pyStr: PyStr, keysOf: KeyOrder)
    requires GivenMessages(params, prompt, keysOf).Ok?
    ensures var r := BuildPayloadSpec(prompt, params, selfModel, rules, pyStr, keysOf);
            && r.Ok?
            && r.value["cache_prompt"] == GetOr(params, "cache_prompt", JBool(false))
            && "role" !in r.value && "stream_callback" !in r.value && "system_prompt" !in r.value
            && r.value["temperature"] == GetOr(params, "temperature", JInt(0))
            && r.value["top_p"] == GetOr(params, "top_p", JInt(1))
            && r.value["max_tokens"] == GetOr(params, "max_tokens", JInt(512))
            && r.value["seed"] == GetOr(params, "seed", JInt(7))
            && (forall k :: k in params && k !in Dropped ==> r.value[k] == params[k])
  {
    var o := Options(params);
    var model := PayloadModel(params, selfModel);
    var p := Assembled(EnsureSystemRulesSpec(GivenMessages(params, prompt, keysOf).value,
                                             MergedRules(params, rules, model, pyStr)), model, o);
    assert BuildPayloadSpec(prompt, params, selfModel, rules, pyStr, keysOf) == Ok(p);
  }

  /** With no messages given, the payload carries the merged rules and then the prompt as the user. */
  lemma DefaultMessages(prompt: string, params: map<string, Json>, rules: string, model: Json, pyStr: PyStr,
                        keysOf: KeyOrder)
    requires GetOr(params, "messages", JNull) == JNull
    ensures GivenMessages(params, prompt, keysOf) == Ok([Message("user", prompt)])
    ensures EnsureSystemRulesSpec([Message("user", prompt)], MergedRules(params, rules, model, pyStr))
              == [Message("system", MergedRules(params, rules, model, pyStr)), Message("user", prompt)]
  {
    assert !IsSystem(Message("user", prompt)) by {
      assert Get(Message("user", prompt).fields, "role") == JStr("user");
      assert "user" != "system" by { assert "user"[0] != "system"[0]; }
    }
    assert FirstSystem([Message("user", prompt)]).None?;
  }

  // ------------------------------------------------------------ reading answers

  /** `_extract_content(data)`: the first choice's message content, else its text, else "". */
  function ExtractContent(data: map<string, Json>): (r: string)
    ensures var choices := Get(data, "choices");
            !(choices.JArr? && |choices.items| > 0 && choices.items[0].JObj?) ==> r == ""
    ensures var choices := Get(data, "choices");
            choices.JArr? && |choices.items| > 0 && choices.items[0].JObj? ==>
              var first := choices.items[0].fields;
              var message := Get(first, "message");
              if message.JObj? && Get(message.fields, "content").JStr? then r == Get(message.fields, "content").s
              else if Get(first, "text").JStr? then r == Get(first, "text").s
              else r == ""
  {
    var choices := Get(data, "choices");
    if !choices.JArr? || |choices.items| == 0 then ""
    else
      var first := choices.items[0];
      if !first.JObj? then ""
      else
        var message := Get(first.fields, "message");
        if message.JObj? && Get(message.fields, "content").JStr? then Get(message.fields, "content").s
        else if Get(first.fields, "text").JStr? then Get(first.fields, "text").s
        else ""
  }

  // ------------------------------------------------------------ streaming

  const DataPrefix: string := "data:"

  /** `_iter_sse_lines(lines)`: the payload of every `data:` line, trimmed; every other line is dropped. */
  function IterSseLines(lines: seq<string>): (r: seq<string>)
    ensures |r| <= |lines|
  {
    if |lines| == 0 then []
    else
      var stripped := Strip(lines[0]);
      var rest := IterSseLines(lines[1..]);
      if stripped != "" && IsPrefix(DataPrefix, stripped) then [Strip(stripped[|DataPrefix|..])] + rest
      else rest
  }

  /** The filter works line by line, so it distributes over concatenation. */
  lemma {:induction false} IterSseLinesAppend(a: seq<string>, b: seq<string>)
    ensures IterSseLines(a + b) == IterSseLines(a) + IterSseLines(b)
  {
    if |a| > 0 {
      assert (a + b)[0] == a[0] && (a + b)[1..] == a[1..] + b;
      IterSseLinesAppend(a[1..], b);
    } else {
      assert a + b == b;
    }
  }

  /** A line that does not start with `data:` once trimmed yields nothing. */
  lemma NonDataLineDropped(line: string)
    requires !IsPrefix(DataPrefix, Strip(line))
    ensures IterSseLines([line]) == []
  {
    assert [line][1..] == [];
  }

  /**
   * The text one streamed event contributes: the first choice's delta
   * content, or its text when it has no delta object; "" otherwise.
   */
  function Delta(payload: map<string, Json>): string {
    var choices := Get(payload, "choices");
    if !choices.JArr? || |choices.items| == 0 || !choices.items[0].JObj? then ""
    else
      var first := choices.items[0].fields;
      var message := Get(first, "delta");
      if message.JObj? then
        (if Get(message.fields, "content").JStr? then Get(message.fields, "content").s else "")
      else if Get(first, "text").JStr? then Get(first, "text").s
      else ""
  }

  /**
   * The non-empty deltas of the data items up to the first `[DONE]`;
   * an item that is not JSON is skipped, and one that decodes to
   * something other than an object fails (`payload.get` raises).
   */
  function StreamDeltas(items: seq<string>, decode: Decoder): (r: Result<seq<string>>)
    ensures r.Ok? ==> forall k :: 0 <= k < |r.value| ==> r.value[k] != ""
  {
    if |items| == 0 || items[0] == "[DONE]" then Ok([])
    else
      match decode(items[0])
      case None => StreamDeltas(items[1..], decode)
      case Some(payload) =>
        if !payload.JObj? then Err("AttributeError")
        else
          var rest :- StreamDeltas(items[1..], decode);
          var d := Delta(payload.fields);
          if d != "" then Ok([d] + rest) else Ok(rest)
  }

  /** Nothing after the first `[DONE]` is read. */
  lemma {:induction false} DoneStopsStream(before: seq<string>, after: seq<string>, decode: Decoder)
    requires "[DONE]" !in before
    ensures StreamDeltas(before + ["[DONE]"] + after, decode) == StreamDeltas(before, decode)
  {
    var s := before + ["[DONE]"] + after;
    if |before| == 0 {
      assert s[0] == "[DONE]";
    } else {
      assert s[0] == before[0] && s[1..] == before[1..] + ["[DONE]"] + after;
      DoneStopsStream(before[1..], after, decode);
    }
  }

  /**
   * The streaming loop of `complete`: the deltas joined in order, and the
   * callback (when there is one) called once with each delta.
   */
  method StreamText(lines: seq<string>, decode: Decoder, hasCallback: bool)
    returns (r: Result<string>, ghost callbacks: seq<string>)
    ensures var d := StreamDeltas(IterSseLines(lines), decode);
            match d
            case Err(m) => r == Err(m)
            case Ok(deltas) => r == Ok(Concat(deltas)) && callbacks == (if hasCallback then deltas else [])
  {
    var items := IterSseLines(lines);
    var rawParts: seq<string> := [];
    callbacks := [];
    var i := 0;
    assert items[0..] == items;
    match StreamDeltas(items, decode) {
      case Ok(rest) => assert rawParts + rest == rest;
      case Err(_) =>
    }
    while i < |items|
      invariant i <= |items|
      invariant callbacks == (if hasCallback then rawParts else [])
      invariant StreamDeltas(items, decode) ==
                  match StreamDeltas(items[i..], decode)
                  case Ok(rest) => Ok(rawParts + rest)
                  case Err(m) => Err(m)
    {
      var data := items[i];
      if data == "[DONE]" {
        assert rawParts + [] == rawParts;
        break;
      }
      assert items[i..][1..] == items[i + 1..];
      var payload := decode(data);
      if payload.None? {
        i := i + 1;
        continue;
      }
      if !payload.value.JObj? {
        return Err("AttributeError"), callbacks;
      }
      var delta := Delta(payload.value.fields);
      if delta != "" {
        match StreamDeltas(items[i + 1..], decode) {
          case Ok(rest) => assert rawParts + ([delta] + rest) == (rawParts + [delta]) + rest;
          case Err(_) =>
        }
        rawParts := rawParts + [delta];
        if hasCallback {
          callbacks := callbacks + [delta];
        }
      }
      i := i + 1;
    }
    if i == |items| {
      assert items[i..] == [];
      assert rawParts + [] == rawParts;
    }
    return Ok(Concat(rawParts)), callbacks;
  }
}
