/**
 * The `http.get` tool: the capability gate, the byte- and time-capped
 * body reader, and the handler's order of checks around the cache.
 * URL parsing, the network, UTF-8 decoding and HTML-to-text conversion
 * are parameters; the clock readings are explicit.
 */
module HttpTool {
  import opened Wrappers
  import opened JsonValue
  import opened Strings
  import opened Settings
  import opened HttpCaches

  /** The parts of `urlparse(url)` the tool looks at. */
  datatype ParsedUrl = ParsedUrl(scheme: string, hostname: Option<string>)

  /** `_extract_domain`, given the parsed URL. */
  function ExtractDomain(p: ParsedUrl): (r: Result<string>)
    ensures p.scheme != "http" && p.scheme != "https" ==> r == Err("url must be http or https")
    ensures (p.scheme == "http" || p.scheme == "https") && (p.hostname.None? || p.hostname.value == "") ==>
              r == Err("url must include a hostname")
    ensures r.Ok? <==> (p.scheme == "http" || p.scheme == "https") && p.hostname.Some? && p.hostname.value != ""
    ensures r.Ok? ==> r.value == Lower(p.hostname.value)
  {
    if p.scheme != "http" && p.scheme != "https" then Err("url must be http or https")
    else if p.hostname.None? || p.hostname.value == "" then Err("url must include a hostname")
    else Ok(Lower(p.hostname.value))
  }

  /**
   * `_is_allowed`: a `net:<domain>` grant admits the domain outright;
   * otherwise `net` is needed, and with the allowlist switched on the
   * domain must also be listed.
   */
  function IsAllowed(domain: string, capabilities: seq<string>, allowlistEnabled: bool, allowlist: set<string>)
    : (r: bool)
    ensures "net:" + domain in capabilities ==> r
    ensures "net:" + domain !in capabilities && "net" !in capabilities ==> !r
    ensures "net:" + domain !in capabilities && "net" in capabilities ==>
              (r <==> !allowlistEnabled || domain in allowlist)
  {
    if "net:" + domain in capabilities then true
    else if "net" !in capabilities then false
    else if allowlistEnabled then domain in allowlist
    else true
  }

  // ------------------------------------------------------------ _read_limited

  const TimeLimitExceeded: string := "response exceeded time limit"
  const ByteLimitExceeded: string := "response exceeded byte limit"

  /**
   * The body a stream delivers: its reads up to the first empty one
   * (`response.read(8192)` returning `b""`) or the end of the stream.
   */
  function Body(stream: seq<seq<Byte>>, i: nat): seq<Byte>
    requires i <= |stream|
    decreases |stream| - i
  {
    if i == |stream| || stream[i] == [] then [] else stream[i] + Body(stream, i + 1)
  }

  /**
   * The reading loop of `_read_limited` from read `i` on, `total` bytes
   * already taken: before each read the elapsed time `clock(i)` is
   * checked, after it the running total.
   */
  function ReadFrom(stream: seq<seq<Byte>>, clock: nat -> real, timeout: real, maxBytes: int, i: nat, total: int)
    : Result<seq<Byte>>
    requires i <= |stream|
    decreases |stream| - i
  {
    if clock(i) > timeout then Err(TimeLimitExceeded)
    else if i == |stream| || stream[i] == [] then Ok([])
    else if total + |stream[i]| > maxBytes then Err(ByteLimitExceeded)
    else
      match ReadFrom(stream, clock, timeout, maxBytes, i + 1, total + |stream[i]|)
      case Ok(rest) => Ok(stream[i] + rest)
      case Err(m) => Err(m)
  }

  /** What a successful read returns is exactly the body, within the byte budget. */
  lemma {:induction false} ReadFromIsBody(stream: seq<seq<Byte>>, clock: nat -> real, timeout: real, maxBytes: int,
                                          i: nat, total: int)
    requires i <= |stream|
    requires ReadFrom(stream, clock, timeout, maxBytes, i, total).Ok?
    ensures var data := ReadFrom(stream, clock, timeout, maxBytes, i, total).value;
            data == Body(stream, i) && (data == [] || total + |data| <= maxBytes)
    decreases |stream| - i
  {
    if i < |stream| && stream[i] != [] {
      ReadFromIsBody(stream, clock, timeout, maxBytes, i + 1, total + |stream[i]|);
    }
  }

  /** The number of reads the loop makes: every non-empty read, then the empty one or the end. */
  function ReadCount(stream: seq<seq<Byte>>, i: nat): (n: nat)
    requires i <= |stream|
    ensures i <= n <= |stream|
    decreases |stream| - i
  {
    if i == |stream| || stream[i] == [] then i else ReadCount(stream, i + 1)
  }

  /**
   * When no clock check fires and the whole body fits in the budget, the
   * read succeeds with the body.
   */
  lemma {:induction false} ReadFromSucceeds(stream: seq<seq<Byte>>, clock: nat -> real, timeout: real, maxBytes: int,
                                            i: nat, total: int)
    requires i <= |stream|
    requires forall j :: i <= j <= ReadCount(stream, i) ==> clock(j) <= timeout
    requires total + |Body(stream, i)| <= maxBytes
    ensures ReadFrom(stream, clock, timeout, maxBytes, i, total) == Ok(Body(stream, i))
    decreases |stream| - i
  {
    assert clock(i) <= timeout;
    if i < |stream| && stream[i] != [] {
      assert ReadCount(stream, i) == ReadCount(stream, i + 1);
      assert |Body(stream, i)| == |stream[i]| + |Body(stream, i + 1)|;
      ReadFromSucceeds(stream, clock, timeout, maxBytes, i + 1, total + |stream[i]|);
    }
  }

  /** A body larger than the budget is refused, unless the clock check fires first. */
  lemma {:induction false} OversizeRefused(stream: seq<seq<Byte>>, clock: nat -> real, timeout: real, maxBytes: int,
                                           i: nat, total: int)
    requires i <= |stream|
    requires total + |Body(stream, i)| > maxBytes && Body(stream, i) != []
    ensures ReadFrom(stream, clock, timeout, maxBytes, i, total) in {Err(TimeLimitExceeded), Err(ByteLimitExceeded)}
    decreases |stream| - i
  {
    if clock(i) <= timeout && total + |stream[i]| <= maxBytes {
      var rest := Body(stream, i + 1);
      assert rest != [];
      OversizeRefused(stream, clock, timeout, maxBytes, i + 1, total + |stream[i]|);
    }
  }

  /** `_read_limited(response, timeout_s, max_bytes)`. */
  method ReadLimited(stream: seq<seq<Byte>>, clock: nat -> real, timeout: real, maxBytes: int)
    returns (r: Result<seq<Byte>>)
    ensures r == ReadFrom(stream, clock, timeout, maxBytes, 0, 0)
  {
    var chunks: seq<Byte> := [];
    var total := 0;
    var i := 0;
    match ReadFrom(stream, clock, timeout, maxBytes, 0, 0) {
      case Ok(rest) => assert chunks + rest == rest;
      case Err(_) =>
    }
    while true
      invariant i <= |stream| && total == |chunks|
      invariant ReadFrom(stream, clock, timeout, maxBytes, 0, 0) ==
                  match ReadFrom(stream, clock, timeout, maxBytes, i, total)
                  case Ok(rest) => Ok(chunks + rest)
                  case Err(m) => Err(m)
      decreases |stream| - i
    {
      if clock(i) > timeout {
        return Err(TimeLimitExceeded);
      }
      var chunk := if i < |stream| then stream[i] else [];
      if chunk == [] {
        assert chunks + [] == chunks;
        break;
      }
      total := total + |chunk|;
      if total > maxBytes {
        return Err(ByteLimitExceeded);
      }
      match ReadFrom(stream, clock, timeout, maxBytes, i + 1, total) {
        case Ok(rest) => assert chunks + (chunk + rest) == (chunks + chunk) + rest;
        case Err(_) =>
      }
      chunks := chunks + chunk;
      i := i + 1;
    }
    return Ok(chunks);
  }

  // ------------------------------------------------------------ the handler

  /** What `urlopen` gives: status, content type and the stream of reads with their clock, or an error. */
  datatype Response =
    | Response(status: int, contentType: string, stream: seq<seq<Byte>>, clock: nat -> real)
    | FetchFailed(msg: string)

  /** The foreign parts of the handler. */
  datatype HttpOracles = HttpOracles(
    parse: string -> ParsedUrl,
    fetch: string -> Response,
    decode: seq<Byte> -> string,
    htmlToText: string -> string)

  /** The text the tool reports for a fetched body. */
  function ResponseText(body: seq<Byte>, contentType: string, o: HttpOracles): string {
    var text := o.decode(body);
    if Contains(Lower(contentType), "html") || Contains(Lower(text), "<html") then o.htmlToText(text) else text
  }

  function Answer(url: string, status: int, text: string, hit: bool): Json {
    JObj(map["url" := JStr(url), "status" := JInt(status), "text" := JStr(text), "cache_hit" := JBool(hit)])
  }

  /** The checks before any cache lookup or fetch; the URL and `use_cache` when they pass. */
  function Gate(args: map<string, Json>, capabilities: seq<string>, allowlistEnabled: bool,
                allowlist: set<string>, o: HttpOracles): (r: Result<(string, bool)>)
    ensures !Get(args, "url").JStr? ==> r == Err("url must be a string")
    ensures r.Ok? ==>
              && Get(args, "url") == JStr(r.value.0)
              && GetOr(args, "use_cache", JBool(true)) == JBool(r.value.1)
              && var d := ExtractDomain(o.parse(r.value.0));
                 d.Ok? && IsAllowed(d.value, capabilities, allowlistEnabled, allowlist)
    ensures (Get(args, "url").JStr? && GetOr(args, "use_cache", JBool(true)).JBool? &&
             ExtractDomain(o.parse(Get(args, "url").s)).Ok? &&
             !IsAllowed(ExtractDomain(o.parse(Get(args, "url").s)).value, capabilities, allowlistEnabled, allowlist))
              ==> r == Err("network access denied")
  {
    var url := Get(args, "url");
    var useCache := GetOr(args, "use_cache", JBool(true));
    if !url.JStr? then Err("url must be a string")
    else if !useCache.JBool? then Err("use_cache must be a boolean")
    else
      var domain :- ExtractDomain(o.parse(url.s));
      if !IsAllowed(domain, capabilities, allowlistEnabled, allowlist) then Err("network access denied")
      else Ok((url.s, useCache.b))
  }

  /**
   * `http_get_handler(settings)(args, context)`, with the granted
   * capabilities of the context's state. Nothing is looked up or fetched
   * unless the gate passes; a live cache entry is answered without a
   * fetch; a fetched answer is stored when caching is on. The executor
   * calls handlers with the arguments alone, so this is the handler as
   * called with a context, not as `ToolExecutor` calls it.
   */
  method HttpGet(args: map<string, Json>, capabilities: seq<string>, settings: ToolSettings,
                 cache: Option<HttpCache>, o: HttpOracles, getTime: real, setTime: real)
    returns (r: Result<Json>, ghost fetched: bool)
    modifies if cache.Some? then {cache.value} else {}
    ensures var gate := Gate(args, capabilities, settings.httpAllowlistEnabled, settings.httpAllowlist, o);
      && (gate.Err? ==> r == Err(gate.msg) && !fetched)
      && (gate.Ok? ==>
            var (url, useCache) := gate.value;
            var hit := if useCache && cache.Some? then Lookup(old(cache.value.rows), cache.value.ttl, url, getTime) else None;
            if hit.Some? then
              r == Ok(Answer(url, hit.value.status, hit.value.text, true)) && !fetched
            else
              && fetched
              && match o.fetch(url)
                 case FetchFailed(m) => r == Err(m)
                 case Response(status, contentType, stream, clock) =>
                   match ReadFrom(stream, clock, settings.httpTimeout, settings.httpMaxBytes, 0, 0)
                   case Err(m) => r == Err(m)
                   case Ok(body) =>
                     var text := ResponseText(body, contentType, o);
                     && r == Ok(Answer(url, status, text, false))
                     && (useCache && cache.Some? ==>
                           cache.value.rows == Upsert(old(cache.value.rows), url, status, text, setTime)))
      && (cache.Some? && !(r.Ok? && fetched && Gate(args, capabilities, settings.httpAllowlistEnabled,
                                                     settings.httpAllowlist, o).value.1) ==>
            cache.value.rows == old(cache.value.rows))
  {
    fetched := false;
    var gate := Gate(args, capabilities, settings.httpAllowlistEnabled, settings.httpAllowlist, o);
    if gate.Err? {
      return Err(gate.msg), fetched;
    }
    var (url, useCache) := gate.value;
    if useCache && cache.Some? {
      var cached := cache.value.Get(url, getTime);
      if cached.Some? {
        return Ok(Answer(url, cached.value.status, cached.value.text, true)), fetched;
      }
    }
    fetched := true;
    var response := o.fetch(url);
    if response.FetchFailed? {
      return Err(response.msg), fetched;
    }
    var body := ReadLimited(response.stream, response.clock, settings.httpTimeout, settings.httpMaxBytes);
    if body.Err? {
      return Err(body.msg), fetched;
    }
    var text := ResponseText(body.value, response.contentType, o);
    if useCache && cache.Some? {
      cache.value.Set(url, response.status, text, setTime);
    }
    return Ok(Answer(url, response.status, text, false)), fetched;
  }

  /** `HttpCache(cache_path, ttl) if cache_path else None`, over the rows the file already holds. */
  method HandlerCache(settings: ToolSettings, stored: map<string, Row>) returns (cache: Option<HttpCache>)
    ensures cache.Some? <==> settings.httpCachePath.Some?
    ensures cache.Some? ==> fresh(cache.value) && cache.value.ttl == settings.httpCacheTtl && cache.value.rows == stored
  {
    if settings.httpCachePath.None? {
      return None;
    }
    var c := new HttpCache(settings.httpCacheTtl, stored);
    return Some(c);
  }
}
