/**
 * The tool settings: HTTP allowlist, cache location and limits. The
 * allowlist is stored lower-cased, both at construction and when it is
 * replaced.
 */
module Settings {
  import opened Wrappers
  import opened Strings

  const CacheFileName: string := ".spectator_http_cache.sqlite"

  /** `{item.lower() for item in items}` */
  function LowerSet(items: set<string>): (r: set<string>)
    ensures forall x :: x in items ==> Lower(x) in r
    ensures forall y :: y in r ==> exists x :: x in items && Lower(x) == y
  {
    set x | x in items :: Lower(x)
  }

  /** A lower-cased set stays as it is when lower-cased again. */
  lemma LowerSetIdempotent(items: set<string>)
    ensures LowerSet(LowerSet(items)) == LowerSet(items)
  {
    forall y | y in LowerSet(items) ensures Lower(y) == y {
      var x :| x in items && Lower(x) == y;
      LowerIdempotent(x);
    }
  }

  /** `Path(root) / name`, with `/` as the separator. */
  function JoinPath(root: string, name: string): string {
    root + "/" + name
  }

  class ToolSettings {
    var httpAllowlistEnabled: bool
    var httpAllowlist: set<string>
    var httpCachePath: Option<string>
    var httpCacheTtl: real
    var httpTimeout: real
    var httpMaxBytes: int

    /** The dataclass constructor followed by `__post_init__`. */
    constructor (enabled: bool, allowlist: set<string>, cachePath: Option<string>,
                 ttl: real, timeout: real, maxBytes: int)
      ensures httpAllowlistEnabled == enabled && httpAllowlist == LowerSet(allowlist)
      ensures httpCachePath == cachePath && httpCacheTtl == ttl
      ensures httpTimeout == timeout && httpMaxBytes == maxBytes
    {
      httpAllowlistEnabled := enabled;
      httpAllowlist := LowerSet(allowlist);
      httpCachePath := cachePath;
      httpCacheTtl := ttl;
      httpTimeout := timeout;
      httpMaxBytes := maxBytes;
    }

    /** `ToolSettings()` with every default. */
    constructor Default()
      ensures !httpAllowlistEnabled && httpAllowlist == {} && httpCachePath == None
      ensures httpCacheTtl == 3600.0 && httpTimeout == 10.0 && httpMaxBytes == 1000000
    {
      httpAllowlistEnabled := false;
      httpAllowlist := {};
      httpCachePath := None;
      httpCacheTtl := 3600.0;
      httpTimeout := 10.0;
      httpMaxBytes := 1000000;
    }

    /** `with_allowlist`: the allowlist is replaced by the lower-cased entries; the same object is returned. */
    method WithAllowlist(allowlist: set<string>) returns (self: ToolSettings)
      modifies this
      ensures self == this && httpAllowlist == LowerSet(allowlist)
      ensures httpAllowlistEnabled == old(httpAllowlistEnabled) && httpCachePath == old(httpCachePath)
      ensures httpCacheTtl == old(httpCacheTtl) && httpTimeout == old(httpTimeout)
      ensures httpMaxBytes == old(httpMaxBytes)
    {
      httpAllowlist := LowerSet(allowlist);
      return this;
    }
  }

  /** `default_tool_settings(root)`: the defaults, with the cache file under the root. */
  method DefaultToolSettings(root: string) returns (s: ToolSettings)
    ensures fresh(s)
    ensures !s.httpAllowlistEnabled && s.httpAllowlist == {}
    ensures s.httpCachePath == Some(JoinPath(root, CacheFileName))
    ensures s.httpCacheTtl == 3600.0 && s.httpTimeout == 10.0 && s.httpMaxBytes == 1000000
  {
    s := new ToolSettings(false, {}, Some(JoinPath(root, CacheFileName)), 3600.0, 10.0, 1000000);
  }
}
