/**
 * The HTTP response cache: one row per URL holding the status, the text
 * and when it was stored, read back only while it is at most `ttl`
 * seconds old. The sqlite table is the map `rows`; the clock readings
 * are parameters.
 */
module HttpCaches {
  import opened Wrappers

  datatype Row = Row(status: int, text: string, storedTs: real)

  /** `CachedHttpResponse` */
  datatype CachedHttpResponse = CachedHttpResponse(url: string, status: int, text: string, storedTs: real)

  /** What `get(url)` answers at time `now`: a row that is not older than `ttl`. */
  function Lookup(rows: map<string, Row>, ttl: real, url: string, now: real): (r: Option<CachedHttpResponse>)
    ensures url !in rows ==> r.None?
    ensures r.Some? <==> url in rows && now - rows[url].storedTs <= ttl
    ensures r.Some? ==> r.value == CachedHttpResponse(url, rows[url].status, rows[url].text, rows[url].storedTs)
  {
    if url !in rows then None
    else
      var row := rows[url];
      if now - row.storedTs > ttl then None
      else Some(CachedHttpResponse(url, row.status, row.text, row.storedTs))
  }

  /** The upsert of `set`: the URL's row is replaced by the new status, text and time. */
  function Upsert(rows: map<string, Row>, url: string, status: int, text: string, now: real): (r: map<string, Row>)
    ensures r.Keys == rows.Keys + {url}
  {
    rows[url := Row(status, text, now)]
  }

  /** A row stored at `now` is read back at `now` whenever the time to live is not negative. */
  lemma SetThenGet(rows: map<string, Row>, ttl: real, url: string, status: int, text: string, now: real)
    requires ttl >= 0.0
    ensures Lookup(Upsert(rows, url, status, text, now), ttl, url, now) == Some(CachedHttpResponse(url, status, text, now))
  {
  }

  /** A row exactly `ttl` old is still served; one a moment older is not. */
  lemma TtlBoundary(rows: map<string, Row>, ttl: real, url: string)
    requires url in rows
    ensures Lookup(rows, ttl, url, rows[url].storedTs + ttl).Some?
    ensures forall later: real :: later > rows[url].storedTs + ttl ==> Lookup(rows, ttl, url, later).None?
  {
  }

  /** Storing one URL leaves what every other URL reads as it was. */
  lemma SetKeepsOthers(rows: map<string, Row>, ttl: real, url: string, status: int, text: string,
                       now: real, other: string, when: real)
    requires other != url
    ensures Lookup(Upsert(rows, url, status, text, now), ttl, other, when) == Lookup(rows, ttl, other, when)
  {
  }

  class HttpCache {
    var rows: map<string, Row>
    const ttl: real

    /** `HttpCache(path, ttl_s)` over a table that already holds `rows` (`CREATE TABLE IF NOT EXISTS`). */
    constructor (ttl: real, rows: map<string, Row>)
      ensures this.ttl == ttl && this.rows == rows
    {
      this.ttl := ttl;
      this.rows := rows;
    }

    /** `get(url)` at time `now`; an expired row is not served and not removed. */
    method Get(url: string, now: real) returns (r: Option<CachedHttpResponse>)
      ensures r == Lookup(rows, ttl, url, now)
    {
      if url !in rows {
        return None;
      }
      var row := rows[url];
      if now - row.storedTs > ttl {
        return None;
      }
      return Some(CachedHttpResponse(url, row.status, row.text, row.storedTs));
    }

    /** `set(url, status, text)` at time `now`: insert, or overwrite every column of the URL's row. */
    method Set(url: string, status: int, text: string, now: real)
      modifies this
      ensures rows == Upsert(old(rows), url, status, text, now)
    {
      rows := rows[url := Row(status, text, now)];
    }
  }
}
