/**
 * Decoded JSON values, as Python's `json.loads` produces them: `None`, `bool`,
 * `int`, `float`, `str`, `list` and `dict`.
 */
module JsonValue {
  import opened Wrappers

  datatype Json =
    | JNull
    | JBool(b: bool)
    | JInt(i: int)
    | JFloat(f: real)
    | JStr(s: string)
    | JArr(items: seq<Json>)
    | JObj(fields: map<string, Json>)

  /**
   * Python `json.loads`: the decoder is a parameter of every operation that
   * parses text, `None` standing for `JSONDecodeError`.
   */
  type Decoder = string -> Option<Json>

  /** Python `d.get(key)`: an absent key reads as `None`, exactly like a stored `null`. */
  function Get(fields: map<string, Json>, key: string): (v: Json)
    ensures key !in fields ==> v == JNull
    ensures key in fields ==> v == fields[key]
  {
    if key in fields then fields[key] else JNull
  }

  /** Python `d.get(key, default)`: the default only when the key is absent, not for a stored `null`. */
  function GetOr(fields: map<string, Json>, key: string, default: Json): (v: Json)
    ensures key !in fields ==> v == default
    ensures key in fields ==> v == fields[key]
  {
    if key in fields then fields[key] else default
  }

  /** Python `isinstance(v, int)`, which also holds for `True` and `False`. */
  predicate IsPyInt(v: Json) {
    v.JInt? || v.JBool?
  }

  function PyIntValue(v: Json): int
    requires IsPyInt(v)
  {
    if v.JInt? then v.i else if v.b then 1 else 0
  }

  /** Python `isinstance(v, (int, float))`. */
  predicate IsNumber(v: Json) {
    IsPyInt(v) || v.JFloat?
  }

  function NumberValue(v: Json): real
    requires IsNumber(v)
  {
    if v.JFloat? then v.f else PyIntValue(v) as real
  }

  /** Python `isinstance(v, list) and all(isinstance(x, str) for x in v)`. */
  predicate IsStringList(v: Json) {
    v.JArr? && forall k :: 0 <= k < |v.items| ==> v.items[k].JStr?
  }

  function StringsOf(v: Json): (r: seq<string>)
    requires IsStringList(v)
    ensures |r| == |v.items| && forall k :: 0 <= k < |r| ==> v.items[k] == JStr(r[k])
  {
    seq(|v.items|, k requires 0 <= k < |v.items| => v.items[k].s)
  }

  function StringList(xs: seq<string>): (v: Json)
    ensures IsStringList(v) && StringsOf(v) == xs
  {
    JArr(seq(|xs|, k requires 0 <= k < |xs| => JStr(xs[k])))
  }
}
