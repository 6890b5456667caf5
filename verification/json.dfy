/** A decoded JSON document, as Python's `json` module hands it back:
    `None`, `bool`, `int`, `float`, `str`, `list` or `dict`. */
module JsonValues {

  datatype Json =
    | Null
    | Bool(b: bool)
    | Int(i: int)
    | Float(x: real)
    | Str(s: string)
    | Array(items: seq<Json>)
    | Object(fields: map<string, Json>)

  /** Python's `v == n` for a decoded value `v` and an `int` `n`: an integral
      float compares equal, and so does a bool (`True == 1`). */
  predicate EqualsInt(v: Json, n: int) {
    match v
    case Int(i) => i == n
    case Float(x) => x == n as real
    case Bool(b) => n == (if b then 1 else 0)
    case _ => false
  }

  /** `d.get(key)` on a dict: the value, or `None` when the key is absent. */
  function Get(fields: map<string, Json>, key: string): Json
  {
    if key in fields then fields[key] else Null
  }

  /** `d.get(key, default)` on a dict. */
  function GetOr(fields: map<string, Json>, key: string, default: Json): Json
  {
    if key in fields then fields[key] else default
  }
}
