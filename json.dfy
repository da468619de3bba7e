/** The decoded JSON request as the Python code sees it: `dict`, `list`, `str`,
    `int`/`float`, `bool` and `None`, together with the three Python operations
    the core applies to such values. */
module Json {
  import opened Base

  /** A decoded JSON value. Integers and floats are both `Num`; JSON `null`
      is Python's `None`. */
  datatype Json =
    | Null
    | Bool(b: bool)
    | Num(n: real)
    | Str(s: string)
    | List(items: seq<Json>)
    | Map(fields: map<string, Json>)

  /** `d.get(key, default)` on a decoded JSON object. An explicit `null`
      under `key` is returned as `Null`, which the callers then treat exactly
      like a missing key (`is None`). */
  function Get(fields: map<string, Json>, key: string, default: Json): Json
  {
    if key in fields then fields[key] else default
  }

  /** `isinstance(v, (int, float))`, with the number it denotes. In Python
      `bool` is a subclass of `int`, so `true` and `false` pass as 1 and 0. */
  function Numeric(v: Json): (r: Option<real>)
    ensures v.Num? ==> r == Some(v.n)
    ensures v.Bool? ==> r == Some(if v.b then 1.0 else 0.0)
    ensures r.Some? <==> v.Num? || v.Bool?
  {
    match v
    case Num(n) => Some(n)
    case Bool(b) => Some(if b then 1.0 else 0.0)
    case _ => None
  }

  /** Whether `key` occurs in `s` starting at position `i`. */
  predicate OccursAt(key: string, s: string, i: int)
  {
    0 <= i && i + |key| <= |s| && s[i..i + |key|] == key
  }

  /** Whether `key` occurs in `s` as a contiguous substring. */
  predicate IsSubstring(key: string, s: string)
  {
    exists i | 0 <= i <= |s| - |key| :: OccursAt(key, s, i)
  }

  /** Python's `key in container` for a string `key`: key membership for a
      dict, element membership for a list, substring search for a string.
      `None` stands for the TypeError raised for `None`, numbers and bools. */
  function Membership(key: string, container: Json): Option<bool>
  {
    match container
    case Map(fields) => Some(key in fields)
    case List(items) => Some(Str(key) in items)
    case Str(s) => Some(IsSubstring(key, s))
    case _ => None
  }

  /** Whether Python can hash the value (lists and dicts cannot be dict keys). */
  predicate Hashable(v: Json)
  {
    !v.List? && !v.Map?
  }
}
