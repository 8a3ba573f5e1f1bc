/** JSON values as the services see them after `json.loads`, and the few
    Python operations the services apply to such values (truthiness,
    `dict.get`, the `in` test, `str()` in an f-string, `.strip()`). */
module Json {
  import opened Common
  import Strings

  /** A parsed JSON value. Objects are string-keyed dictionaries; numbers
      are integers. */
  datatype JValue =
    | JNull
    | JBool(b: bool)
    | JNum(n: int)
    | JStr(s: string)
    | JArr(items: seq<JValue>)
    | JObj(fields: map<string, JValue>)

  /** A Python `dict` with string keys: a scene, a table row, a request body. */
  type Record = map<string, JValue>

  /** Python's `bool(v)`: false exactly for None, False, 0, "", [] and {}. */
  predicate Truthy(v: JValue)
    ensures Truthy(v) <==> v !in {JNull, JBool(false), JNum(0), JStr(""), JArr([]), JObj(map[])}
  {
    match v
    case JNull => false
    case JBool(b) => b
    case JNum(n) => n != 0
    case JStr(s) => s != ""
    case JArr(xs) => xs != []
    case JObj(m) => m != map[]
  }

  /** `d.get(k, default)`. */
  function Get(d: Record, k: string, default: JValue): JValue {
    if k in d then d[k] else default
  }

  /** Python's `key in container` for a string key: a dictionary tests its
      keys, a list its elements, a string its substrings; any other value
      raises `TypeError` (None). */
  function PyIn(key: string, container: JValue): (r: Option<bool>)
    ensures r.None? <==> (container.JNull? || container.JBool? || container.JNum?)
    ensures container.JObj? ==> r == Some(key in container.fields)
    ensures container.JStr? ==> r == Some(Strings.Contains(container.s, key))
  {
    match container
    case JObj(m) => Some(key in m)
    case JArr(xs) => Some(JStr(key) in xs)
    case JStr(s) => Some(Strings.Contains(s, key))
    case _ => None
  }

  /** Values that `v[:n]` can slice (a string or a list); slicing anything
      else raises `TypeError`. */
  predicate Sliceable(v: JValue) {
    v.JStr? || v.JArr?
  }

  /** `v.strip()`: only a string has the method; anything else raises
      `AttributeError` (None). */
  function StripValue(v: JValue): (r: Option<string>)
    ensures r.Some? <==> v.JStr?
    ensures v.JStr? ==> r.value == Strings.Strip(v.s)
  {
    if v.JStr? then Some(Strings.Strip(v.s)) else None
  }

  /** `str(v)` as an f-string renders it. Scalars are rendered as Python
      renders them; a nested list or dictionary is rendered by a fixed
      stand-in text. */
  function StrOf(v: JValue): (r: string)
    ensures v.JStr? ==> r == v.s
    ensures !v.JStr? ==> r != ""
  {
    match v
    case JNull => "None"
    case JBool(b) => if b then "True" else "False"
    case JNum(n) => Strings.IntText(n)
    case JStr(s) => s
    case JArr(_) => "[...]"
    case JObj(_) => "{...}"
  }
}
