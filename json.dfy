/** JSON values as Python's `json` module decodes them, with the few dict operations the service uses. */
module JsonValue {
  import opened Wrappers

  /** Numbers are integers here; the service only compares them with integer literals. */
  datatype Json =
    | JNull
    | JBool(b: bool)
    | JNum(n: int)
    | JStr(s: string)
    | JArr(items: seq<Json>)
    | JObj(fields: map<string, Json>)

  /** Python's `bool(v)`. */
  predicate Truthy(v: Json) {
    match v
    case JNull => false
    case JBool(b) => b
    case JNum(n) => n != 0
    case JStr(s) => s != ""
    case JArr(items) => |items| > 0
    case JObj(fields) => |fields| > 0
  }

  /** `d.get(key)` on a decoded object; anything that is not an object has no keys here. */
  function Get(v: Json, key: string): (r: Option<Json>)
    ensures r.Some? <==> v.JObj? && key in v.fields
  {
    if v.JObj? && key in v.fields then Some(v.fields[key]) else None
  }

  /** `d.get(key) == n` for an integer literal `n`: `None` never equals it, and Python compares `False`/`True` as 0/1. */
  predicate GetEquals(v: Json, key: string, n: int) {
    match Get(v, key)
    case None => false
    case Some(JNum(m)) => m == n
    case Some(JBool(b)) => (if b then 1 else 0) == n
    case Some(_) => false
  }

  /** `d.get(key, default)`: the default only when the key is absent. */
  function GetOr(v: Json, key: string, default: Json): (r: Json)
    ensures v.JObj? && key in v.fields ==> r == v.fields[key]
    ensures !(v.JObj? && key in v.fields) ==> r == default
  {
    Get(v, key).GetOr(default)
  }

  /** `d.get(key)` used in a chain of `or`: a missing key counts as falsy. */
  predicate GetTruthy(v: Json, key: string) {
    Get(v, key).Some? && Truthy(Get(v, key).value)
  }

  /** `type(v).__name__` of a decoded value. */
  function TypeName(v: Json): string {
    match v
    case JNull => "NoneType"
    case JBool(_) => "bool"
    case JNum(_) => "int"
    case JStr(_) => "str"
    case JArr(_) => "list"
    case JObj(_) => "dict"
  }

  /** The message of the `AttributeError` raised by `v.attr` on a value that lacks it. */
  function NoAttribute(v: Json, attr: string): string {
    "'" + TypeName(v) + "' object has no attribute '" + attr + "'"
  }

  /** The decimal digits of a natural number. */
  function NatText(n: nat): (r: string)
    ensures |r| >= 1
    ensures forall i :: 0 <= i < |r| ==> '0' <= r[i] <= '9'
    decreases n
  {
    var d := ['0' + (n % 10) as char];
    if n < 10 then d else NatText(n / 10) + d
  }

  /**
   * `str(v)` for a decoded scalar; a list or an object is represented by its type name
   * only (its Python text is not modelled).
   */
  function PyStr(v: Json): string {
    match v
    case JNull => "None"
    case JBool(b) => if b then "True" else "False"
    case JNum(n) => if n < 0 then "-" + NatText(-n) else NatText(n)
    case JStr(s) => s
    case JArr(_) => "list"
    case JObj(_) => "dict"
  }

  /** A decoded value kept in an optional text field: `null` stays `None`. */
  function Display(v: Json): (r: Option<string>)
    ensures r.None? <==> v == JNull
    ensures v.JStr? ==> r == Some(v.s)
  {
    if v == JNull then None else Some(PyStr(v))
  }
}
