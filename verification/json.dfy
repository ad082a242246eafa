/** A decoded JSON value as `json.loads` hands it to the backend, and the few
    Python operations the backend applies to such values. Parsing itself is
    not modelled: callers receive it as a function `string -> Option<Json>`
    (None for `JSONDecodeError`). */
module Json {
  import opened Wrappers
  import Strings

  /** JSON numbers are modelled as integers. Objects are unordered maps. */
  datatype Json =
    | JNull
    | JBool(b: bool)
    | JNum(n: int)
    | JStr(s: string)
    | JArr(items: seq<Json>)
    | JObj(fields: map<string, Json>)

  type Object = map<string, Json>

  /** `d.get(key)`: a present key yields its value, even when that is null. */
  function Get(d: Object, key: string): (r: Option<Json>)
    ensures r.Some? <==> key in d
    ensures r.Some? ==> r.value == d[key]
  {
    if key in d then Some(d[key]) else None
  }

  /** `d.get(key, default)` */
  function GetOr(d: Object, key: string, default: Json): (r: Json)
    ensures key in d ==> r == d[key]
    ensures key !in d ==> r == default
  {
    Get(d, key).GetOr(default)
  }

  /** Python truthiness of a decoded value. */
  predicate Truthy(j: Json) {
    match j
    case JNull => false
    case JBool(b) => b
    case JNum(n) => n != 0
    case JStr(s) => s != ""
    case JArr(a) => a != []
    case JObj(m) => m != map[]
  }

  /** What a `for x in value` loop visits, or None when Python would raise
      (a number, a bool or None is not iterable). Iterating a string visits its
      characters. Iterating an object visits its keys in insertion order,
      which a map does not keep, so a non-empty object is reported as None.
      That is exact for the tab and metric lists, whose loops call `.get` on
      each element and so raise on a key string; the personality traits are
      the one place where it is not (see ModeGenerator.Traits). */
  function Iterated(j: Json): Option<seq<Json>> {
    match j
    case JArr(a) => Some(a)
    case JStr(s) => Some(seq(|s|, i requires 0 <= i < |s| => JStr([s[i]])))
    case JObj(m) => if m == map[] then Some([]) else None
    case _ => None
  }

  /** Python's `str(value)` as used inside an f-string. Strings, None, bools
      and integers are rendered exactly; lists and dicts need Python's repr,
      which is not modelled, and render as a fixed marker. */
  function Show(j: Json): string {
    match j
    case JNull => "None"
    case JBool(b) => if b then "True" else "False"
    case JNum(n) => Strings.IntToString(n)
    case JStr(s) => s
    case JArr(_) => "[...]"
    case JObj(_) => "{...}"
  }

  /** The strings in a list of decoded values, or None if one is not a string. */
  function AllStrings(items: seq<Json>): (r: Option<seq<string>>)
    ensures r.Some? ==> |r.value| == |items|
    ensures r.Some? ==> forall i :: 0 <= i < |items| ==> items[i] == JStr(r.value[i])
    ensures r.None? ==> exists i :: 0 <= i < |items| && !items[i].JStr?
  {
    if |items| == 0 then Some([])
    else if !items[0].JStr? then None
    else
      match AllStrings(items[1..])
      case None => None
      case Some(rest) => Some([items[0].s] + rest)
  }

  /** A string-typed field read with `d.get(key, default)`: None when the
      present value is not a string (pydantic's validation error, or the
      AttributeError of calling a string method on it). */
  function StringOr(d: Object, key: string, default: string): (r: Option<string>)
    ensures key !in d ==> r == Some(default)
    ensures r.Some? <==> StringOrAbsent(d, key)
    ensures key in d && r.Some? ==> d[key] == JStr(r.value)
  {
    match GetOr(d, key, JStr(default))
    case JStr(s) => Some(s)
    case _ => None
  }

  /** The key is absent or holds a string. */
  predicate StringOrAbsent(d: Object, key: string) {
    key !in d || d[key].JStr?
  }
}
