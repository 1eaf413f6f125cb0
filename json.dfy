/**
 * The values `json.load` (and `yaml.load` for the port files) produce, and
 * the Python operations the core applies to them. An object is its list of
 * members in document order, as the Python dict preserves it. Every
 * operation answers None exactly where Python raises (KeyError, IndexError,
 * TypeError, AttributeError, ValueError).
 */
module Json {
  import opened Wrappers
  import opened Strings

  datatype Json =
    | JNull
    | JBool(b: bool)
    | JInt(i: int)
    | JFloat(f: real)
    | JString(s: string)
    | JArray(items: seq<Json>)
    | JObject(fields: seq<(string, Json)>)

  /** The value stored under `key`, looked up as a dict does. */
  function Lookup(fields: seq<(string, Json)>, key: string): (r: Option<Json>)
    ensures r.Some? <==> exists i :: 0 <= i < |fields| && fields[i].0 == key
    ensures r.Some? ==> (key, r.value) in fields
    decreases |fields|
  {
    if |fields| == 0 then None
    else if fields[0].0 == key then Some(fields[0].1)
    else
      var r := Lookup(fields[1..], key);
      assert forall i :: 1 <= i < |fields| ==> fields[i] == fields[1..][i - 1];
      r
  }

  predicate HasKey(fields: seq<(string, Json)>, key: string) {
    exists i :: 0 <= i < |fields| && fields[i].0 == key
  }

  /** `bool(j)`. */
  predicate Truthy(j: Json) {
    match j
    case JNull => false
    case JBool(b) => b
    case JInt(i) => i != 0
    case JFloat(f) => f != 0.0
    case JString(s) => |s| > 0
    case JArray(items) => |items| > 0
    case JObject(fields) => |fields| > 0
  }

  /** `j[key]` with a str key. */
  function PyGet(j: Json, key: string): (r: Option<Json>)
    ensures r.Some? <==> j.JObject? && HasKey(j.fields, key)
  {
    if j.JObject? then Lookup(j.fields, key) else None
  }

  /** `key in j` with a str key: dict keys, list members, or a substring test. */
  function PyIn(key: string, j: Json): (r: Option<bool>)
    ensures r.None? <==> !(j.JObject? || j.JArray? || j.JString?)
    ensures j.JObject? ==> r == Some(HasKey(j.fields, key))
  {
    match j
    case JObject(fields) => Some(HasKey(fields, key))
    case JArray(items) => Some(JString(key) in items)
    case JString(s) => Some(IsSubstring(key, s))
    case _ => None
  }

  /** `for x in j`: list members, the one-character strings of a str, dict keys. */
  function PyIter(j: Json): (r: Option<seq<Json>>)
    ensures r.Some? <==> j.JArray? || j.JString? || j.JObject?
  {
    match j
    case JArray(items) => Some(items)
    case JString(s) => Some(seq(|s|, i requires 0 <= i < |s| => JString([s[i]])))
    case JObject(fields) => Some(seq(|fields|, i requires 0 <= i < |fields| => JString(fields[i].0)))
    case _ => None
  }

  /** `len(j)`. */
  function PyLen(j: Json): (r: Option<nat>)
    ensures r.Some? <==> j.JArray? || j.JString? || j.JObject?
  {
    match j
    case JArray(items) => Some(|items|)
    case JString(s) => Some(|s|)
    case JObject(fields) => Some(|fields|)
    case _ => None
  }

  /**
   * `j[i]` with an int subscript. A JSON object has only str keys, so an int
   * subscript is always a KeyError there.
   */
  function PyItem(j: Json, i: nat): (r: Option<Json>)
    ensures r.Some? <==> (j.JArray? && i < |j.items|) || (j.JString? && i < |j.s|)
  {
    match j
    case JArray(items) => if i < |items| then Some(items[i]) else None
    case JString(s) => if i < |s| then Some(JString([s[i]])) else None
    case _ => None
  }

  /** Truncation toward zero, as int() does on a float. */
  function Truncate(f: real): int {
    if f >= 0.0 then f.Floor else -((-f).Floor)
  }

  /** `int(j)`. */
  function PyInt(j: Json): Option<int> {
    match j
    case JInt(i) => Some(i)
    case JBool(b) => Some(if b then 1 else 0)
    case JFloat(f) => Some(Truncate(f))
    case JString(s) => ParseInt(s)
    case _ => None
  }

  /** `float(j)` succeeds. */
  predicate PyFloatable(j: Json) {
    match j
    case JInt(_) => true
    case JBool(_) => true
    case JFloat(_) => true
    case JString(s) => IsFloatText(s)
    case _ => false
  }

  /** `j == n` for an int n (numbers compare by value, bools as 0 and 1). */
  predicate PyEqInt(j: Json, n: int) {
    match j
    case JInt(i) => i == n
    case JBool(b) => (if b then 1 else 0) == n
    case JFloat(f) => f == n as real
    case _ => false
  }

  /**
   * `str(j)` (or `'%s' % j`). None, booleans, ints, strs and integral floats
   * below 1e16 in magnitude are rendered as Python renders them; other
   * floats, lists and dicts get a fixed placeholder text.
   */
  function PyStr(j: Json): string {
    match j
    case JNull => "None"
    case JBool(b) => if b then "True" else "False"
    case JInt(i) => IntString(i)
    case JFloat(f) =>
      if f == f.Floor as real && -10000000000000000.0 < f < 10000000000000000.0 then IntString(f.Floor) + ".0"
      else "<float>"
    case JString(s) => s
    case JArray(_) => "<list>"
    case JObject(_) => "<dict>"
  }
}
