/** JSON values as the Python code sees them after json.loads, with the
    dictionary and conversion built-ins it applies to them. */
module Json {
  import opened Wrappers
  import opened PyText

  /** A parsed JSON document: null, a boolean, a number, a text, a list or
      a dict. Dict equality ignores key order, as Python's does. */
  datatype Json =
    | JNull
    | JBool(b: bool)
    | JNum(n: real)
    | JStr(s: string)
    | JArr(items: seq<Json>)
    | JObj(fields: map<string, Json>)

  /** d.get(key, default) on a dict. */
  function Lookup(m: map<string, Json>, key: string, default: Json): (r: Json)
    ensures key in m ==> r == m[key]
    ensures key !in m ==> r == default
  {
    if key in m then m[key] else default
  }

  /** data.get(key, default). A value that is not a dict has no get method. */
  function Get(v: Json, key: string, default: Json): (r: Result<Json, Failure>)
    ensures r.Ok? <==> v.JObj?
    ensures r.Err? ==> r.error == AttributeError
  {
    match v
    case JObj(m) => Ok(Lookup(m, key, default))
    case _ => Err(AttributeError)
  }

  /** Python truthiness of a JSON value. */
  predicate Truthy(v: Json) {
    match v
    case JNull => false
    case JBool(b) => b
    case JNum(n) => n != 0.0
    case JStr(s) => s != []
    case JArr(xs) => xs != []
    case JObj(m) => m != map[]
  }

  /** str(v), for the values whose Python text the model renders: texts,
      None and booleans. */
  function PyStr(v: Json): (r: Result<string, Failure>)
    ensures v.JStr? ==> r == Ok(v.s)
  {
    match v
    case JStr(s) => Ok(s)
    case JNull => Ok("None")
    case JBool(b) => Ok(if b then "True" else "False")
    case _ => Err(NotModelled)
  }

  /** float(v): numbers as they are, booleans as 1.0 and 0.0, texts parsed;
      None, lists and dicts raise TypeError. */
  function PyFloat(v: Json): (r: Result<real, Failure>)
    ensures v.JNum? ==> r == Ok(v.n)
    ensures r.Err? ==> r.error == ValueError || r.error == TypeError
  {
    match v
    case JNum(n) => Ok(n)
    case JBool(b) => Ok(if b then 1.0 else 0.0)
    case JStr(s) => ParseFloat(s)
    case _ => Err(TypeError)
  }
}
