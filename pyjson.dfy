/**
  The values that Python's `json.loads` produces, and the two Python
  operations the configuration accessors apply to them: subscripting with a
  string key (`v[key]`) and `len(v)`.
*/
module PyJson {
  import opened Results

  /**
    A decoded JSON document as a Python value: `None`, a bool, an int, a
    float, a str, a list or a dict (whose keys are always strings, the last
    duplicate key winning, so a map).
  */
  datatype Json =
    | JNull
    | JBool(b: bool)
    | JInt(i: int)
    | JFloat(f: real)
    | JStr(s: string)
    | JArr(items: seq<Json>)
    | JObj(fields: map<string, Json>)

  /** The exceptions Python raises for a bad subscript or a bad `len`. */
  datatype PyError = KeyError(key: string) | TypeError

  /**
    Python's `v[key]` for a str key: a dict yields the value stored under
    `key` or raises KeyError; None, bools, numbers, strings and lists all
    raise TypeError (they are not subscriptable by a string).
  */
  function Subscript(v: Json, key: string): (r: Result<Json, PyError>)
    ensures r.Ok? <==> v.JObj? && key in v.fields
    ensures r.Ok? ==> r.value == v.fields[key]
    ensures r == Err(KeyError(key)) <==> v.JObj? && key !in v.fields
    ensures r == Err(TypeError) <==> !v.JObj?
  {
    match v
    case JObj(fields) => if key in fields then Ok(fields[key]) else Err(KeyError(key))
    case _ => Err(TypeError)
  }

  /** True of the values Python's `len` accepts: lists, dicts and strings. */
  predicate Sized(v: Json) {
    v.JArr? || v.JObj? || v.JStr?
  }

  /**
    Python's `len(v)`: the number of elements of a list, of keys of a dict,
    of code points of a str; TypeError for every other value.
  */
  function Len(v: Json): (r: Result<nat, PyError>)
    ensures r.Ok? <==> Sized(v)
    ensures r.Err? ==> r.error == TypeError
    ensures v.JArr? ==> r == Ok(|v.items|)
    ensures v.JObj? ==> r == Ok(|v.fields|)
    ensures v.JStr? ==> r == Ok(|v.s|)
  {
    match v
    case JArr(items) => Ok(|items|)
    case JObj(fields) => Ok(|fields|)
    case JStr(s) => Ok(|s|)
    case _ => Err(TypeError)
  }
}
