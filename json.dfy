/** The loosely typed values of a decoded JSON request, as the Python
    engine receives them: integers and floats are different types, `true`
    and `false` are integers too, and objects are dictionaries. */
module Json {
  import opened Wrappers

  datatype Json =
    | JInt(i: int)
    | JFloat(f: real)
    | JBool(b: bool)
    | JText(s: string)
    | JNull
    | JList(items: seq<Json>)
    | JObject(fields: map<string, Json>)

  /** `float(v)` for a value `isinstance(v, (int, float))` accepts; `bool`
      is a subclass of `int`, so `True` reads as 1.0 and `False` as 0.0. */
  function AsNumber(v: Json): (r: Option<real>)
    ensures r.Some? <==> (v.JInt? || v.JFloat? || v.JBool?)
    ensures v.JInt? ==> r == Some(v.i as real)
    ensures v.JFloat? ==> r == Some(v.f)
    ensures v.JBool? ==> r == Some(if v.b then 1.0 else 0.0)
  {
    match v
    case JInt(i) => Some(i as real)
    case JFloat(f) => Some(f)
    case JBool(b) => Some(if b then 1.0 else 0.0)
    case _ => None
  }

  /** `d.get(key)`: the value stored under `key`, or `None` when it is absent. */
  function Get(fields: map<string, Json>, key: string): (r: Option<Json>)
    ensures r.Some? <==> key in fields
    ensures r.Some? ==> r.value == fields[key]
  {
    if key in fields then Some(fields[key]) else None
  }
}
