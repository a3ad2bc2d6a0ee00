/** A decoded JSON document, as Python's `json.loads` returns it. */
module Json {

  datatype Value =
    | Null
    | Bool(b: bool)
    | Number(n: real)
    | Str(s: string)
    | Array(items: seq<Value>)
    | Object(fields: map<string, Value>)

  /** Python's `d.get(key, default)` on a decoded JSON object. */
  function Get(fields: map<string, Value>, key: string, default: Value): Value {
    if key in fields then fields[key] else default
  }
}
