/** JSON-shaped values exchanged with the tool server and returned to the caller. */
module Json {

  datatype Option<+T> = None | Some(value: T)

  /** A decoded JSON value. Numbers are kept as reals; the core only passes them through. */
  datatype Value =
    | Null
    | Bool(b: bool)
    | Num(r: real)
    | Str(s: string)
    | List(items: seq<Value>)
    | Obj(fields: map<string, Value>)

  /** A JSON object, as Python's `dict` decoded from a response body. */
  type Object = map<string, Value>

  /** Python's `d.get(key, default)`. */
  function Get(d: Object, key: string, default: Value): Value
  {
    if key in d then d[key] else default
  }
}
