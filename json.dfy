/** The JSON-shaped Python values that the HTTP layer passes around. */
module Json {

  /** A decoded JSON document or a JSON-serialisable Python value: `None`, a bool,
      an integer, a string, a list or a dict with string keys. */
  datatype Value =
    | Null
    | Bool(b: bool)
    | Number(n: int)
    | Str(s: string)
    | List(items: seq<Value>)
    | Dict(fields: map<string, Value>)
}
