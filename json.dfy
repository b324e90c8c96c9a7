/** JSON documents as Python's `json` module hands them over (dicts, lists, strings, numbers). */
module Json {

  /** A parsed JSON value. Numbers are integers only; a JSON object is a dict from its keys. */
  datatype Value =
    | Null
    | Bool(b: bool)
    | Num(n: int)
    | Str(s: string)
    | Arr(items: seq<Value>)
    | Obj(fields: map<string, Value>)

  /** The outcome of `json.loads` (or `response.json()`): the parser itself is not modelled. */
  datatype Document = NotJson | Parsed(value: Value)
}
