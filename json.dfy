/**
  The JSON-like values that travel in a Components V2 message: the payload
  dictionaries the builder produces, the caller's keyword overrides and the
  decoded response body.
 */
module Json {
  import Dicts

  datatype Value =
    | Null
    | Bool(b: bool)
    | Int(i: int)
    | Str(s: string)
    | Array(elems: seq<Value>)
    | Object(fields: Dicts.Items<Value>)
}
