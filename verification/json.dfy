/** The values a Go `interface{}` holds after JSON decoding, used for
    request variables, error extensions and response data. */
module Json {

  datatype Value =
    | Null
    | Bool(b: bool)
    | Number(n: int)
    | String(s: string)
    | Array(items: seq<Value>)
    | Object(fields: map<string, Value>)
}
