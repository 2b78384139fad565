/**
 * JSON values as `encoding/json` hands them to Go code through `interface{}`,
 * and the result of an abstract decoder. The decoder itself is not modelled:
 * every operation that decodes takes it as a parameter.
 */
module Json {

  datatype Value =
    | Null
    | Bool(b: bool)
    | Number(literal: string)
    | Str(s: string)
    | Array(items: seq<Value>)
    | Object(fields: map<string, Value>)

  /** What a decoder makes of a byte string: a syntax error or one JSON value. */
  datatype Decoded = Malformed(reason: string) | Decoded(value: Value)

  /** The word Go's decoder uses for a value's kind in a type-mismatch error. */
  function KindName(v: Value): string {
    match v
    case Null => "null"
    case Bool(_) => "bool"
    case Number(_) => "number"
    case Str(_) => "string"
    case Array(_) => "array"
    case Object(_) => "object"
  }
}
