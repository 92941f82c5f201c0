/**
  The values a resource attribute can hold, and the one error the core raises.

  Attribute mappings arrive already decoded from a JSON or XML body, so a value
  is a closed variant over the shapes such a decoder yields.
 */
module Values {

  datatype Value =
    | Nil
    | Bool(b: bool)
    | Int(i: int)
    | Str(s: string)
    | List(items: seq<Value>)
    | Hash(entries: map<string, Value>)

  /** Ruby's `NoMethodError`, carrying the method name that could not be resolved. */
  datatype Error = NoMethodError(symbol: string)
}
