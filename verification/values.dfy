/** The dynamically typed values that flow through the processors and the pipeline. */
module Values {

  /** A Python value: None, a string, an integer, a boolean, a list, or a dict with string keys. */
  datatype Value =
    | Null
    | Str(text: string)
    | Int(number: int)
    | Bool(flag: bool)
    | List(items: seq<Value>)
    | Dict(entries: map<string, Value>)
}
