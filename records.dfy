/**
 * Singer records as the sink holds them: dicts from property names to decoded
 * JSON values, which `process_batch` rewrites in place.
 */
module Records {

  /** A decoded JSON value. */
  datatype Value =
    | Null
    | Bool(b: bool)
    | Int(i: int)
    | Num(r: real)
    | Str(s: string)
    | List(items: seq<Value>)
    | Dict(entries: map<string, Value>)

  /** `isinstance(v, (list, dict))`. */
  predicate IsContainer(v: Value)
  {
    v.List? || v.Dict?
  }

  /** One record dict; the sink replaces some of its values in place. */
  class Record {
    var fields: map<string, Value>

    constructor (fields: map<string, Value>)
      ensures this.fields == fields
    {
      this.fields := fields;
    }
  }
}
