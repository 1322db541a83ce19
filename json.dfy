/** The JSON values that the gateway codec reads and writes, as a tree rather than as text. */
module Json {

  /**
   * A JSON value. Numbers are integers only, so a text holding a fractional number has no
   * counterpart here. An object maps each key to its value, with no key order and no duplicates.
   */
  datatype Value =
    | Null
    | Bool(b: bool)
    | Number(n: int)
    | String(s: string)
    | Array(items: seq<Value>)
    | Object(fields: map<string, Value>)
}
