/** JSON values, as Express's JSON body parser hands a request body to a route handler. */
module Json {

  /**
   * A parsed JSON value. Numbers are kept as integers: no part of the
   * shopping list reads a number, so their precision plays no role.
   * An object is a map because `JSON.parse` keeps one value per key.
   */
  datatype Value =
    | JNull
    | JBool(b: bool)
    | JNumber(n: int)
    | JString(s: string)
    | JArray(elems: seq<Value>)
    | JObject(fields: map<string, Value>)

  /** A JSON array of the given strings, in order. */
  function StringArray(xs: seq<string>): Value {
    JArray(seq(|xs|, i requires 0 <= i < |xs| => JString(xs[i])))
  }
}
