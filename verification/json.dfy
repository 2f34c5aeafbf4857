/** Generic JSON values, as the manifest schema receives them from the JSON
    decoder, and the container aliases the schema uses for JSON objects and
    arrays. Text lexing is not modelled: every function here starts from an
    already decoded value.
 */
module JsonValue {

  /** A JSON object: unique string keys mapped to values. The order in which
      keys are written out is not part of the model. */
  type Object<V> = map<string, V>

  /** A JSON array: an order-preserving sequence. */
  type Array<V> = seq<V>

  /** An arbitrary JSON value. Numbers are modelled as integers. */
  datatype Json =
    | Null
    | Bool(boolean: bool)
    | Number(number: int)
    | String(str: string)
    | Array(items: Array<Json>)
    | Object(fields: Object<Json>)
}
