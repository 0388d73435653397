/**
 * The few PHP value semantics the dataset client relies on: decoded JSON
 * values, associative-array records, the truthiness of an optional string
 * argument, and how such an argument reads inside an interpolated string.
 */
module Php {
  import opened Wrappers

  /** A decoded JSON value, as `toArray()` hands it to the client. */
  datatype Value =
    | VNull
    | VBool(b: bool)
    | VInt(i: int)
    | VReal(r: real)
    | VStr(s: string)
    | VList(items: seq<Value>)
    | VObject(fields: map<string, Value>)

  /** A decoded JSON object: a PHP associative array with string keys. */
  type Record = map<string, Value>

  /** An identifier argument of type `string|null`. */
  type Id = Option<string>

  /** PHP truthiness of a `string|null`: `null`, `""` and `"0"` are falsy. */
  predicate Truthy(id: Id)
  {
    id.Some? && id.value != "" && id.value != "0"
  }

  /** How a `string|null` reads inside `"...$id..."` or `sprintf('%s', $id)`. */
  function Text(id: Id): string
  {
    match id
    case None => ""
    case Some(v) => v
  }
}
