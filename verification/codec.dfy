/** `JSON.stringify` and `JSON.parse`, kept abstract. */
module Codec {
  import opened Wrappers
  import opened Json

  /** A serializer and a parser; `decode` returns None where `JSON.parse`
      would throw. */
  datatype Codec = Codec(encode: Value -> string, decode: string -> Option<Value>)

  /** What the model relies on: parsing gives back what was serialized, and
      a serialized value is never the empty string (the shortest one is
      `[]` or `{}` or a literal such as `0`). */
  ghost predicate Lawful(c: Codec) {
    forall v :: c.decode(c.encode(v)) == Some(v) && c.encode(v) != ""
  }
}
