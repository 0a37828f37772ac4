/**
 * JSON.stringify followed by UTF-8 encoding (`Buffer.from(JSON.stringify(v))`)
 * and UTF-8 decoding followed by JSON.parse (`JSON.parse(buf.toString())`,
 * `None` when it throws). Both are foreign code and a parameter of the
 * model; all it assumes is the round-trip law `Lawful`.
 */
module Json {
  import opened Wrappers
  import opened Hex

  datatype Serializer<!T> = Serializer(stringify: T -> Bytes, parse: Bytes -> Option<T>)

  ghost predicate Lawful<T(!new)>(s: Serializer<T>) {
    forall v: T :: s.parse(s.stringify(v)) == Some(v)
  }
}
