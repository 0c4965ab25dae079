/**
  Text and bytes. The conversions between a string and its UTF-8 bytes are
  provided by the platform; here they are a pair of partial functions given
  to every operation that uses them.
 */
module Utf8 {
  import opened Wrappers

  type Bytes = seq<bv8>

  /** `String.data(using: .utf8)` and `String(data:encoding: .utf8)`. */
  datatype Codec = Codec(encode: string -> Option<Bytes>, decode: Bytes -> Option<string>)

  /** A codec behaves like UTF-8 in the one way this model relies on:
      decoding the bytes a string was encoded to gives that string back. */
  ghost predicate Lawful(c: Codec)
  {
    forall s: string :: c.encode(s).Some? ==> c.decode(c.encode(s).value) == Some(s)
  }
}
