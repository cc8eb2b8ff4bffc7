/** The Candid wire encoding, kept abstract: every place the backend turns a
    value into bytes or back goes through a `Codec`, whose two halves are
    supplied by the caller. */
module Candid {
  import opened Wrappers

  newtype byte = x: int | 0 <= x < 256

  /** An encoder that may fail (`into_bytes`) and a decoder that may fail
      (`from_bytes`), both with a textual error. */
  datatype Codec<!T> = Codec(encode: T -> Result<seq<byte>>, decode: seq<byte> -> Result<T>)

  /** The `StableState` encoding of a component: encoding cannot fail,
      decoding can. */
  datatype StableCodec<!T> = StableCodec(encode: T -> seq<byte>, decode: seq<byte> -> Result<T>)

  /** Whatever the encoder accepts, the decoder reads back unchanged. */
  ghost predicate RoundTrips<T(!new)>(codec: Codec<T>) {
    forall x :: codec.encode(x).Ok? ==> codec.decode(codec.encode(x).value) == Ok(x)
  }

  ghost predicate StableRoundTrips<T(!new)>(codec: StableCodec<T>) {
    forall x :: codec.decode(codec.encode(x)) == Ok(x)
  }
}
