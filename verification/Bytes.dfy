/** Byte strings, as QByteArray holds them. */
module Bytes {
  type Byte = bv8
  type ByteArray = seq<Byte>
}
