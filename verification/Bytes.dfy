/** Bytes as numbers, and the strings of them that files and lines are made of. */
module Bytes {
  type byte = n: nat | n < 256

  type bytes = seq<byte>
}
