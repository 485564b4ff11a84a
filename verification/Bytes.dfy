/** Characters of the source, read as unsigned bytes. */
module Bytes {
  newtype byte = x: int | 0 <= x < 256
}
