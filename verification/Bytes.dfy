/** An unsigned char. */
module Bytes {
  newtype byte = x: int | 0 <= x < 256
}
