/** Raw bytes, the contents of a Node.js `Buffer`. */
module Bytes {
  newtype byte = x: int | 0 <= x < 256
}
