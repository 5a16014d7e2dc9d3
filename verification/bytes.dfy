/** Octets, the unit of Python's `bytes`. */
module Bytes {

  type byte = x: int | 0 <= x < 256
}
