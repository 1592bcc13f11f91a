/** Types shared by the modules of this project. */
module Basics {

  /** Go's "nil or a value". */
  datatype Option<+T> = None | Some(value: T)

  /** An octet. */
  type byte = x: int | 0 <= x < 256
}
