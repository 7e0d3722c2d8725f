/** Values shared by every module: the optional value the source writes as
    `None` or a value, and Python's two-argument `min`. */
module Wrappers {

  datatype Option<+T> = None | Some(value: T)

  /** Python's `min` of two numbers: the first unless the second is smaller. */
  function Min(a: real, b: real): real
  {
    if b < a then b else a
  }
}
