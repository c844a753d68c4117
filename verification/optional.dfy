/**
 The nullable values of the whiteboard: Python's `None` versus a present value.
 */
module Optional {

  /** `None` stands for Python's `None`; `Some(v)` for a present value `v`. */
  datatype Option<+T> = None | Some(value: T)
}
