/** Presence-checked references: the model of a `std::shared_ptr` that may be null. */
module Wrappers {

  /** `None` stands for a null pointer, `Some(v)` for a pointer to `v`. */
  datatype Option<+T> = None | Some(value: T)
}
