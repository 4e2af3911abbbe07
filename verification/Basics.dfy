/** Shared vocabulary of the model. */
module Basics {

  /** An optional value; `None` also stands for an uninitialised memory cell. */
  datatype Option<+T> = None | Some(value: T)
}
