/** Option and Result values shared by the modules of the model. Go's `nil` references
    and `(value, error)` pairs are written with these. */
module Wrappers {

  datatype Option<+T> = None | Some(value: T)

  /** A Go error is modelled by its message. */
  datatype Result<+T> = Ok(value: T) | Err(message: string)
}
