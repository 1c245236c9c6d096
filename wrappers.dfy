/** Option and Result: the absent value and the thrown error of the action's
    JavaScript, as values. */
module Wrappers {

  datatype Option<+T> = None | Some(value: T)

  /** `Err` stands for a thrown `Error` whose message the top level reports. */
  datatype Result<+T, +E> = Ok(value: T) | Err(error: E)
}
