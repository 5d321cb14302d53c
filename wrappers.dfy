/** Failure-carrying results shared by every model.

  The JavaScript code signals errors by `throw`ing a string; a `Result` carries
  either the value computed or that string. `Option` stands for a value that may
  be missing (a JavaScript `undefined`) or not a finite number (a `NaN` or
  `Infinity` produced by a division by zero).
 */
module Wrappers {

  datatype Option<+T> = None | Some(value: T)

  datatype Result<+T> = Ok(value: T) | Err(error: string)
}
