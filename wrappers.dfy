/** Option and a result type standing for a value or a thrown exception. */
module Wrappers {

  datatype Option<+T> = None | Some(value: T)

  /** `Fault` stands for an exception that escapes the modelled code. */
  datatype Result<+T> = Ok(value: T) | Fault(reason: string)
}
