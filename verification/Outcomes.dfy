/** Results of operations that Python ends either with a value or with a raised, fixed reason code. */
module Outcomes {
  datatype Option<+T> = None | Some(value: T)

  datatype Result<+T> = Ok(value: T) | Err(code: string)
}
