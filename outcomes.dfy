/** Results of calls into services the model cannot see. */
module Outcomes {

  /** What a call into an external library did: returned a value, or raised. */
  datatype Outcome<+T> = Ok(value: T) | Raised

  /** Python's `None` versus a present value. */
  datatype Option<+T> = None | Some(value: T)
}
