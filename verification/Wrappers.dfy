/** The two result types the other modules share. */
module Wrappers {

  datatype Option<+T> = None | Some(value: T)

  /** What a call that can be refused answers with. */
  datatype Result<+T, +E> = Ok(value: T) | Err(error: E)
}
