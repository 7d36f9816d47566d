/** Optional values and results with a textual error, used for the
    dictionary look-ups and the catch-all error of the card-table pipeline. */
module Wrappers {

  /** A dictionary field that may be missing. */
  datatype Option<+T> = None | Some(value: T)

  /** The value of a computation that can fail with a message (the text of
      the exception the pipeline would have caught). */
  datatype Result<+T> = Ok(value: T) | Err(msg: string)
}
