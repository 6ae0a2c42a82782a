/** Types shared by the model: the source's `(value, error)` pairs and the ways a file write ends. */
module Wrappers {

  datatype Option<+T> = None | Some(value: T)

  datatype Result<+T, +E> = Ok(value: T) | Err(error: E)

  /** How os.WriteFile ends: completely, without touching the file, or with only the first n characters written. */
  datatype WriteOutcome = Wrote | Failed | Partly(n: nat)
}
