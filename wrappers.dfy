/** Error-carrying results shared by the configuration resolver and the driver. */
module Wrappers {

  /** An error value as the Go code passes it around: only its message is observable. */
  type Error = string

  /** A Go `(value, error)` pair in which exactly one side is meaningful. */
  datatype Result<+T> = Ok(value: T) | Err(error: Error)

  datatype Option<+T> = None | Some(value: T)

  /** Raw file contents, `[]byte` in the source. */
  type Bytes = seq<bv8>
}
