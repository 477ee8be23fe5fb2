/** Option and Result values standing for JavaScript's null/undefined results and thrown errors. */
module Wrappers {

  datatype Option<+T> = None | Some(value: T) {
    /** The value, or `default` when there is none (JavaScript's `x ?? default`). */
    function GetOr(default: T): T {
      if Some? then value else default
    }
  }

  /** A computation that either yields a value or throws an Error carrying a message. */
  datatype Result<+T> = Ok(value: T) | Err(message: string)
}
