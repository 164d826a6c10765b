/** Shared wrappers: an optional value, and what a call into code outside the model did. */
module Outcomes {

  /** JavaScript's `undefined`/`null` versus a present value. */
  datatype Option<+T> = None | Some(value: T) {

    /** The value, or `default` when absent (JavaScript's `x ?? default`). */
    function GetOr(default: T): T {
      if Some? then value else default
    }
  }

  /** A call into a vendor, the database or the browser either returns a value or throws an error. */
  datatype Outcome<+T> = Returned(value: T) | Threw(message: string)
}
