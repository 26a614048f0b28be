/** Result and option types shared by the models. */
module Wrappers {

  type Positive = n: nat | n >= 1 witness 1

  datatype Option<+T> = None | Some(value: T) {
    /** The value, or `default` when there is none. */
    function GetOr(default: T): T {
      if Some? then value else default
    }
  }

  /** An operation either yields a value or raises the named error. */
  datatype Result<+T> = Ok(value: T) | Err(error: string)
}
