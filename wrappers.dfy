/** Option and Result: absent values (JavaScript `undefined`/`null`, Python `None`)
    and operations that throw. */
module Wrappers {

  datatype Option<+T> = None | Some(value: T) {
    function GetOr(default: T): T {
      match this
      case Some(v) => v
      case None => default
    }
  }

  /** `Fail` stands for an exception the modelled code raises (a `TypeError` on
      `undefined`, a `KeyError`, ...): the caller never receives a value. */
  datatype Result<+T> = Ok(value: T) | Fail(reason: string)
}
