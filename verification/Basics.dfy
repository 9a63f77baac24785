/** Small datatypes shared by the service models. */
module Basics {

  datatype Option<+T> = None | Some(value: T)

  /** What an operation reports to its caller: success, or the class of HTTP error it raised. */
  datatype Outcome = Done | Raised(error: Error)

  datatype Error = NotFound | Forbidden | BadRequest | Conflict | BadGateway | JobFailure

  /** What an external service said when it was called: nothing usable, or a value. */
  datatype Answer<+T> = Down | Says(value: T)

  function Max(a: int, b: int): int {
    if a < b then b else a
  }

  function Min(a: int, b: int): int {
    if a < b then a else b
  }

  /** The clamp of an integer at zero. */
  function Positive(a: int): nat {
    if a < 0 then 0 else a
  }
}
