/** Small shared datatypes: an optional value, and the (status, error code)
    pair that the Flask routes return on their error paths. */
module Common {

  /** A value that may be absent: a missing header, field or row. */
  datatype Option<+T> = None | Some(value: T) {

    /** The value, or `default` when absent (Python's `x if x is not None else default`). */
    function GetOr(default: T): T {
      match this
      case Some(v) => v
      case None => default
    }
  }

  /** An HTTP error answer: the status code and the `error` field of the JSON body. */
  datatype HttpError = HttpError(status: int, error: string)

  /** `{'error': 'unauthorized'}, 401`: no session, no admin flag, or an unknown key. */
  const Unauthorized := HttpError(401, "unauthorized")

  /** Flask's own answer to a request body that is not JSON. */
  const BadRequest := HttpError(400, "Bad Request")

  /** Flask's own answer to an exception the route does not catch. */
  const InternalError := HttpError(500, "Internal Server Error")

  /** Either the successful value of a route or its HTTP error answer. */
  datatype Reply<+T> = Ok(value: T) | Fail(err: HttpError) {
    predicate IsOk() { Ok? }

    /** The status code of the error, or 200 on success. */
    function Status(): int {
      match this
      case Ok(_) => 200
      case Fail(e) => e.status
    }
  }

  /** Number of elements of `s` satisfying `p`. */
  function CountWhere<T>(s: seq<T>, p: T -> bool): (n: nat)
    ensures n <= |s|
  {
    if |s| == 0 then 0 else CountWhere(s[..|s| - 1], p) + (if p(s[|s| - 1]) then 1 else 0)
  }
}
