/** Value types shared by every module of the model: optional values, results,
    and the abstract outcome of one HTTP call. */
module Common {

  datatype Option<T> = None | Some(value: T)

  datatype Result<T, E> = Ok(value: T) | Err(error: E)

  /** The outcome of one HTTP request as the caller observes it: a response
      body, an error response carrying a status code and the error text the
      server put in its body (if any), or a failure with no response at all
      (network error, or an exception thrown before the request was sent). */
  datatype HttpOutcome<T> =
    | Success(data: T)
    | HttpError(status: int, message: Option<string>)
    | NoResponse
  {
    /** `error.response?.status === 401` */
    predicate IsUnauthorized() { HttpError? && status == 401 }
  }

  /** `a || b` on an optional string: the first when it is present and non-empty. */
  function OrElse(a: Option<string>, b: string): (r: string)
    ensures r == b || (a.Some? && r == a.value && a.value != "")
    ensures a.Some? && a.value != "" ==> r == a.value
    ensures a.None? ==> r == b
  {
    if a.Some? && a.value != "" then a.value else b
  }

  /** A JSON value as the wire carries it. */
  datatype Json = JStr(s: string) | JInt(n: int) | JBool(b: bool) | JNull

  function Min(a: int, b: int): int { if a <= b then a else b }
  function Max(a: int, b: int): int { if a >= b then a else b }
}
