/** What the data layer gets back from the outside world.
    Every HTTP request made through fetchWithTimeout is modelled as a value of
    type Fetched: either the parsed JSON body or the error it was rejected with. */
module Outcomes {

  datatype Option<+T> = None | Some(value: T)

  /** The ways fetchWithTimeout rejects: the abort signal fired, the status was
      not 2xx, the body was not JSON, or fetch itself failed. */
  datatype FetchError = Timeout | HttpStatus(code: int) | ParseError | NetworkError

  datatype Fetched<+T> = Ok(payload: T) | Err(error: FetchError)

  /** A thrown Error that reaches the caller of a public operation. */
  datatype Failure = NotFound(id: string)

  datatype Result<+T> = Success(value: T) | Failed(failure: Failure)
}
