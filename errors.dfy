/**
 * The client's single error type and the `Result` every fallible operation
 * returns (src/lib.rs, `enum Error` and its `From` conversions).
 */
module Errors {
  import opened Wrappers
  import opened JsonValue

  /**
   * `Error::Json` carries a response body, `Error::Status` the HTTP status and
   * `Error::None` stands for a missing JSON field; the payloads of the foreign
   * error types (I/O, JSON syntax, cookie syntax, transport) are their messages.
   */
  datatype Error =
    | JsonError(body: Json)
    | Io(message: string)
    | Parse(message: string)
    | Cookie(message: string)
    | Reqwest(message: string)
    | Status(code: nat)
    | NoneError

  /** `Result<T, Error>`, usable with `:-` as the source uses `?`. */
  datatype Result<+T> = Ok(value: T) | Err(error: Error) {
    predicate IsFailure() {
      Err?
    }

    function PropagateFailure<U>(): Result<U>
      requires Err?
    {
      Err(error)
    }

    function Extract(): T
      requires Ok?
    {
      value
    }
  }

  /** The `?` operator on an `Option`: a missing value becomes `Error::None`. */
  function Need<T>(o: Option<T>): (r: Result<T>)
    ensures r.Ok? <==> o.Some?
    ensures r.Ok? ==> r.value == o.value
    ensures r.Err? ==> r.error == NoneError
  {
    match o
    case Some(v) => Ok(v)
    case None => Err(NoneError)
  }
}
