/**
 * What a handler sends back: a JSON value with its status, an error body, or
 * an empty 204.  A handler that returns a value sends it with status 200.
 */
module Http {
  import opened Js

  /** `{ error, message }`, with `details` where the handler adds it. */
  datatype ErrorBody = ErrorBody(error: string, message: string, details: Option<string>)

  datatype Reply<+T> =
    | Json(status: nat, value: T)
    | Problem(status: nat, body: ErrorBody)
    | NoContent

  /** The status line of a reply. */
  function StatusOf<T>(r: Reply<T>): nat
  {
    match r
    case Json(status, _) => status
    case Problem(status, _) => status
    case NoContent => 204
  }
}
