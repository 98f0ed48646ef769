/** Optional values: JavaScript's `null`/`undefined` for a field that may be absent. */
module Wrappers {

  datatype Option<+T> = None | Some(value: T)
}

/** What an awaited `fetch`/`axios` call produced, as the component that awaited it sees it. */
module Fetch {

  /** An HTTP status outside 200..299: `response.ok` is false, axios throws. */
  type ErrorStatus = c: int | !(200 <= c < 300) witness 404

  datatype Outcome<T> =
    | Ok(body: T)                  // a 2xx response whose body was read
    | HttpStatus(code: ErrorStatus) // a response the server answered with an error status
    | Transport(message: string)   // the request threw (network error, unreadable body); `err.message`
}
