/** Option and Result, the usual failure-compatible wrappers, and the errors the core raises. */
module Wrappers {

  datatype Option<+T> = None | Some(value: T) {
    function GetOr(default: T): T {
      match this
      case Some(v) => v
      case None => default
    }
  }

  /** A JavaScript promise that resolves to `value` or rejects with `error`. */
  datatype Result<+T> = Ok(value: T) | Err(error: Error)

  /** What the core throws; the messages of the source's `Error` objects are not modelled. */
  datatype Error =
    | BackendNotConfigured       // 'Backend URL not configured'
    | BackendStatus(statusText: string)  // 'Backend API error: <statusText>'
    | NetworkFailure             // fetch itself rejected
    | MalformedJson              // response.json() rejected
    | ModelLoadFailed            // pipeline(...) rejected
    | GenerationFailed           // the generator call, or reading its output, threw
}
