/** Option and Result, and the exceptions the scripts raise or receive. */
module Wrappers {

  datatype Option<+T> = None | Some(value: T) {
    /** The wrapped value, or `default` (JavaScript's `x ?? default`). */
    function GetOr(default: T): T {
      if Some? then value else default
    }
  }

  /** The exceptions that cross the scripts' function boundaries. */
  datatype Error =
    | HttpClientError(message: string, statusCode: Option<int>)  // @actions/http-client
    | AuthError(message: string)                                 // @azure/msal-node
    | TypeError(message: string)                                 // a JavaScript TypeError
    | PlainError(message: string)                                // `new Error(message)`
    | AssertionError                                             // node:assert
    | RequestError(name: string, status: int)                    // an Octokit request failure
    | SyntaxError                                                // JSON.parse on malformed text
    | ExecError(command: string)                                 // @actions/exec: non-zero exit

  /** A value, or the exception that was thrown instead. `Result<()>` models `Promise<void>`. */
  datatype Result<+T> = Ok(value: T) | Err(error: Error) {
    predicate IsFailure() {
      Err?
    }

    function PropagateFailure<U>(): Result<U>
      requires Err?
    {
      Err(error)
    }

    function Extract(): T
      requires Ok?
    {
      value
    }

    /** The value, or `default` when an exception was thrown. */
    function GetOr(default: T): T {
      if Ok? then value else default
    }
  }
}
