/** Optional values, results and the exception classes the library throws. */
module Errors {

  datatype Option<+T> = None | Some(value: T) {
    function GetOr(default: T): T {
      if Some? then value else default
    }
  }

  /** One constructor per exception class thrown by the library.
      PlainException is PHP's base `Exception`, JsonException PHP's `JsonException`,
      TypeError the error PHP raises when a built-in function is handed an argument of
      the wrong type (`false` where a connection, a result or an entry is expected, an
      array where an object or a string is). */
  datatype Kind =
    | ConnectException
    | BindException
    | SearchException
    | ModifyException
    | AddException
    | DeleteException
    | PlainException
    | JsonException
    | TypeError

  /** A thrown exception: its class, its message and its integer code. */
  datatype LdapError = LdapError(kind: Kind, message: string, code: int)

  /** The value a PHP function returns, or the exception it throws. */
  datatype Result<+T> = Ok(value: T) | Err(error: LdapError)

  /** Completion of a PHP function that returns nothing. */
  datatype Outcome = Pass | Fail(error: LdapError)
}
