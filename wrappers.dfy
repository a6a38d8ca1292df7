/** Optional values and the exceptions the services raise, as values. */
module Wrappers {
  import Text

  /** A nullable reference or a `java.util.Optional`. */
  datatype Option<+T> = None | Some(value: T) {
    predicate IsFailure() { None? }
    function PropagateFailure<U>(): Option<U> requires None? { None }
    function Extract(): T requires Some? { value }
  }

  /** The exceptions that leave a service call. Each one aborts the call and
      rolls back whatever the call had written. */
  datatype Error =
    | RuntimeError(message: string)                // RuntimeException with a fixed message
    | UnauthorizedAccess(message: string)          // UnauthorizedAccessException (HTTP 403)
    | ResponseStatus(status: nat, reason: string)  // ResponseStatusException
    | IllegalState(message: string)                // IllegalStateException
    | IllegalArgument(message: string)             // a repository handed a null id
    | BadCredentials                               // the authentication manager refused the password
    | MalformedJwt                                 // the token does not parse
    | ExpiredJwt(expiration: nat, now: nat)        // the parser saw `now` after the expiration
    | NullPointer                                  // a null dereference
    | IndexOutOfBounds                             // `List.get` past the end
    | NonUniqueResult                              // an Optional finder matched several rows
    | DataIntegrity(constraint: string)            // a unique or foreign-key constraint refused a write
    | ConstraintViolation(entity: string)          // bean validation refused a row as it was written

  /** `Throwable.getMessage()`. The texts of framework exceptions are
      representative; the services never compare them. */
  function Message(e: Error): string
  {
    match e
    case RuntimeError(m) => m
    case UnauthorizedAccess(m) => m
    case ResponseStatus(s, r) => Text.NatToString(s) + " \"" + r + "\""
    case IllegalState(m) => m
    case IllegalArgument(m) => m
    case BadCredentials => "Bad credentials"
    case MalformedJwt => "Malformed JWT"
    case ExpiredJwt(_, _) => "JWT expired"
    case NullPointer => "null"
    case IndexOutOfBounds => "Index 0 out of bounds for length 0"
    case NonUniqueResult => "query did not return a unique result"
    case DataIntegrity(c) => "could not execute statement; constraint [" + c + "]"
    case ConstraintViolation(c) => "Validation failed for classes [" + c + "]"
  }

  /** The outcome of a call that can throw. */
  datatype Result<+T> = Ok(value: T) | Err(error: Error) {
    predicate IsFailure() { Err? }
    function PropagateFailure<U>(): Result<U> requires Err? { Err(error) }
    function Extract(): T requires Ok? { value }
  }
}
