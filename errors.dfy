/**
 * What the translation layer can raise: the webob HTTP exceptions built from
 * a backend fault, the ooi exceptions of the compute controller, the errors
 * of the OCCI parser and validator, and the Python built-in exceptions that
 * the dictionary and list operations raise on unexpected data.
 */
module Errors {
  import opened Wrappers
  import opened JsonValues

  /** The webob.exc classes the fault translation can produce. */
  datatype HttpKind =
    | BadRequest
    | Unauthorized
    | Forbidden
    | NotFound
    | MethodNotAllowed
    | NotAcceptable
    | Conflict
    | RequestEntityTooLarge
    | UnsupportedMediaType
    | TooManyRequests
    | NotImplemented
    | ServiceUnavailable
    | InternalServerError

  /** Python built-in exceptions raised by operations on decoded JSON. */
  datatype PyError = KeyError | TypeError | IndexError | AttributeError | ValueError | UnboundLocalError

  datatype Error =
    /** A webob HTTP exception; `JNull` as explanation stands for Python's None (webob's default text). */
    | Http(kind: HttpKind, explanation: Json)
    /** ooi's InvalidAction, carrying the requested action (None when it was missing). */
    | InvalidAction(action: Option<string>)
    /** ooi's NotImplemented, for a known action the controller cannot run. */
    | ActionNotImplemented
    /** An error raised by the OCCI parser or validator. */
    | Occi(reason: string)
    | Python(exc: PyError)
    /** A list or dict formatted into a path with `%s` (see Py.Format). */
    | Unformattable

  datatype Result<+T> = Ok(value: T) | Err(error: Error) {
    predicate IsFailure() { Err? }

    function PropagateFailure<U>(): Result<U>
      requires Err?
    {
      Err(error)
    }

    function Extract(): T
      requires Ok?
    {
      value
    }
  }
}
