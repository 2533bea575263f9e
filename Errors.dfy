/**
 * The error taxonomy: one variant per error class of the client. The class
 * fields become constructor arguments; `status` and `name` are read through
 * `Status` and `Name`, as callers read them off any error object.
 */
module Errors {
  import opened Js
  import opened RateLimits

  const INTERNAL_SERVER_ERROR := 500
  const NOT_IMPLEMENTED := 501
  const TOO_MANY_REQUESTS := 429
  const SERVICE_UNAVAILABLE := 503

  /** `GenericError.UNDEFINED_STATUS`. */
  const UNDEFINED_STATUS := INTERNAL_SERVER_ERROR

  const GENERIC_ERROR_MESSAGE := "Generic error"
  const API_KEY_NOT_FOUND_MESSAGE := "Api key not found"

  datatype Err =
      /** A response could not be obtained. `assignedStatus` is the `status` property a
          GenericError constructor writes into the object; the class itself has none. */
    | FetchError(message: string, error: Option<Err>, assignedStatus: Option<int>)
      /** A response was obtained but is not usable (status outside 200-299). */
    | ResponseError(message: string, status: int, body: Option<string>, headers: Headers)
      /** Status 429. `error` is the optional cause. */
    | RateLimitError(rateLimits: RateLimitDto, message: string, error: Option<Err>)
      /** Status 503. The class's own message is set in a file outside this model;
          `messagePrefix` is the text prepended to it afterwards. */
    | ServiceUnavailable(rateLimits: RateLimitDto, cause: Err, messagePrefix: string)
    | GenericError(message: string, status: int, body: Option<string>, rateLimits: RateLimitDto, cause: Err)
    | ApiKeyNotFound
      /** Any other thrown error, such as the SyntaxError of a malformed JSON body. */
    | OtherError(name: string, message: string, assignedStatus: Option<int>)

  /** The `status` property: `None` where it is undefined. */
  function Status(e: Err): Option<int>
  {
    match e
    case FetchError(_, _, s) => s
    case ResponseError(_, s, _, _) => Some(s)
    case RateLimitError(_, _, _) => Some(TOO_MANY_REQUESTS)
    case ServiceUnavailable(_, _, _) => Some(SERVICE_UNAVAILABLE)
    case GenericError(_, s, _, _, _) => Some(s)
    case ApiKeyNotFound => Some(NOT_IMPLEMENTED)
    case OtherError(_, _, s) => s
  }

  /** The `headers` property: only a ResponseError has one. */
  function HeadersOf(e: Err): Option<Headers>
  {
    if e.ResponseError? then Some(e.headers) else None
  }

  /** Errors whose message is fixed by the classes in this model. */
  predicate KnownMessage(e: Err)
  {
    !e.ServiceUnavailable?
  }

  function Message(e: Err): string
    requires KnownMessage(e)
  {
    match e
    case FetchError(m, _, _) => m
    case ResponseError(m, _, _, _) => m
    case RateLimitError(_, m, _) => m
    case GenericError(m, _, _, _, _) => m
    case ApiKeyNotFound => API_KEY_NOT_FOUND_MESSAGE
    case OtherError(_, m, _) => m
  }

  /** The `name` property; the classes that do not set one inherit `Error`. */
  function Name(e: Err): string
    requires KnownMessage(e)
  {
    match e
    case GenericError(_, _, _, _, _) => "GenericError"
    case ResponseError(_, _, _, _) => "ResponseError"
    case ApiKeyNotFound => "ApiKeyNotFound"
    case OtherError(n, _, _) => n
    case FetchError(_, _, _) => "Error"
    case RateLimitError(_, _, _) => "Error"
  }

  /** `new FetchError(message, originalError)`. */
  function NewFetchError(message: string, originalError: Option<Err>): (e: Err)
    ensures e.FetchError? && Message(e) == message && Name(e) == "Error"
    ensures e.error == originalError
    ensures Status(e) == None && HeadersOf(e) == None
  {
    FetchError(message, originalError, None)
  }

  /** `new ResponseError(message, status, body, headers)`. */
  function NewResponseError(message: string, status: int, body: Option<string>, headers: Headers): (e: Err)
    ensures e.ResponseError? && Message(e) == message && Name(e) == "ResponseError"
    ensures Status(e) == Some(status) && e.body == body && HeadersOf(e) == Some(headers)
  {
    ResponseError(message, status, body, headers)
  }

  /** `new RateLimitError(rateLimits, message, error?)`. */
  function NewRateLimitError(rateLimits: RateLimitDto, message: string, error: Option<Err>): (e: Err)
    ensures e.RateLimitError? && Status(e) == Some(TOO_MANY_REQUESTS) && HeadersOf(e) == None
    ensures e.rateLimits == rateLimits && Message(e) == message && e.error == error
  {
    RateLimitError(rateLimits, message, error)
  }

  /** `new ServiceUnavailable(rateLimits, cause)`. */
  function NewServiceUnavailable(rateLimits: RateLimitDto, cause: Err): (e: Err)
    ensures e.ServiceUnavailable? && Status(e) == Some(SERVICE_UNAVAILABLE) && HeadersOf(e) == None
    ensures e.rateLimits == rateLimits && e.cause == cause && e.messagePrefix == ""
  {
    ServiceUnavailable(rateLimits, cause, "")
  }

  /** `new ApiKeyNotFound()`. */
  function NewApiKeyNotFound(): (e: Err)
    ensures Status(e) == Some(NOT_IMPLEMENTED)
    ensures Name(e) == "ApiKeyNotFound" && Message(e) == "Api key not found"
  {
    ApiKeyNotFound
  }

  /** `e.status ??= UNDEFINED_STATUS`, as written into the wrapped error. */
  function WithDefaultStatus(e: Err): (r: Err)
    ensures Status(r) == match Status(e) case Some(s) => Some(s) case None => Some(UNDEFINED_STATUS)
    ensures KnownMessage(e) ==> KnownMessage(r) && Message(r) == Message(e)
  {
    match e
    case FetchError(m, err, None) => FetchError(m, err, Some(UNDEFINED_STATUS))
    case OtherError(n, m, None) => OtherError(n, m, Some(UNDEFINED_STATUS))
    case _ => e
  }

  /** `e.body || e.data`: no error class here has a `data` property. */
  function BodyOf(e: Err): Option<string>
  {
    if e.ResponseError? && e.body.Some? && e.body.value != "" then e.body else None
  }

  /** `new GenericError(rateLimits, e)`. */
  function NewGenericError(rateLimits: RateLimitDto, e: Err): (g: Err)
    requires KnownMessage(e)
    ensures g.GenericError? && Name(g) == "GenericError"
    ensures Message(g) == if Message(e) != "" then Message(e) else GENERIC_ERROR_MESSAGE
    ensures Status(e).Some? ==> Status(g) == Status(e)
    ensures Status(e).None? ==> Status(g) == Some(UNDEFINED_STATUS)
    ensures g.cause == WithDefaultStatus(e) && Status(g.cause) == Status(g)
    ensures g.rateLimits == rateLimits
    ensures g.body == (if e.ResponseError? && e.body != Some("") then e.body else None)
  {
    var cause := WithDefaultStatus(e);
    GenericError(if Message(e) != "" then Message(e) else GENERIC_ERROR_MESSAGE,
                 Status(cause).value, BodyOf(e), rateLimits, cause)
  }

  /** The three kinds the classifier produces. */
  predicate IsWrapped(e: Err)
  {
    e.RateLimitError? || e.ServiceUnavailable? || e.GenericError?
  }

  /** `finalError.message = prefix + finalError.message` on a classified error. */
  function PrefixMessage(e: Err, prefix: string): (r: Err)
    requires IsWrapped(e)
    ensures IsWrapped(r) && Status(r) == Status(e)
    ensures KnownMessage(e) ==> KnownMessage(r) && Message(r) == prefix + Message(e)
    ensures e.ServiceUnavailable? ==> r == ServiceUnavailable(e.rateLimits, e.cause, prefix + e.messagePrefix)
    ensures e.RateLimitError? ==> r == RateLimitError(e.rateLimits, prefix + e.message, e.error)
    ensures e.GenericError? ==> r == GenericError(prefix + e.message, e.status, e.body, e.rateLimits, e.cause)
  {
    match e
    case ServiceUnavailable(rl, c, p) => ServiceUnavailable(rl, c, prefix + p)
    case RateLimitError(rl, m, err) => RateLimitError(rl, prefix + m, err)
    case GenericError(m, s, b, rl, c) => GenericError(prefix + m, s, b, rl, c)
  }
}
