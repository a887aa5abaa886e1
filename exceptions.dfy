/**
  The exceptions that cross the adapter boundary.  The three domain errors
  (LoadingModelError, DisabledEndpointError, AuthenticationError) are the ones
  the base adapter module declares; the rest are the Python built-in
  exceptions that the modelled code raises, and the transport exceptions
  that a backend client may raise.
 */
module Exceptions {

  /** What a backend client may raise.  The first five are the kinds the
      commercial client treats as retryable; anything else is `Other`. */
  datatype BackendException =
    | Timeout
    | APIError
    | APIConnectionError
    | RateLimitError
    | ServiceUnavailableError
    | ClientAuthenticationError
    | Other(name: string)

  datatype Error =
    | TypeError(message: string)
    | ValueError(message: string)
    | KeyError(key: string)
    | IndexError
      /** a missing attribute or method, by name */
    | AttributeError(attribute: string)
    | AssertionError(message: string)
    | LoadingModelError
    | DisabledEndpointError
    | AuthenticationError
      /** a backend exception propagated unchanged */
    | Raised(exception: BackendException)
      /** a bare `Exception(message)` */
    | GenericException(message: string)
}
