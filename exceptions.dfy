/**
 * The Python exceptions the model raises. The two domain error classes come
 * from `src.exceptions`, which is not part of this model; all that matters
 * of them here is their kind and their message, which is what `str(exc)`
 * returns.
 */
module Exceptions {

  /** Exceptions no code in this model catches: the built-in ones that the
      normaliser raises on a payload of the wrong shape (calling `.get` on a
      non-dict, indexing a dict with 0, indexing a number or a boolean), and
      the `redis.exceptions.ResponseError` that Redis answers to `SETEX` with
      an expiry that is not positive. */
  datatype OtherError = AttributeError | KeyError | TypeError | ResponseError

  datatype PyException =
    | RuntimeError(message: string)
      /** `WeatherProviderError`. */
    | WeatherProviderError(message: string)
      /** `WetaherNotFoundError`, as the source spells the class. */
    | WeatherNotFoundError(message: string)
    | Other(kind: OtherError)
}
