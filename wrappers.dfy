// Option and Result values shared by every module of the model.
module Wrappers {
  datatype Option<T> = None | Some(value: T)

  /** JavaScript truthiness of an optional string: present and not empty. */
  predicate Given(s: Option<string>) {
    s.Some? && s.value != ""
  }

  /** A handler's outcome: a value, or an error the route reports. */
  datatype Result<T, E> = Ok(value: T) | Err(error: E)

  /** An HTTP error response: status code and the message the route sends. */
  datatype ApiError = ApiError(status: int, message: string)
}
