/** Shared vocabulary of the backend model: identifiers, the abstract clock
    and the shapes of what a service hands back to its route. */
module Common {

  /** Mongo object ids, kept abstract: only equality between them matters. */
  type UserId = nat
  type ProductId = nat
  type OrderId = nat

  /** Value of the abstract clock behind Mongoose's automatic timestamps. */
  type Time = nat

  datatype Option<T> = None | Some(value: T)

  /** A value, or the message of the error that was thrown instead. */
  datatype Result<T> = Success(value: T) | Failure(error: string)

  /** What a service returns to its route: `{data, statusCode}`, where `data`
      is the payload on success and a human-readable message otherwise. */
  datatype Reply<T> = Ok(statusCode: int, value: T) | Fail(statusCode: int, message: string)
}
