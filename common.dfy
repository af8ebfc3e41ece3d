/** Values shared by every stage of the request pipeline: optional values,
    success-or-failure results, and what a JavaScript `throw` can carry. */
module Common {

  /** An optional value; `None` stands for JavaScript's `undefined`. */
  datatype Option<+T> = None | Some(value: T)

  /** The outcome of an async function that either resolves or rejects. */
  datatype Result<+R, +E> = Success(value: R) | Failure(error: E)

  /** A thrown value: an `Error` instance with its `message`, or anything else
      (a `catch` clause receives whatever was thrown). */
  datatype Thrown = ErrorObject(message: string) | NonError
}
