/** Values the store exchanges with the outside world: JavaScript's absent values and the
    settled outcome of one HTTP request. */
module Values {

  /** A value that may be missing. In a payload field `None` stands for JavaScript's
      `undefined` (the field was omitted); in a session token it stands for `null`, the answer
      `localStorage.getItem` gives for a missing key. */
  datatype Option<+T> = None | Some(value: T)

  /** What a failed request hands to its `catch` handler: a description of the error and,
      when the server answered, the body of that answer (`error.response.data`). */
  datatype HttpError = HttpError(message: string, response: Option<string>)

  /** How one HTTP request settled: the response body on success, the error otherwise. */
  datatype Outcome<+T> = Success(data: T) | Failure(error: HttpError)
}
