/** What a controller answers: a body with status 200, or an error status
    with its message. An exception a handler lets escape is its status:
    ResponseStatusException carries one, and the NoSuchElementException of
    Optional.orElseThrow reaches the client as 500. */
module Http {
  datatype Response<T> = Ok(body: T) | Error(status: int, message: string)

  const BAD_REQUEST: int := 400
  const UNAUTHORIZED: int := 401
  const FORBIDDEN: int := 403
  const NOT_FOUND: int := 404
  const CONFLICT: int := 409
  const SERVER_ERROR: int := 500

  /** The message Spring gives an exception without one of its own. */
  const NO_MESSAGE: string := ""
}
