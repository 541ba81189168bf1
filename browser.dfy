/** What the views share: the browser's localStorage, the owner id every
    view reads from it, and the outcome of an awaited API call as the view's
    catch blocks see it. */
module Browser {
  import opened Common
  import opened Http

  /** localStorage: keys to stored strings. */
  type Storage = map<string, string>

  /** The key under which the session keeps the signed-in user's id. */
  const OWNER_KEY: string := "ownerId"

  /** The body of an HTTP error response: a string, some other JSON value,
      or none at all (null or absent). */
  datatype Body = Text(text: string) | Structured | Absent

  /** How an awaited axios call ends: with the response data on a 2xx
      status; with an error carrying the response's status and body; with an
      axios error that has no response (the network failed); or with an error
      that is not an axios error. */
  datatype Outcome<T> = Success(data: T) | HttpFailure(status: int, body: Body) | NoResponse | OtherFailure

  /** The owner id a view reads: null when the key is missing or empty,
      Number(value) otherwise, null again when that is NaN. `toNumber` is
      Number(), None standing for NaN. */
  function StoredOwnerId(storage: Storage, toNumber: string -> Option<real>): (id: Option<real>)
    ensures OWNER_KEY !in storage ==> id.None?
    ensures OWNER_KEY in storage && storage[OWNER_KEY] == "" ==> id.None?
    ensures OWNER_KEY in storage && storage[OWNER_KEY] != "" ==> id == toNumber(storage[OWNER_KEY])
  {
    if OWNER_KEY in storage && storage[OWNER_KEY] != "" then toNumber(storage[OWNER_KEY]) else None
  }

  /** `!ownerId` is false: an id was read and it is not zero. */
  predicate Active(ownerId: Option<real>)
  {
    ownerId.Some? && ownerId.value != 0.0
  }

  /** How a backend response reaches the view: a message of the backend's
      own arrives as a text body; an error without one carries Spring's
      default error object. */
  function Delivered<T>(resp: Response<T>): (o: Outcome<T>)
    ensures resp.Ok? <==> o.Success?
    ensures resp.Ok? ==> o.data == resp.body
    ensures resp.Error? ==> o.HttpFailure? && o.status == resp.status
    ensures resp.Error? && resp.message != NO_MESSAGE ==> o.body == Text(resp.message)
  {
    match resp
    case Ok(b) => Success(b)
    case Error(status, message) => HttpFailure(status, if message == NO_MESSAGE then Structured else Text(message))
  }
}
