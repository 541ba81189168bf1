/** Shared vocabulary of the backend and the frontend: optional values,
    instants and the durations the services subtract from "now". */
module Common {

  /** A Java reference that may be null, or a JavaScript value that may be
      undefined. */
  datatype Option<+T> = None | Some(value: T)
  {
    function GetOr(default: T): T
    {
      match this
      case Some(v) => v
      case None => default
    }
  }

  /** An instant, in milliseconds since the epoch. */
  type Instant = int

  const MILLIS_PER_MINUTE: int := 60 * 1000
  const MILLIS_PER_DAY: int := 24 * 60 * MILLIS_PER_MINUTE

  /** An hour of the day in some time zone. */
  type Hour = h: int | 0 <= h < 24
}
