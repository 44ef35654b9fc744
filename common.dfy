/** Values shared by every part of the model: Swift optionals, thrown errors,
    identifiers and navigation links. */
module Common {

  /** Swift's `T?`. */
  datatype Option<+T> = None | Some(value: T) {
    /** Swift's nil-coalescing `self ?? default`. */
    function GetOr(default: T): (r: T)
      ensures Some? ==> r == value
      ensures None? ==> r == default
    {
      if Some? then value else default
    }
  }

  /** The HTTP statuses that `Abort` is thrown with in the modelled code. */
  datatype AbortStatus = BadRequest | Forbidden | NotFound

  /** Something thrown: an `Abort` with a status, or a failure raised by code the
      model does not contain (a hook handler, the database). */
  datatype Failure = Abort(status: AbortStatus) | Raised(reason: string)

  /** A call that either returns a value or throws. */
  datatype Result<+T> = Ok(value: T) | Err(failure: Failure)

  /** A `Void` call that either returns or throws. */
  datatype Outcome = Pass | Fail(failure: Failure)

  /** A `UUID`, represented by its `uuidString`. */
  datatype Uuid = Uuid(uuidString: string)

  /** A label (`text`) with a target URL (a breadcrumb entry, a link on a page). */
  datatype Link = Link(text: string, url: string)
}
