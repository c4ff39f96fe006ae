/**
 * The parts of an Express request the middleware reads and writes, the
 * errors it raises, and how a middleware call ends.
 */
module Http {
  import opened Wrappers
  import opened QueryValue

  /**
   * An ErrorResponse carries a message and a status code; a TypeError is
   * JavaScript's own; QueryRefused stands for the database rejecting a query.
   */
  datatype Error = ErrorResponse(message: string, statusCode: int) | TypeError(message: string) | QueryRefused

  /**
   * How a middleware call ends: it calls `next()`, calls `next(err)`, or its
   * returned promise rejects without `next` being called at all.
   */
  datatype Continuation = Next | NextWithError(error: Error) | Rejected(error: Error)

  type UserId = string

  datatype User = User(id: UserId, role: string)

  /** `req.user`: never assigned (`undefined`), assigned `null`, or a user record. */
  datatype UserSlot = Unset | NullUser | LoggedIn(user: User)

  class Request {
    /** `req.query`, in property enumeration order. */
    var query: seq<Entry>
    /** `req.headers.authorization`. */
    var authorization: Option<string>
    /** `req.user`. */
    var user: UserSlot

    constructor (query: seq<Entry>, authorization: Option<string>)
      ensures this.query == query && this.authorization == authorization && user == Unset
    {
      this.query := query;
      this.authorization := authorization;
      this.user := Unset;
    }
  }
}
