/** The request context the route handlers see: the session returned by
    `getServerSession` (absent, or the signed-in user's id and role) and
    the JSON response they send back. */
module Http {

  import opened Optional

  datatype User = User(id: string, role: string)

  type Session = Option<User>

  const ADMIN := "ADMIN"

  predicate IsAdmin(session: Session) {
    session.Some? && session.value.role == ADMIN
  }

  /** `NextResponse.json(body)` (status 200) or one of the two error
      responses the handlers send: 401 "Unauthorized" and 500 from the
      `catch` block. */
  datatype Response<T> = Ok(body: T) | Unauthorized | ServerError {

    function StatusCode(): int {
      match this
      case Ok(_) => 200
      case Unauthorized => 401
      case ServerError => 500
    }
  }

  /** A request a page sends with `fetch`: its HTTP method, its URL and its JSON body. */
  datatype Request<T> = Request(verb: string, url: string, body: T)
}
