/** What the route handlers share: the authenticated caller, optional body
    fields, JavaScript's `x || fallback` on them, and the HTTP responses the
    handlers send (a status code with a body, or an error status with a
    message). */
module Http {

  type UserId = string

  /** Milliseconds since the epoch, as `Date.now()` returns them. */
  type Time = nat

  /** The caller `req.user` that the authentication middleware attaches. */
  datatype Actor = Actor(id: UserId, role: string)

  /** A request-body field: `None` when the client left it out. */
  datatype Option<+T> = None | Some(value: T)

  /** JavaScript truthiness of an optional string: present and not empty. */
  predicate Truthy(x: Option<string>) {
    x.Some? && x.value != ""
  }

  /** `x || fallback` for an optional string. */
  function OrElse(x: Option<string>, fallback: string): (r: string)
    ensures Truthy(x) ==> r == x.value
    ensures !Truthy(x) ==> r == fallback
  {
    if x.Some? && x.value != "" then x.value else fallback
  }

  /** `x !== undefined ? x : fallback`. */
  function IfDefined<T>(x: Option<T>, fallback: T): T {
    match x
    case Some(v) => v
    case None => fallback
  }

  /** The error responses the handlers send, with their message texts. */
  datatype HttpError =
    | BadRequest(message: string)
    | Unauthorized(message: string)
    | NotFound(message: string)
    | ServerError(message: string)
  {
    function Code(): nat {
      match this
      case BadRequest(_) => 400
      case Unauthorized(_) => 401
      case NotFound(_) => 404
      case ServerError(_) => 500
    }
  }

  /** The text every handler's catch block sends with status 500. */
  const ServerErrorText: string := "Server Error"

  /** A response: success status with its JSON body, or an error. */
  datatype Result<+T> = Ok(code: nat, value: T) | Err(error: HttpError)
}
