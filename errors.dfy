/** The application's error taxonomy: `AppError` and its six subclasses.
    An error value is immutable once built, as the readonly fields of the
    TypeScript classes are. */
module Errors {
  import opened Wrappers

  /** The fields every application error carries. `code` is absent for a
      bare `AppError` built without one. */
  datatype AppError = AppError(statusCode: int, message: string, isOperational: bool, code: Option<string>)

  /** The six subclasses of `AppError`. */
  datatype ErrorClass = BadRequest | Unauthorized | Forbidden | NotFound | TooManyRequests | InternalServer

  /** The base constructor. `isOperational` defaults to true and `code` to
      nothing when the caller leaves them out. */
  function NewAppError(statusCode: int, message: string, isOperational: Option<bool>, code: Option<string>): (e: AppError)
    ensures e.statusCode == statusCode && e.message == message && e.code == code
    ensures e.isOperational <==> isOperational != Some(false)
  {
    AppError(statusCode, message, isOperational.GetOr(true), code)
  }

  function StatusOf(c: ErrorClass): int {
    match c
    case BadRequest => 400
    case Unauthorized => 401
    case Forbidden => 403
    case NotFound => 404
    case TooManyRequests => 429
    case InternalServer => 500
  }

  function CodeOf(c: ErrorClass): string {
    match c
    case BadRequest => "BAD_REQUEST"
    case Unauthorized => "UNAUTHORIZED"
    case Forbidden => "FORBIDDEN"
    case NotFound => "NOT_FOUND"
    case TooManyRequests => "TOO_MANY_REQUESTS"
    case InternalServer => "INTERNAL_SERVER_ERROR"
  }

  function DefaultMessage(c: ErrorClass): string {
    match c
    case BadRequest => "Bad request"
    case Unauthorized => "Unauthorized"
    case Forbidden => "Forbidden"
    case NotFound => "Not found"
    case TooManyRequests => "Too many requests"
    case InternalServer => "Internal server error"
  }

  /** Constructs an error of subclass `c`; an omitted message is replaced by
      the subclass's default message. */
  function NewError(c: ErrorClass, message: Option<string>): (e: AppError)
    ensures e.statusCode == StatusOf(c) && e.code == Some(CodeOf(c))
    ensures e.isOperational <==> c != InternalServer
    ensures message.Some? ==> e.message == message.value
    ensures message.None? ==> e.message == DefaultMessage(c)
  {
    NewAppError(StatusOf(c), message.GetOr(DefaultMessage(c)), Some(c != InternalServer), Some(CodeOf(c)))
  }

  /** `new BadRequestError(message)`, the one subclass the middleware and
      the clients throw for a caller's mistake. */
  function BadRequestError(message: string): (e: AppError)
    ensures e == AppError(400, message, true, Some("BAD_REQUEST"))
  {
    NewError(BadRequest, Some(message))
  }

  /** `new UnauthorizedError(message)`, thrown by the authentication guard. */
  function UnauthorizedError(message: string): (e: AppError)
    ensures e == AppError(401, message, true, Some("UNAUTHORIZED"))
  {
    NewError(Unauthorized, Some(message))
  }

  /** `new InternalServerError(message)`: the one non-operational subclass. */
  function InternalServerError(message: string): (e: AppError)
    ensures e == AppError(500, message, false, Some("INTERNAL_SERVER_ERROR"))
  {
    NewError(InternalServer, Some(message))
  }

  /** A subclass error is operational exactly when its status is a client
      error (4xx); the one server error, 500, is the non-operational one. */
  lemma OperationalIffClientError(c: ErrorClass, message: Option<string>)
    ensures NewError(c, message).isOperational <==> 400 <= NewError(c, message).statusCode < 500
  {
  }

  /** The subclasses are told apart by their status codes and, equally, by
      their code strings. */
  lemma ClassesDistinct(c1: ErrorClass, c2: ErrorClass, m1: Option<string>, m2: Option<string>)
    ensures NewError(c1, m1).statusCode == NewError(c2, m2).statusCode <==> c1 == c2
    ensures NewError(c1, m1).code == NewError(c2, m2).code <==> c1 == c2
  {
  }

  /** A bare `AppError` built with only a status and a message is operational
      and carries no code. */
  lemma BareAppErrorDefaults(statusCode: int, message: string)
    ensures NewAppError(statusCode, message, None, None).isOperational
    ensures NewAppError(statusCode, message, None, None).code == None
  {
  }
}
