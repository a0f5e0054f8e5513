/** The Express error handler: recognises application errors structurally
    and turns any thrown error into the JSON response sent to the client. */
module ErrorHandler {
  import opened Wrappers
  import opened Errors

  /** The run-time type of a property read off a thrown object. */
  datatype JsValue = Undefined | Null | Num(n: int) | Bool(b: bool) | Str(s: string)

  /** A thrown object as the handler sees it: its message and the three
      properties the handler inspects. */
  datatype ErrorObject = ErrorObject(message: string, statusCode: JsValue, isOperational: JsValue, code: JsValue)

  /** The object an `AppError` is at run time. */
  function FromAppError(e: AppError): (o: ErrorObject)
    ensures IsAppError(o) && o.statusCode.n == e.statusCode && o.message == e.message
    ensures Operational(o) <==> e.isOperational
  {
    ErrorObject(e.message, Num(e.statusCode), Bool(e.isOperational),
                match e.code case Some(s) => Str(s) case None => Undefined)
  }

  /** A plain `Error` thrown by library code: it has none of the three properties. */
  function PlainError(message: string): ErrorObject {
    ErrorObject(message, Undefined, Undefined, Undefined)
  }

  /** The structural type guard: a numeric `statusCode` and a boolean
      `isOperational`, nothing else. */
  predicate IsAppError(err: ErrorObject) {
    err.statusCode.Num? && err.isOperational.Bool?
  }

  /** Whether the handler treats the error as operational; anything that is
      not an application error counts as non-operational. */
  predicate Operational(err: ErrorObject) {
    IsAppError(err) && err.isOperational.b
  }

  /** The HTTP status and the JSON body. `code` is `Some` exactly when the
      body object has a `code` key, whatever its value. */
  datatype Response = Response(httpStatus: int, status: string, message: string, code: Option<JsValue>)

  const HIDDEN_MESSAGE := "Internal Server Error"

  function ErrorResponse(err: ErrorObject): (r: Response)
    ensures r.httpStatus == (if IsAppError(err) then err.statusCode.n else 500)
    ensures r.status == "error" <==> Operational(err)
    ensures r.status == "fail" <==> !Operational(err)
    ensures r.message == (if Operational(err) then err.message else HIDDEN_MESSAGE)
    ensures r.code.Some? <==> IsAppError(err)
    ensures r.code.Some? ==> r.code.value == err.code
  {
    var statusCode := if IsAppError(err) then err.statusCode.n else 500;
    var isOperational := if IsAppError(err) then err.isOperational.b else false;
    Response(statusCode,
             if isOperational then "error" else "fail",
             if isOperational then err.message else HIDDEN_MESSAGE,
             if IsAppError(err) then Some(err.code) else None)
  }

  /** Every application error passes the type guard, and its response
      carries its own status code and code. */
  lemma AppErrorRecognised(e: AppError)
    ensures IsAppError(FromAppError(e))
    ensures ErrorResponse(FromAppError(e)).httpStatus == e.statusCode
    ensures ErrorResponse(FromAppError(e)).code == Some(if e.code.Some? then Str(e.code.value) else Undefined)
  {
  }

  /** The response to an error of each subclass: its status and code, with
      `"error"` and the error's own message for the five operational classes
      and `"fail"` with a fixed text for `InternalServerError`, whose message
      therefore never reaches the client. */
  lemma ResponseForClass(c: ErrorClass, message: Option<string>)
    ensures var r := ErrorResponse(FromAppError(NewError(c, message)));
      && r.httpStatus == StatusOf(c)
      && r.code == Some(Str(CodeOf(c)))
      && (c != InternalServer ==> r.status == "error" && r.message == NewError(c, message).message)
      && (c == InternalServer ==> r.status == "fail" && r.message == HIDDEN_MESSAGE)
  {
  }

  /** An unrecognised error yields 500, `"fail"`, the fixed text and no code. */
  lemma UnrecognisedError(message: string)
    ensures ErrorResponse(PlainError(message)) == Response(500, "fail", HIDDEN_MESSAGE, None)
  {
  }

  /** The client only ever sees an error's own message when the error is an
      operational application error. */
  lemma MessageLeaksOnlyWhenOperational(err: ErrorObject)
    requires err.message != HIDDEN_MESSAGE
    ensures ErrorResponse(err).message == err.message <==> Operational(err)
  {
  }
}
