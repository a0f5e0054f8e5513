/** The request guard returned by `authMiddleware(secret)`: it checks the
    secret, expects an `authorization` header of the form `"Bearer <token>"`,
    verifies the token and either stores the decoded user on the request or
    passes an `UnauthorizedError` on. `jwt.verify` is an oracle from a token
    and a secret to the decoded user, if the token is valid. */
module Auth {
  import opened Wrappers
  import opened Errors
  import opened Strings

  const BEARER_PREFIX := "Bearer "

  const MSG_NO_SECRET := "Access token secret is required."
  const MSG_NO_TOKEN := "Unauthorized. No token provided."
  const MSG_BAD_FORMAT := "Unauthorized. Invalid token format."
  const MSG_BAD_TOKEN := "Invalid or expired authorization token."

  /** `authorization.split(" ")[1]`; a missing second field reads as the
      empty string, which the guard treats the same way (both are falsy). */
  function BearerToken(authorization: string): (token: string)
    ensures ' ' !in token
  {
    var fields := Split(authorization, ' ');
    if |fields| > 1 then fields[1] else ""
  }

  /** The decision the guard takes for a request: the decoded user, or the
      error handed to `next`. */
  function Authenticate<U>(secret: string, authorization: Option<string>, verify: (string, string) -> Option<U>): (r: Result<U, AppError>)
    ensures r.Failure? ==> r.error.statusCode == 401 && r.error.code == Some("UNAUTHORIZED") && r.error.isOperational
    ensures secret == "" ==> r == Failure(UnauthorizedError(MSG_NO_SECRET))
    ensures secret != "" && (authorization.None? || !StartsWith(authorization.value, BEARER_PREFIX)) ==>
      r == Failure(UnauthorizedError(MSG_NO_TOKEN))
    ensures secret != "" && authorization.Some? && StartsWith(authorization.value, BEARER_PREFIX) && BearerToken(authorization.value) == "" ==>
      r == Failure(UnauthorizedError(MSG_BAD_FORMAT))
    ensures secret != "" && authorization.Some? && StartsWith(authorization.value, BEARER_PREFIX) && BearerToken(authorization.value) != ""
            && verify(BearerToken(authorization.value), secret).None? ==>
      r == Failure(UnauthorizedError(MSG_BAD_TOKEN))
    ensures r.Success? <==>
      && secret != "" && authorization.Some? && StartsWith(authorization.value, BEARER_PREFIX)
      && BearerToken(authorization.value) != "" && verify(BearerToken(authorization.value), secret).Some?
    ensures r.Success? ==> r.value == verify(BearerToken(authorization.value), secret).value
  {
    if secret == "" then Failure(UnauthorizedError(MSG_NO_SECRET))
    else if authorization.None? || !StartsWith(authorization.value, BEARER_PREFIX) then Failure(UnauthorizedError(MSG_NO_TOKEN))
    else
      var token := BearerToken(authorization.value);
      if token == "" then Failure(UnauthorizedError(MSG_BAD_FORMAT))
      else
        match verify(token, secret)
        case Some(user) => Success(user)
        case None => Failure(UnauthorizedError(MSG_BAD_TOKEN))
  }

  /** The token is the text after `"Bearer "` up to the next space. */
  lemma TokenIsFirstWord(rest: string)
    ensures BearerToken(BEARER_PREFIX + rest) == Split(rest, ' ')[0]
  {
    assert BEARER_PREFIX + rest == "Bearer" + [' '] + rest;
    assert ' ' !in "Bearer";
    SplitAtFirst("Bearer", ' ', rest);
  }

  /** Fields after the token are ignored: `"Bearer a b"` gives `"a"`. */
  lemma TrailingFieldsIgnored(token: string, more: string)
    requires ' ' !in token
    ensures BearerToken(BEARER_PREFIX + token + " " + more) == token
  {
    assert BEARER_PREFIX + token + " " + more == BEARER_PREFIX + (token + [' '] + more);
    TokenIsFirstWord(token + [' '] + more);
    SplitAtFirst(token, ' ', more);
  }

  /** A header that is just `"Bearer "`, or has a second space right after
      it, gives an empty token. */
  lemma EmptyTokens(more: string)
    ensures BearerToken(BEARER_PREFIX) == ""
    ensures BearerToken(BEARER_PREFIX + " " + more) == ""
  {
    TokenIsFirstWord("");
    assert BEARER_PREFIX == BEARER_PREFIX + "";
    TrailingFieldsIgnored("", more);
    assert BEARER_PREFIX + "" + " " + more == BEARER_PREFIX + " " + more;
  }

  /** The prefix check is case-sensitive. */
  lemma PrefixIsCaseSensitive(token: string)
    ensures !StartsWith("bearer " + token, BEARER_PREFIX)
  {
    assert ("bearer " + token)[0] == 'b';
  }

  /** `jwt.verify` is consulted only for a non-empty token: when the request
      fails before that, the decision is the same whatever the oracle says. */
  lemma VerifyOnlyWithToken<U>(secret: string, authorization: Option<string>, v1: (string, string) -> Option<U>, v2: (string, string) -> Option<U>)
    requires secret == "" || authorization.None? || !StartsWith(authorization.value, BEARER_PREFIX) || BearerToken(authorization.value) == ""
    ensures Authenticate(secret, authorization, v1) == Authenticate(secret, authorization, v2)
  {
  }

  /** A header value as the request carries it: text from the client, or
      the decoded user the guard stores. */
  datatype HeaderValue<U> = Text(text: string) | Decoded(user: U)

  class Request<U> {
    var headers: map<string, HeaderValue<U>>

    constructor (headers: map<string, HeaderValue<U>>)
      ensures this.headers == headers
    {
      this.headers := headers;
    }
  }

  /** Express's `next`, recording every call: `None` for `next()`, `Some(e)`
      for `next(e)`. */
  class NextFunction {
    var calls: seq<Option<AppError>>

    constructor ()
      ensures calls == []
    {
      calls := [];
    }

    method Call(err: Option<AppError>)
      modifies this
      ensures calls == old(calls) + [err]
    {
      calls := calls + [err];
    }
  }

  /** The `authorization` header as text, if the request has one. */
  function AuthorizationHeader<U>(headers: map<string, HeaderValue<U>>): (h: Option<string>)
    ensures h.Some? <==> "authorization" in headers && headers["authorization"].Text?
    ensures h.Some? ==> h.value == headers["authorization"].text
  {
    if "authorization" in headers && headers["authorization"].Text? then Some(headers["authorization"].text) else None
  }

  /** The guard itself, for one request: `next` is called exactly once, with
      no error when the token verifies (the decoded user then being stored
      under the `user` header) and with the decision's error otherwise, in
      which case the request is left as it was. */
  method AuthMiddleware<U>(secret: string, req: Request<U>, next: NextFunction, verify: (string, string) -> Option<U>)
    modifies req, next
    ensures var decision := Authenticate(secret, AuthorizationHeader(old(req.headers)), verify);
      && next.calls == old(next.calls) + [if decision.Success? then None else Some(decision.error)]
      && req.headers == if decision.Success? then old(req.headers)["user" := Decoded(decision.value)] else old(req.headers)
  {
    var decision := Authenticate(secret, AuthorizationHeader(req.headers), verify);
    match decision
    case Success(user) =>
      req.headers := req.headers["user" := Decoded(user)];
      next.Call(None);
    case Failure(e) =>
      next.Call(Some(e));
  }
}
