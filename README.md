# Backend utilities: connection lifecycles, pagination, errors and the auth guard

A Dafny model of the parts of the TypeScript utility library that carry logic
of their own:

- `paginate` (`paginate.dfy`, module `Pagination`): argument validation in a
  fixed order, the page count `ceil(length / limit)`, clamping of the
  requested page, the slice window and the `"a-b of n"` range text.
- `AtlasClient` (`atlas.dfy`, module `Atlas`): the database connection
  singleton. The static fields `instance` and `config` are the object
  `AtlasStatics`; each `AtlasClient` object holds its driver client and its
  own `db` handle. Initialisation is first-writer-wins, `connect` is a bounded
  retry loop with a constant delay and early exit, `getDb` fails until a
  connect succeeds, and `disconnect` clears the shared instance only when the
  driver's `close()` succeeds.
- the Redis wrapper (`redis.dfy`, module `Redis`): the module-level
  `redisClient` as the class `RedisModule`, with idempotent init, use, close
  and a ping probe. There is no retry anywhere.
- the error taxonomy (`errors.dfy`, module `Errors`): `AppError` and its
  six subclasses as one immutable datatype with constructor functions.
- the error handler (`error_handler.dfy`, module `ErrorHandler`): the
  structural `isAppError` guard and the response computed from any thrown
  object.
- the auth guard (`auth.dfy`, module `Auth`): the secret check, the
  case-sensitive `"Bearer "` prefix, `split(" ")[1]`, and one call of `next`
  per request. The decision is a pure function and the guard is a method
  that updates the request's headers and records the `next` call.

`strings.dfy` (module `Strings`) holds the three JavaScript string operations
the core relies on: decimal rendering of a number in a template string,
`String.prototype.startsWith` and `String.prototype.split`. `wrappers.dfy` holds `Option`, `Result` and `Outcome`.

External calls are parameters. The outcome of each connection attempt
(`client.connect()` followed by `client.db(...)`, which share one `try`, so
either failing fails the attempt) is one entry of a `seq<bool>`, and an
attempt past its end fails. `client.close()` is an `Outcome<string>` carrying the driver's error
text. Redis `connect()`, `quit()` and `ping()` are each a `bool`. `jwt.verify`
is a function from a token and a secret to `Option<User>`. `setTimeout` is
counted, not performed; each wait lasts `delay` ms. Redis `config.redis` is a
constructor argument.

Facts about the code that the model keeps:

- **Failed close.** `disconnect` clears `instance` only after `close()`
  succeeds, and it never clears `config` (src/utils/atlas.ts:109-118).
- **Connect before initialize.** `connect` is an instance method, so a caller
  first needs `getInstance`, which throws a `BadRequestError` while there is
  no instance (src/utils/atlas.ts:61-68).
- **Handle after teardown.** `db` belongs to the instance and survives
  `disconnect`: an instance a caller still holds keeps answering `getDb`
  (src/utils/atlas.ts:99-118). The shared instance, though, is gone
  (`Atlas.FirstWriterWins`, `Atlas.ReinitializeAfterDisconnect`).
- **Non-positive retries.** `retries <= 0` makes no attempt and throws at
  once (src/utils/atlas.ts:79-95).
- **Error classes.** Invalid configuration and a missing instance throw
  `BadRequestError`. Exhausted retries, a missing `db` and a failed close
  throw `InternalServerError` (src/utils/atlas.ts:41-118).

Two further behaviours of the code are modelled as written:

- **Disconnecting an old instance.** `disconnect` on an instance that is no
  longer the shared one still clears the shared `instance`.
- **Reconnecting an old instance.** An old instance that reconnects after a
  re-initialisation asks for the database named in the new configuration,
  but through its old client.

## Model

| member | source | states |
|---|---|---|
| `Pagination.Paginate` | src/utils/paginate.ts:16-34 | page < 1, limit < 1 and length < 0 are rejected with BadRequestError in that order, with the source's messages; otherwise the call succeeds, and a zero length gives no items, 0 pages and "0-0 of 0" whatever the page |
| `Pagination.PageCountBounds` | src/utils/paginate.ts:37 | for a positive length, `(pages-1)*limit < length <= pages*limit`, i.e. `pages = ceil(length/limit)` |
| `Pagination.PageCount` | src/utils/paginate.ts:37 | zero pages exactly when the length is zero |
| `Pagination.WindowStartsInside` | src/utils/paginate.ts:41 | for an existing page the window's first index `(page-1)*limit` lies in `[0, length)` |
| `Pagination.PaginateWindow` | src/utils/paginate.ts:37-51 | for a positive length: the page count, the clamped page in `1..pages`, `0 <= start < end <= length`, a window of at most `limit`, the items of that window, and the range text of `start+1`, `end` and `length` |
| `Pagination.Slice` | src/utils/paginate.ts:49 | `slice(start, end)` clips both indices to the number of items: its length and that element i is item `start+i` |
| `Pagination.ClampedToLastPage` | src/utils/paginate.ts:38 | a page past the last gives exactly the result of the last page |
| `Pagination.RangeTextReadsBack` | src/utils/paginate.ts:51 | the `"a-b of n"` text parses back to the three numbers it was built from, so it is unambiguous |
| `Pagination.RangeText` | src/utils/paginate.ts:51 | the `"a-b of n"` template; with RangeTextReadsBack its three numbers are read back from it exactly |
| `Pagination.PaginateDefaults` | src/utils/paginate.ts:4-9 | with every default (page 1, limit 10, length = number of items) the call succeeds with the first ten items |
| `Pagination.PagesCoverItems` | src/utils/paginate.ts:37-49 | with the default length, concatenating pages 1 to `pages` reproduces the items exactly |
| `Pagination.PageWindow` | src/utils/paginate.ts:41-49 | with the default length, page p holds items `(p-1)*limit` up to `p*limit`, cut at the end |
| `Strings.NatToString` | src/utils/paginate.ts:51 | an interpolated non-negative integer is a non-empty digit string without a leading zero |
| `Strings.DecimalRoundTrip` | src/utils/paginate.ts:51 | reading an interpolated integer back as decimal gives the integer |
| `Strings.NatToStringInjective` | src/utils/paginate.ts:51 | distinct integers interpolate to distinct texts |
| `Strings.Split` | src/utils/auth.middleware.ts:22 | `split(" ")` yields at least one field and no field contains the separator |
| `Strings.JoinSplit` | src/utils/auth.middleware.ts:22 | joining the fields of `split` with the separator restores the string |
| `Strings.SplitAtFirst` | src/utils/auth.middleware.ts:22 | the first field ends at the first separator |
| `Strings.SplitNoSeparator` | src/utils/auth.middleware.ts:22 | a string without the separator is a single field |
| `Strings.StartsWith` | src/utils/auth.middleware.ts:16 | `s.startsWith(prefix)`: case-sensitive, character by character; true exactly when `s` is `prefix` followed by the rest of `s`; with PrefixIsCaseSensitive a lower-case "bearer " fails |
| `Auth.BearerToken` | src/utils/auth.middleware.ts:22 | field 1 of `split(" ")`, empty if absent; it never contains a space |
| `Auth.Authenticate` | src/utils/auth.middleware.ts:9-42 | an empty secret fails first; then a missing header or one without the exact "Bearer " prefix; then an empty token; then a failed verify; every failure is a 401 UnauthorizedError; success exactly when all checks pass and verify returns a user, which is the result |
| `Auth.TokenIsFirstWord` | src/utils/auth.middleware.ts:22 | the token is the text after "Bearer " up to the next space |
| `Auth.TrailingFieldsIgnored` | src/utils/auth.middleware.ts:22 | `"Bearer a b"` yields `"a"`: fields after the token are ignored |
| `Auth.EmptyTokens` | src/utils/auth.middleware.ts:22-26 | `"Bearer "` and `"Bearer  x"` give an empty token, hence "Invalid token format" |
| `Auth.PrefixIsCaseSensitive` | src/utils/auth.middleware.ts:16 | a lower-case "bearer " header does not pass the prefix check |
| `Auth.VerifyOnlyWithToken` | src/utils/auth.middleware.ts:29-31 | before a non-empty token exists the decision does not depend on `jwt.verify` |
| `Auth.AuthorizationHeader` | src/utils/auth.middleware.ts:14 | the header is present exactly when the request carries a text `authorization` entry, and it is that entry's text |
| `Auth.AuthMiddleware` | src/utils/auth.middleware.ts:7-51 | `next` is called exactly once, with no error on success and the decision's error otherwise; only on success is `headers["user"]` set to the decoded user, and nothing else changes |
| `Errors.NewAppError` | src/utils/error.ts:6-17 | the fields are the arguments; `isOperational` is true unless false is passed |
| `Errors.NewError` | src/utils/error.ts:21-55 | each subclass's status and code; operational exactly when not InternalServerError; the given message, or the subclass default when none is given |
| `Errors.BadRequestError` | src/utils/error.ts:21-25 | status 400, the given message, operational, code "BAD_REQUEST" |
| `Errors.UnauthorizedError` | src/utils/error.ts:27-31 | status 401, the given message, operational, code "UNAUTHORIZED" |
| `Errors.InternalServerError` | src/utils/error.ts:51-55 | status 500, the given message, not operational, code "INTERNAL_SERVER_ERROR" |
| `Errors.OperationalIffClientError` | src/utils/error.ts:21-55 | a subclass error is operational exactly when its status is 4xx |
| `Errors.ClassesDistinct` | src/utils/error.ts:21-55 | status codes, and likewise code strings, identify the subclass |
| `Errors.BareAppErrorDefaults` | src/utils/error.ts:6-11 | a bare AppError is operational and has no code |
| `ErrorHandler.FromAppError` | src/utils/error.ts:2-4 | an AppError passes the handler's structural guard with its own status and message, and counts as operational exactly when its `isOperational` flag is set |
| `ErrorHandler.IsAppError` | src/utils/error-handler.middleware.ts:6-12 | the guard: with AppErrorRecognised every AppError passes it, and with UnrecognisedError a plain Error does not; ErrorResponse uses it for the status and the `code` key |
| `ErrorHandler.Operational` | src/utils/error-handler.middleware.ts:36 | operational only for a recognised error whose flag is true; with ErrorResponse it picks "error" and the message over "fail" and the fixed text |
| `ErrorHandler.ErrorResponse` | src/utils/error-handler.middleware.ts:34-43 | status is the error's statusCode for an AppError, else 500; "error" exactly when operational, else "fail"; the message only when operational; the code key exactly for an AppError |
| `ErrorHandler.AppErrorRecognised` | src/utils/error-handler.middleware.ts:6-12 | every AppError passes the structural guard, and its response carries its status and code |
| `ErrorHandler.ResponseForClass` | src/utils/error-handler.middleware.ts:35-43 | response of each subclass: its status and code, "error" and its message for the five operational ones, "fail" and "Internal Server Error" for InternalServerError |
| `ErrorHandler.UnrecognisedError` | src/utils/error-handler.middleware.ts:35-43 | a plain Error yields 500, "fail", "Internal Server Error" and no code |
| `ErrorHandler.MessageLeaksOnlyWhenOperational` | src/utils/error-handler.middleware.ts:41 | an error's own message reaches the client exactly when the error is operational |
| `Atlas.ClientOptions` | src/utils/atlas.ts:27-39 | configured options are used whole; only with none are the defaults 10 / 60000 / 60000 used, with no per-field merge |
| `Atlas.DefaultOptions` | src/utils/atlas.ts:33-39 | the pool defaults; ClientOptions shows they are 10 / 60000 / 60000 and used only when no options are configured |
| `Atlas.ValidateConfig` | src/utils/atlas.ts:41-48 | valid exactly when uri and db are non-empty; an empty uri is reported before an empty db, both as BadRequestError |
| `Atlas.AtlasStatics.constructor` | src/utils/atlas.ts:16-19 | at load there is no instance and no configuration |
| `Atlas.AtlasStatics.Initialize` | src/utils/atlas.ts:51-58 | validation runs first and its failure changes nothing; with an instance present nothing changes; otherwise the configuration is stored and a fresh, unconnected instance is built from it |
| `Atlas.AtlasStatics.GetInstance` | src/utils/atlas.ts:61-68 | fails with BadRequestError exactly when there is no instance, otherwise returns it |
| `Atlas.AtlasClient.constructor` | src/utils/atlas.ts:21-31 | the driver client gets the configured URI and the options chosen by `ClientOptions`; no handle yet |
| `Atlas.AtlasClient.TryConnect` | src/utils/atlas.ts:78-96 | success exactly when one of the first `retries` attempts succeeds; on success the attempt count is the first successful attempt, with one wait fewer, and `db` is the handle for the stored configuration's database name; on failure `max(retries,0)` attempts, `max(retries-1,0)` waits, InternalServerError and `db` unchanged |
| `Atlas.AtlasClient.Connect` | src/utils/atlas.ts:71-76 | the same as `TryConnect` with retries defaulting to 3 and delay to 1000 |
| `Atlas.AtlasClient.GetDb` | src/utils/atlas.ts:99-106 | fails with InternalServerError exactly while `db` is unset, otherwise returns it |
| `Atlas.AtlasClient.Disconnect` | src/utils/atlas.ts:109-119 | clears the shared instance only when close succeeds; on failure throws InternalServerError with the driver's text and keeps the instance; config is never cleared |
| `Atlas.UnreachableResource` | src/utils/atlas.ts:79-95 | an always-failing driver with 3 retries: 3 attempts, 2 waits, InternalServerError, and `getDb` then fails with InternalServerError |
| `Atlas.FirstWriterWins` | src/utils/atlas.ts:51-58 | a second initialize with another configuration keeps the first; after a successful disconnect getInstance fails, while the instance a caller still holds keeps its handle for the first database |
| `Atlas.ReinitializeAfterDisconnect` | src/utils/atlas.ts:82 | after disconnect a new configuration yields a fresh unconnected instance; an old instance reconnecting uses the new db name with its old URI |
| `Redis.RedisModule.constructor` | src/utils/redis.ts:6-18 | at load there is no client, and the settings later used by `createClient` are `config.redis`; no driver call has been made |
| `Redis.RedisModule.InitRedisClient` | src/utils/redis.ts:8-26 | with a client it does nothing; otherwise it stores the client, connects exactly once, and on failure throws InternalServerError with the client kept |
| `Redis.RedisModule.UseRedisClient` | src/utils/redis.ts:28-36 | fails with BadRequestError exactly when there is no client, otherwise returns it unchanged |
| `Redis.RedisModule.CloseRedisClient` | src/utils/redis.ts:39-52 | with no client nothing happens; otherwise it quits exactly once and clears the client only on success, else throws InternalServerError and keeps it |
| `Redis.RedisModule.CheckRedisConnection` | src/utils/redis.ts:55-68 | never fails and changes nothing; true exactly when there is a client and the ping succeeds |
| `Redis.FailedConnectIsSticky` | src/utils/redis.ts:14-25 | after a failed first connect a second init reports success without connecting, and use hands out the client |

## Left out

- **Logging.** `logger.*` and `console.error` calls are not modelled. They only
  write to the console and log files.
- **Concurrency.** Async functions are modelled as single sequential steps.
  Overlapping `connect` calls and real waiting are not modelled.
- **Driver, client and crypto internals.** MongoClient, the Redis client and
  `jwt.verify` are oracles, because their behaviour lies in external
  libraries that are not part of this model. Database handles are modelled
  by the name they were opened with. Building the MongoClient is assumed to
  succeed: the driver's rejection of a URI that is not `mongodb://` or
  `mongodb+srv://` is not modelled. When that constructor throws, `config` is
  already stored and `instance` stays null (src/utils/atlas.ts:54-55); the
  model cannot reach that state. Likewise `createClient` is assumed to
  succeed. If it throws, the assignment at src/utils/redis.ts:15 never
  happens, so `redisClient` stays null and "Could not connect to Redis" is
  thrown. `Redis.RedisModule.InitRedisClient` always stores the client first.
- getClient: it returns the driver object, which the model does not
  represent. The client's URI and options are the field `client`.
- **The `!Array.isArray(items)` check and the `typeof ... !== "number"` checks
  in `paginate`.** Items are always a sequence in the model, and page, limit
  and length are integers. Fractions, NaN and floating-point rounding of
  `Math.ceil` are outside the model. So are two quirks of JavaScript numbers
  in the range text: integers above 2^53 are not held exactly, and integers
  of 1e21 or more are rendered in exponent form ("1e+21"). `Strings.NatToString`
  renders every natural number in plain decimal. The same holds for `retries`
  in `connect` and `tryConnect` (src/utils/atlas.ts:72, 79, 87), which is a
  JS number: `connect(2.5)` makes 3 attempts and 2 waits, and
  `connect(Infinity)` retries until an attempt succeeds. The model's
  `retries: int` expresses neither.
- **The private constructor's "configuration not set" error.** It cannot
  happen, because the constructor is only run by `initialize` after the
  configuration is stored. The model's constructor therefore takes that
  configuration.
- **The falsy-error case of `isAppError`.** The error handler is always given
  an error object.
- **The JSON encoding of the response.** A bare AppError without a code gives
  a body object whose `code` key holds `undefined`. The model keeps such a key
  as present. JSON encoding would drop it.
- **Code outside the core.** `Error.captureStackTrace`, `setPrototypeOf`,
  Express's `res.status().json()`, the S3, mail, hashing, token-issuing,
  template and directory helpers, and the environment configuration module
  are left out. They are thin wrappers over external libraries or I/O.
- Auth.AuthorizationHeader: a non-text value under `authorization` counts as
  no header. Clients only send text headers, and the guard only stores the
  decoded user under `user`.
- Atlas.AtlasClient.TryConnect: it counts the waits but does not add up
  their length. Each wait is `delay` ms, so the total is the number of waits
  times `delay`.
