/** The Redis client wrapper: a lazily created module-level client with
    init, use, close and a liveness probe, and no retry. The client's own
    `connect()`, `quit()` and `ping()` are oracles: each call's outcome is a
    parameter. */
module Redis {
  import opened Wrappers
  import opened Errors

  /** The `config.redis` settings the client is created from. */
  datatype RedisSettings = RedisSettings(password: string, host: string, port: int)

  /** The object `createClient` returns. */
  datatype RedisClient = RedisClient(settings: RedisSettings)

  const ERR_CONNECT := "Could not connect to Redis"
  const ERR_NOT_INITIALIZED := "Redis client is not initialized. Please call initRedisClient first."
  const ERR_DISCONNECT := "Could not disconnect Redis client"

  /** The module's state: the `redisClient` variable, with ghost counts of
      the driver calls made so far. */
  class RedisModule {
    const settings: RedisSettings
    var redisClient: Option<RedisClient>
    ghost var connectCalls: nat
    ghost var quitCalls: nat

    /** The state when the module is loaded. */
    constructor (settings: RedisSettings)
      ensures this.settings == settings && redisClient == None
      ensures connectCalls == 0 && quitCalls == 0
    {
      this.settings := settings;
      redisClient := None;
      connectCalls, quitCalls := 0, 0;
    }

    /** `initRedisClient`: nothing happens when a client exists. Otherwise
        the client is stored BEFORE it connects, so a failed connect reports
        an error and still leaves the client in place. */
    method InitRedisClient(connectOk: bool) returns (r: Outcome<AppError>)
      modifies this
      ensures quitCalls == old(quitCalls)
      ensures old(redisClient).Some? ==> r == Pass && redisClient == old(redisClient) && connectCalls == old(connectCalls)
      ensures old(redisClient).None? ==>
        && redisClient == Some(RedisClient(settings))
        && connectCalls == old(connectCalls) + 1
        && r == if connectOk then Pass else Fail(InternalServerError(ERR_CONNECT))
    {
      if redisClient.Some? {
        return Pass;
      }
      redisClient := Some(RedisClient(settings));
      connectCalls := connectCalls + 1;
      if connectOk {
        r := Pass;
      } else {
        r := Fail(InternalServerError(ERR_CONNECT));
      }
    }

    /** `useRedisClient`: the client, or an error while there is none. */
    function UseRedisClient(): (r: Result<RedisClient, AppError>)
      reads this
      ensures r.Success? <==> redisClient.Some?
      ensures r.Success? ==> r.value == redisClient.value
      ensures r.Failure? ==> r.error == BadRequestError(ERR_NOT_INITIALIZED)
    {
      match redisClient
      case Some(c) => Success(c)
      case None => Failure(BadRequestError(ERR_NOT_INITIALIZED))
    }

    /** `closeRedisClient`: with no client, nothing happens and nothing is
        reported. Otherwise the client is quit once, and cleared only if
        that succeeds. */
    method CloseRedisClient(quitOk: bool) returns (r: Outcome<AppError>)
      modifies this
      ensures connectCalls == old(connectCalls)
      ensures old(redisClient).None? ==> r == Pass && redisClient == None && quitCalls == old(quitCalls)
      ensures old(redisClient).Some? ==>
        && quitCalls == old(quitCalls) + 1
        && redisClient == (if quitOk then None else old(redisClient))
        && r == if quitOk then Pass else Fail(InternalServerError(ERR_DISCONNECT))
    {
      if redisClient.None? {
        return Pass;
      }
      quitCalls := quitCalls + 1;
      if quitOk {
        redisClient := None;
        r := Pass;
      } else {
        r := Fail(InternalServerError(ERR_DISCONNECT));
      }
    }

    /** `checkRedisConnection`: a query that never fails and changes nothing;
        true exactly when there is a client and it answers the ping. */
    function CheckRedisConnection(pingOk: bool): (alive: bool)
      reads this
      ensures alive <==> redisClient.Some? && pingOk
      ensures redisClient.None? ==> !alive
    {
      if redisClient.None? then false else pingOk
    }
  }

  /** A failed first connect leaves the client behind: a second
      `initRedisClient` then does nothing and reports success, without a new
      connect, and `useRedisClient` hands out the never-connected client. */
  method FailedConnectIsSticky(settings: RedisSettings) returns (first: Outcome<AppError>, second: Outcome<AppError>, used: Result<RedisClient, AppError>)
    ensures first == Fail(InternalServerError(ERR_CONNECT))
    ensures second == Pass
    ensures used == Success(RedisClient(settings))
  {
    var m := new RedisModule(settings);
    first := m.InitRedisClient(false);
    second := m.InitRedisClient(true);
    used := m.UseRedisClient();
    assert m.connectCalls == 1;
  }
}
