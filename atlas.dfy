/** `AtlasClient`: the database connection singleton. The static side of
    the class (the shared `instance` and `config`) is the object
    `AtlasStatics`; an `AtlasClient` object is one instance, holding its
    driver client and, once connected, its database handle.

    Driver calls are oracles: the outcomes of successive connection attempts
    are a `seq<bool>`, one entry covering `client.connect()` and
    `client.db(...)` together since they share one `try` (an attempt past its
    end fails), the outcome of
    `client.close()` an `Outcome<string>` carrying the driver's error text.
    Waiting with `setTimeout` is counted, not performed. */
module Atlas {
  import opened Wrappers
  import opened Errors

  /** The optional tuning options of a configuration. */
  datatype PoolOptions = PoolOptions(maxPoolSize: Option<int>, maxIdleTimeMS: Option<int>, connectTimeoutMS: Option<int>)

  datatype AtlasConfig = AtlasConfig(uri: string, db: string, options: Option<PoolOptions>)

  /** The driver client as constructed: the URI it connects to and its options. */
  datatype MongoClient = MongoClient(uri: string, options: PoolOptions)

  /** A database handle, for the database of the given name. */
  datatype Db = Db(name: string)

  const DEFAULT_RETRIES := 3
  const DEFAULT_DELAY_MS := 1000

  const ERR_NO_URI := "Database URI must be provided."
  const ERR_NO_DB := "Database name must be provided."
  const ERR_NOT_INITIALIZED := "AtlasClient is not initialized. Call initialize() first."
  const ERR_EXHAUSTED := "All connection attempts to MongoDB Atlas failed."
  const ERR_NOT_CONNECTED := "Database not connected. Call connect() first."

  function DefaultOptions(): PoolOptions {
    PoolOptions(Some(10), Some(60000), Some(60000))
  }

  /** The options the driver client is built with: the configured options
      object taken whole if there is one, only otherwise the defaults. No
      field is filled in from the defaults. */
  function ClientOptions(options: Option<PoolOptions>): (o: PoolOptions)
    ensures options.Some? ==> o == options.value
    ensures options.None? ==> o.maxPoolSize == Some(10) && o.maxIdleTimeMS == Some(60000) && o.connectTimeoutMS == Some(60000)
  {
    match options
    case Some(given) => given
    case None => DefaultOptions()
  }

  /** `validateConfig`: an empty URI is reported before an empty database name. */
  function ValidateConfig(config: AtlasConfig): (r: Outcome<AppError>)
    ensures r.Pass? <==> config.uri != "" && config.db != ""
    ensures config.uri == "" ==> r == Fail(BadRequestError(ERR_NO_URI))
    ensures config.uri != "" && config.db == "" ==> r == Fail(BadRequestError(ERR_NO_DB))
  {
    if config.uri == "" then Fail(BadRequestError(ERR_NO_URI))
    else if config.db == "" then Fail(BadRequestError(ERR_NO_DB))
    else Pass
  }

  /** Whether connection attempt `i` (counting from 0) succeeds: both
      `client.connect()` and `client.db(...)` complete without throwing. */
  predicate AttemptSucceeds(outcomes: seq<bool>, i: nat) {
    i < |outcomes| && outcomes[i]
  }

  function Max0(n: int): nat { if n < 0 then 0 else n }

  /** The static fields of `AtlasClient` and its static methods. */
  class AtlasStatics {
    var instance: AtlasClient?
    var config: Option<AtlasConfig>

    /** The state when the module is loaded. */
    constructor ()
      ensures instance == null && config == None
    {
      instance := null;
      config := None;
    }

    /** `initialize`: validates first, whatever the state; then, only if
        there is no instance, stores the configuration and builds an
        instance from it. A later call changes nothing (first writer wins). */
    method Initialize(config: AtlasConfig) returns (r: Outcome<AppError>)
      modifies this
      ensures r == ValidateConfig(config)
      ensures r.Fail? || old(instance) != null ==> instance == old(instance) && this.config == old(this.config)
      ensures r.Pass? && old(instance) == null ==>
        && this.config == Some(config)
        && instance != null && fresh(instance)
        && instance.client == MongoClient(config.uri, ClientOptions(config.options))
        && instance.db == None
    {
      r := ValidateConfig(config);
      if r.Fail? {
        return;
      }
      if instance == null {
        this.config := Some(config);
        instance := new AtlasClient(config);
      }
    }

    /** `getInstance`: the instance, or an error while there is none. */
    function GetInstance(): (r: Result<AtlasClient, AppError>)
      reads this
      ensures r.Success? <==> instance != null
      ensures r.Success? ==> r.value == instance
      ensures r.Failure? ==> r.error == BadRequestError(ERR_NOT_INITIALIZED)
    {
      if instance == null then Failure(BadRequestError(ERR_NOT_INITIALIZED)) else Success(instance)
    }

  }

  /** One `AtlasClient` instance. */
  class AtlasClient {
    const client: MongoClient
    var db: Option<Db>

    /** The private constructor, called only by `Initialize` once the
        configuration is stored, so it is given that configuration. */
    constructor (config: AtlasConfig)
      ensures client == MongoClient(config.uri, ClientOptions(config.options))
      ensures db == None
    {
      client := MongoClient(config.uri, ClientOptions(config.options));
      db := None;
    }

    /** `connect(retries = 3, delay = 1000)`: `tryConnect` with the defaults
        filled in. */
    method Connect(statics: AtlasStatics, outcomes: seq<bool>, retries: Option<int>, delay: Option<int>)
      returns (result: Outcome<AppError>, attempts: nat, delays: nat)
      requires statics.config.Some?
      modifies this
      ensures var n := retries.GetOr(DEFAULT_RETRIES);
        && (result.Pass? <==> exists k :: 0 <= k < n && AttemptSucceeds(outcomes, k))
        && (result.Pass? ==>
              && 1 <= attempts <= n
              && AttemptSucceeds(outcomes, attempts - 1)
              && (forall j :: 0 <= j < attempts - 1 ==> !AttemptSucceeds(outcomes, j))
              && delays == attempts - 1
              && db == Some(Db(statics.config.value.db)))
        && (result.Fail? ==>
              && attempts == Max0(n)
              && delays == Max0(n - 1)
              && db == old(db)
              && result.error == InternalServerError(ERR_EXHAUSTED))
    {
      result, attempts, delays := TryConnect(statics, outcomes, retries.GetOr(DEFAULT_RETRIES), delay.GetOr(DEFAULT_DELAY_MS));
    }

    /** `tryConnect`: up to `retries` attempts, returning at the first that
        succeeds; after each failed attempt but the last it waits `delay`
        milliseconds. Only a successful attempt sets `db`. An instance is
        built only after `Initialize` stored the configuration, and the
        configuration never goes back to `None`: `Initialize` only sets it to
        `Some` and `Disconnect` keeps it. So a configuration is always present. */
    method TryConnect(statics: AtlasStatics, outcomes: seq<bool>, retries: int, delay: int)
      returns (result: Outcome<AppError>, attempts: nat, delays: nat)
      requires statics.config.Some?
      modifies this
      ensures result.Pass? <==> exists k :: 0 <= k < retries && AttemptSucceeds(outcomes, k)
      ensures result.Pass? ==>
        && 1 <= attempts <= retries
        && AttemptSucceeds(outcomes, attempts - 1)
        && (forall j :: 0 <= j < attempts - 1 ==> !AttemptSucceeds(outcomes, j))
        && delays == attempts - 1
        && db == Some(Db(statics.config.value.db))
      ensures result.Fail? ==>
        && attempts == Max0(retries)
        && delays == Max0(retries - 1)
        && db == old(db)
        && result.error == InternalServerError(ERR_EXHAUSTED)
    {
      attempts, delays := 0, 0;
      var i := 0;
      while i < retries
        invariant 0 <= i && (retries >= 0 ==> i <= retries) && (retries < 0 ==> i == 0)
        invariant attempts == i
        invariant delays == if i < retries || i == 0 then i else i - 1
        invariant forall j :: 0 <= j < i ==> !AttemptSucceeds(outcomes, j)
        invariant db == old(db)
      {
        attempts := attempts + 1;
        if AttemptSucceeds(outcomes, i) {
          db := Some(Db(statics.config.value.db));
          result := Pass;
          return;
        }
        if i < retries - 1 {
          delays := delays + 1;
        }
        i := i + 1;
      }
      result := Fail(InternalServerError(ERR_EXHAUSTED));
    }

    /** `getDb`: the handle once a connect succeeded, an error before. */
    function GetDb(): (r: Result<Db, AppError>)
      reads this
      ensures r.Success? <==> db.Some?
      ensures r.Success? ==> r.value == db.value
      ensures r.Failure? ==> r.error == InternalServerError(ERR_NOT_CONNECTED)
    {
      match db
      case Some(handle) => Success(handle)
      case None => Failure(InternalServerError(ERR_NOT_CONNECTED))
    }

    /** `disconnect`: closes the client; only if that succeeds is the shared
        instance cleared. The configuration is kept either way, and so is
        this instance's own `db`. */
    method Disconnect(statics: AtlasStatics, close: Outcome<string>) returns (r: Outcome<AppError>)
      modifies statics
      ensures statics.instance == if close.Pass? then null else old(statics.instance)
      ensures statics.config == old(statics.config)
      ensures close.Pass? ==> r == Pass
      ensures close.Fail? ==> r == Fail(InternalServerError("Disconnection failed: " + close.error))
    {
      match close
      case Pass =>
        statics.instance := null;
        r := Pass;
      case Fail(error) =>
        r := Fail(InternalServerError("Disconnection failed: " + error));
    }
  }

  /** With a driver that fails every time, `connect(3, 10)` makes three
      attempts, waits twice and reports exhaustion; the handle stays absent. */
  method UnreachableResource() returns (result: Outcome<AppError>, attempts: nat, delays: nat, handle: Result<Db, AppError>)
    ensures result == Fail(InternalServerError(ERR_EXHAUSTED)) && attempts == 3 && delays == 2
    ensures handle == Failure(InternalServerError(ERR_NOT_CONNECTED))
  {
    var statics := new AtlasStatics();
    var init := statics.Initialize(AtlasConfig("mongodb://localhost:1", "app", None));
    var client := statics.instance;
    result, attempts, delays := client.Connect(statics, [], Some(3), Some(10));
    handle := client.GetDb();
  }

  /** A second `initialize` with another configuration is ignored, and a
      stale instance still holds its handle after `disconnect` while the
      shared instance is gone. */
  method FirstWriterWins() returns (kept: Option<AtlasConfig>, afterDisconnect: Result<AtlasClient, AppError>, staleHandle: Result<Db, AppError>)
    ensures kept == Some(AtlasConfig("mongodb://a", "first", None))
    ensures afterDisconnect == Failure(BadRequestError(ERR_NOT_INITIALIZED))
    ensures staleHandle == Success(Db("first"))
  {
    var statics := new AtlasStatics();
    var r1 := statics.Initialize(AtlasConfig("mongodb://a", "first", None));
    var client := statics.instance;
    var r2 := statics.Initialize(AtlasConfig("mongodb://b", "second", None));
    assert statics.instance == client;
    kept := statics.config;
    assert AttemptSucceeds([true], 0);
    var c, attempts, delays := client.Connect(statics, [true], None, None);
    assert attempts == 1 && delays == 0;
    var d := client.Disconnect(statics, Pass);
    afterDisconnect := statics.GetInstance();
    staleHandle := client.GetDb();
  }

  /** After a successful `disconnect` a new configuration takes effect: a
      fresh instance without a handle is built from it. An old instance that
      connects again keeps its old client but asks for the database named in
      the new configuration, since it reads the shared configuration. */
  method ReinitializeAfterDisconnect() returns (renewed: Result<Db, AppError>, stale: Result<Db, AppError>, staleUri: string)
    ensures renewed == Failure(InternalServerError(ERR_NOT_CONNECTED))
    ensures stale == Success(Db("second")) && staleUri == "mongodb://a"
  {
    var statics := new AtlasStatics();
    var r1 := statics.Initialize(AtlasConfig("mongodb://a", "first", None));
    var first := statics.instance;
    var d := first.Disconnect(statics, Pass);
    var r2 := statics.Initialize(AtlasConfig("mongodb://b", "second", None));
    renewed := statics.instance.GetDb();
    assert AttemptSucceeds([true], 0);
    var c, attempts, delays := first.Connect(statics, [true], None, None);
    stale := first.GetDb();
    staleUri := first.client.uri;
  }
}
