/**
 * src/redis_client.py: the module-global `redis_client` handle, which is
 * either unset or holds the connection made by the last `initialize_redis`.
 */
module RedisClient {
  import opened Wrappers
  import opened Exceptions

  /** `REDIS_URL` when the environment does not set it. */
  const DefaultRedisUrl: string := "redis://localhost:6379"
  const NotInitializedMessage: string := "Redis client is not initialized. Call 'initialize_redis' first."

  /** `os.getenv("REDIS_URL", "redis://localhost:6379")`. */
  function RedisUrl(setting: Option<string>): (url: string)
    ensures setting.None? ==> url == DefaultRedisUrl
    ensures setting.Some? ==> url == setting.value
  {
    setting.GetOr(DefaultRedisUrl)
  }

  /** A connection object made by `Redis.from_url`; making one does not
      connect, so it cannot fail here. */
  class Redis {
    const url: string
    /** `socket_timeout` and `socket_connect_timeout`, in seconds. */
    const socketTimeout: int
    const connectTimeout: int
    var closed: bool

    constructor (url: string)
      ensures this.url == url && socketTimeout == 1 && connectTimeout == 1 && !closed
    {
      this.url := url;
      socketTimeout := 1;
      connectTimeout := 1;
      closed := false;
    }

    /** `await client.close()`. */
    method Close()
      modifies this
      ensures closed
    {
      closed := true;
    }
  }

  /** The module state: the configured URL and the global handle. */
  class Handle {
    const url: string
    var client: Redis?

    /** Importing the module: the URL is read from the `REDIS_URL` setting
        and the handle starts unset. */
    constructor (setting: Option<string>)
      ensures setting.None? ==> url == DefaultRedisUrl
      ensures setting.Some? ==> url == setting.value
      ensures client == null
    {
      url := RedisUrl(setting);
      client := null;
    }

    /** `initialize_redis`: a fresh connection replaces the handle and is
        returned; a previous connection is dropped without being closed. */
    method InitializeRedis() returns (c: Redis)
      modifies this
      ensures fresh(c) && client == c
      ensures c.url == url && c.socketTimeout == 1 && c.connectTimeout == 1 && !c.closed
      ensures old(client) != null ==> old(client).closed == old(client.closed)
    {
      c := new Redis(url);
      client := c;
    }

    /** `close_redis`: closes the connection and unsets the handle; with the
        handle already unset it does nothing. */
    method CloseRedis()
      modifies this, client
      ensures client == null
      ensures old(client) != null ==> old(client).closed
      ensures old(client) == null ==> unchanged(this)
    {
      if client != null {
        client.Close();
        client := null;
      }
    }

    /** `get_redis`: the handle, or the error raised while it is unset; it
        never changes the handle. */
    method GetRedis() returns (r: Result<Redis, PyException>)
      ensures client == null ==> r == Failure(RuntimeError(NotInitializedMessage))
      ensures client != null ==> r == Success(client)
    {
      if client == null {
        return Failure(RuntimeError(NotInitializedMessage));
      }
      return Success(client);
    }
  }

  /** Initialise, read, close, read: the read after initialising returns the
      connection `initialize_redis` returned, and the read after closing
      raises. */
  method InitializeGetClose(setting: Option<string>) returns (made: Redis, got: Result<Redis, PyException>, afterClose: Result<Redis, PyException>)
    ensures made.url == RedisUrl(setting)
    ensures got == Success(made) && made.closed
    ensures afterClose == Failure(RuntimeError(NotInitializedMessage))
  {
    var h := new Handle(setting);
    made := h.InitializeRedis();
    got := h.GetRedis();
    h.CloseRedis();
    afterClose := h.GetRedis();
  }

  /** Initialising twice: the handle now holds a second, distinct connection,
      and the first is left open. */
  method InitializeTwice(setting: Option<string>) returns (first: Redis, second: Redis, got: Result<Redis, PyException>)
    ensures first != second && !first.closed
    ensures got == Success(second)
  {
    var h := new Handle(setting);
    first := h.InitializeRedis();
    second := h.InitializeRedis();
    got := h.GetRedis();
  }
}
