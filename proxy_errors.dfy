/** Errors of the proxy (src/proxy/errors.rs): the conversions into them and their messages. */
module ProxyErrors {
  import ExternalErrors
  import ConfigErrors

  datatype ProxyError =
    | ForwardHeaderError
    | NoFreePort
    | InvalidIp(ip: string)
    | CacheError(redis: ExternalErrors.RedisError)
    | InvalidUri(uri: ExternalErrors.InvalidUri)
    | HyperError(hyper: ExternalErrors.HyperError)
    | InvalidSocketAddress(address: string)
    | ConfigParseError(config: ConfigErrors.ConfigParseError)
    | RedisConnectionPoolError(pool: ExternalErrors.R2d2Error)

  /** `From<HyperError>`. */
  function FromHyperError(err: ExternalErrors.HyperError): (e: ProxyError)
    ensures e.HyperError? && e.hyper == err
  {
    HyperError(err)
  }

  /** `From<RedisError>`: a failure of the cache becomes `CacheError`. */
  function FromRedisError(err: ExternalErrors.RedisError): (e: ProxyError)
    ensures e.CacheError? && e.redis == err
  {
    CacheError(err)
  }

  /** `From<ConfigParseError>`. */
  function FromConfigParseError(err: ConfigErrors.ConfigParseError): (e: ProxyError)
    ensures e.ConfigParseError? && e.config == err
  {
    ConfigParseError(err)
  }

  /** `From<R2d2Error>`: a failure to take a connection from the pool. */
  function FromR2d2Error(err: ExternalErrors.R2d2Error): (e: ProxyError)
    ensures e.RedisConnectionPoolError? && e.pool == err
  {
    RedisConnectionPoolError(err)
  }

  const FORWARD_HEADER_MESSAGE := "Error occurred when forwarding the header to the destination"
  const NO_FREE_PORT_MESSAGE := "All system ports are exhausted"
  const REDIS_PREFIX := "Redis error: "

  /** `Display for ProxyError`. */
  function Display(e: ProxyError): string {
    match e
    case ConfigParseError(err) => ConfigErrors.Display(err)
    case InvalidIp(ip) => "Invalid IP Address: " + ip
    case RedisConnectionPoolError(err) => REDIS_PREFIX + err.text
    case CacheError(err) => REDIS_PREFIX + err.text
    case ForwardHeaderError => FORWARD_HEADER_MESSAGE
    case InvalidUri(uri) => "Invalid Uri: " + uri.text
    case HyperError(err) => "Server error occured: " + err.text
    case InvalidSocketAddress(address) => "Invalid address provided " + address
    case NoFreePort => NO_FREE_PORT_MESSAGE
  }

  /** Each conversion is one-to-one: it keeps the error it wraps. */
  lemma ConversionsKeepTheirError(c1: ConfigErrors.ConfigParseError, c2: ConfigErrors.ConfigParseError,
                                 r1: ExternalErrors.RedisError, r2: ExternalErrors.RedisError,
                                 p1: ExternalErrors.R2d2Error, p2: ExternalErrors.R2d2Error,
                                 h1: ExternalErrors.HyperError, h2: ExternalErrors.HyperError)
    ensures FromConfigParseError(c1) == FromConfigParseError(c2) ==> c1 == c2
    ensures FromRedisError(r1) == FromRedisError(r2) ==> r1 == r2
    ensures FromR2d2Error(p1) == FromR2d2Error(p2) ==> p1 == p2
    ensures FromHyperError(h1) == FromHyperError(h2) ==> h1 == h2
    ensures FromRedisError(r1) != FromR2d2Error(p1)
  {
  }

  /** A wrapped configuration error shows exactly the inner error's message. */
  lemma ConfigErrorDisplaysInner(err: ConfigErrors.ConfigParseError)
    ensures Display(FromConfigParseError(err)) == ConfigErrors.Display(err)
  {
  }

  /** The fixed messages, and those that embed the offending text. */
  lemma DisplayMessages(ip: string, address: string, uri: ExternalErrors.InvalidUri, hyper: ExternalErrors.HyperError)
    ensures Display(NoFreePort) == "All system ports are exhausted"
    ensures Display(ForwardHeaderError) == "Error occurred when forwarding the header to the destination"
    ensures Display(InvalidIp(ip)) == "Invalid IP Address: " + ip
    ensures Display(InvalidSocketAddress(address)) == "Invalid address provided " + address
    ensures Display(InvalidUri(uri)) == "Invalid Uri: " + uri.text
    ensures Display(HyperError(hyper)) == "Server error occured: " + hyper.text
  {
  }

  /**
   * Cache errors and pool errors share the prefix "Redis error: ", so a
   * cache error and a pool error with the same text cannot be told apart by
   * their messages.
   */
  lemma RedisErrorsShareMessage(text: string)
    ensures Display(FromRedisError(ExternalErrors.RedisError(text))) == "Redis error: " + text
    ensures Display(FromR2d2Error(ExternalErrors.R2d2Error(text))) == "Redis error: " + text
  {
  }
}
