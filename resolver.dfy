/**
 * The request resolver (src/proxy/resolver.rs): look the path up, run the
 * cache transaction on the rule's key, and choose the response from the
 * previous flag and the rule's action.
 */
module Resolver {
  import opened Wrappers
  import ExternalErrors
  import ConfigJson
  import Constructs
  import ProxyErrors
  import RedisStore

  /** 200 OK, section 15.3.1 of RFC 9110. */
  const OK: nat := 200
  /** 403 Forbidden, section 15.5.4 of RFC 9110. */
  const FORBIDDEN: nat := 403
  /** 500 Internal Server Error, section 15.6.1 of RFC 9110. */
  const INTERNAL_SERVER_ERROR: nat := 500

  /** An HTTP response: its status and its body ("" for `Body::empty()`). */
  datatype Response = Response(status: nat, body: string)

  /** An incoming HTTP request. */
  datatype Request = Request(verb: string, path: string, query: string, headers: seq<(string, string)>, body: string)

  /** The address the proxy listens on. */
  datatype SocketAddr = SocketAddr(ip: string, port: nat)

  /** `hyper_reverse_proxy::call(client_ip, uri, request)`. */
  type Forwarder = (string, string, Request) -> Result<Response, ExternalErrors.HyperReverseProxyError>

  /** `Value::to_string`, the JSON text of a value. */
  type JsonText = ConfigJson.Value -> string

  /** `Config::get_rule`: the rule, if any, configured for a path. */
  type RuleLookup = string -> Option<Constructs.Rule>

  /** How the cache behaves for one call: it works, no pooled connection can be had, or the transaction fails. */
  datatype CacheHealth =
    | Available
    | PoolUnavailable(pool: ExternalErrors.R2d2Error)
    | TransactionFailed(redis: ExternalErrors.RedisError)

  // ---------------------------------------------------------------------------
  // Responses

  /** `body.map_or_else(Body::empty, |j| Body::from(j.0.to_string()))`. */
  function BodyText(text: JsonText, body: Option<ConfigJson.Json>): string {
    match body
    case None => ""
    case Some(j) => text(j.value)
  }

  /** `ok_response`: status 200 with the JSON's text as its body, or an empty body. */
  function OkResponse(text: JsonText, body: Option<ConfigJson.Json>): (r: Response)
    ensures r.status == 200
    ensures body.None? ==> r.body == ""
    ensures body.Some? ==> r.body == text(body.value.value)
  {
    Response(OK, BodyText(text, body))
  }

  /** `forbidden_response`: status 403 with the JSON's text as its body, or an empty body. */
  function ForbiddenResponse(text: JsonText, body: Option<ConfigJson.Json>): (r: Response)
    ensures r.status == 403
    ensures body.None? ==> r.body == ""
    ensures body.Some? ==> r.body == text(body.value.value)
  {
    Response(FORBIDDEN, BodyText(text, body))
  }

  /** `internal_server_error_response`: status 500, empty body. */
  function InternalServerErrorResponse(): (r: Response)
    ensures r.status == 500 && r.body == ""
  {
    Response(INTERNAL_SERVER_ERROR, "")
  }

  // ---------------------------------------------------------------------------
  // Errors of the forwarder

  /** `From<HyperReverseProxyError> for ProxyError`: each variant maps to its namesake. */
  function FromHyperReverseProxyError(err: ExternalErrors.HyperReverseProxyError): (e: ProxyErrors.ProxyError)
    ensures err.ForwardInvalidUri? <==> e.InvalidUri?
    ensures err.ForwardHyperError? <==> e.HyperError?
    ensures err.ForwardHeaderError? <==> e.ForwardHeaderError?
    ensures err.ForwardInvalidUri? ==> e.uri == err.uri
    ensures err.ForwardHyperError? ==> e.hyper == err.hyper
  {
    match err
    case ForwardInvalidUri(uri) => ProxyErrors.InvalidUri(uri)
    case ForwardHyperError(hyper) => ProxyErrors.HyperError(hyper)
    case ForwardHeaderError => ProxyErrors.ForwardHeaderError
  }

  /** `call(...).await?`: the forwarder's response as it is, or its error converted. */
  function Forwarded(res: Result<Response, ExternalErrors.HyperReverseProxyError>): Result<Response, ProxyErrors.ProxyError> {
    match res
    case Ok(response) => Ok(response)
    case Err(err) => Err(FromHyperReverseProxyError(err))
  }

  // ---------------------------------------------------------------------------
  // The decision

  /** The `match (exists, &rule.action)` of `handle_rule`. */
  function Decide(seen: bool, action: Constructs.RuleAction, ip: string, req: Request,
                  forward: Forwarder, text: JsonText): (r: Result<Response, ProxyErrors.ProxyError>)
    ensures !seen && action.Redirect? ==> r == Ok(Response(403, ""))
    ensures !seen && action.Respond? ==> r == Ok(Response(403, text(action.failure.value)))
    ensures seen && action.Respond? ==> r == Ok(Response(200, text(action.success.value)))
    ensures seen && action.Redirect? ==> r == Forwarded(forward(ip, action.uri, req))
  {
    match (seen, action)
    case (false, Redirect(_)) => Ok(ForbiddenResponse(text, None))
    case (false, Respond(_, failure)) => Ok(ForbiddenResponse(text, Some(failure)))
    case (true, Respond(success, _)) => Ok(OkResponse(text, Some(success)))
    case (true, Redirect(uri)) => Forwarded(forward(ip, uri, req))
  }

  // ---------------------------------------------------------------------------
  // The steps of a request, on a snapshot of the store

  /** `exists_or_create`: the answer and the store afterwards. */
  function ExistsOrCreateStep(s: RedisStore.State, ttl: nat, fields: Constructs.RuleFields, health: CacheHealth)
    : (Result<bool, ProxyErrors.ProxyError>, RedisStore.State)
  {
    match health
    case PoolUnavailable(err) => (Err(ProxyErrors.FromR2d2Error(err)), s)
    case TransactionFailed(err) => (Err(ProxyErrors.FromRedisError(err)), s)
    case Available =>
      var (found, s') := RedisStore.GetSetExpire(s, Constructs.Key(fields), ttl);
      (Ok(found.UnwrapOr(false)), s')
  }

  /** `handle_rule`: one cache step, then the decision on its answer. */
  function HandleRuleStep(s: RedisStore.State, socket: SocketAddr, rule: Constructs.Rule, req: Request,
                          health: CacheHealth, forward: Forwarder, text: JsonText)
    : (Result<Response, ProxyErrors.ProxyError>, RedisStore.State)
  {
    var (seen, s') := ExistsOrCreateStep(s, rule.ttl, rule.fields, health);
    match seen
    case Err(e) => (Err(e), s')
    case Ok(flag) => (Decide(flag, rule.action, socket.ip, req, forward, text), s')
  }

  /** `route`: a path without a rule gets 500; otherwise the rule is handled. */
  function RouteStep(s: RedisStore.State, socket: SocketAddr, getRule: RuleLookup, req: Request,
                     health: CacheHealth, forward: Forwarder, text: JsonText)
    : (Result<Response, ProxyErrors.ProxyError>, RedisStore.State)
  {
    match getRule(req.path)
    case None => (Ok(InternalServerErrorResponse()), s)
    case Some(rule) => HandleRuleStep(s, socket, rule, req, health, forward, text)
  }

  // ---------------------------------------------------------------------------
  // The resolver

  /** `Resolver`: the listening address, the configuration and the cache it shares across requests. */
  class Resolver {
    const socket: SocketAddr
    const config: RuleLookup
    const redis: RedisStore.Store

    constructor (socket: SocketAddr, config: RuleLookup, redis: RedisStore.Store)
      ensures this.socket == socket && this.config == config && this.redis == redis
    {
      this.socket := socket;
      this.config := config;
      this.redis := redis;
    }

    method Route(req: Request, health: CacheHealth, forward: Forwarder, text: JsonText)
      returns (r: Result<Response, ProxyErrors.ProxyError>)
      modifies redis
      ensures (r, redis.Snapshot()) == RouteStep(old(redis.Snapshot()), socket, config, req, health, forward, text)
    {
      match config(req.path)
      case None =>
        r := Ok(InternalServerErrorResponse());
      case Some(rule) =>
        r := HandleRule(rule, req, health, forward, text);
    }

    method HandleRule(rule: Constructs.Rule, req: Request, health: CacheHealth, forward: Forwarder, text: JsonText)
      returns (r: Result<Response, ProxyErrors.ProxyError>)
      modifies redis
      ensures (r, redis.Snapshot()) == HandleRuleStep(old(redis.Snapshot()), socket, rule, req, health, forward, text)
    {
      var seen := ExistsOrCreate(rule.ttl, rule.fields, health);
      match seen
      case Err(e) =>
        r := Err(e);
      case Ok(flag) =>
        r := Decide(flag, rule.action, socket.ip, req, forward, text);
    }

    method ExistsOrCreate(ttl: nat, fields: Constructs.RuleFields, health: CacheHealth)
      returns (r: Result<bool, ProxyErrors.ProxyError>)
      modifies redis
      ensures (r, redis.Snapshot()) == ExistsOrCreateStep(old(redis.Snapshot()), ttl, fields, health)
    {
      var key := Constructs.Stringify(fields);
      match health
      case PoolUnavailable(err) =>
        r := Err(ProxyErrors.FromR2d2Error(err));
      case TransactionFailed(err) =>
        r := Err(ProxyErrors.FromRedisError(err));
      case Available =>
        var found := redis.Transaction(key, ttl);
        r := Ok(found.UnwrapOr(false));
    }
  }
  // ---------------------------------------------------------------------------
  // Properties of a request's resolution

  /** A path without a rule gets 500 with an empty body, and the cache is not touched. */
  lemma UnmatchedPathIs500(s: RedisStore.State, socket: SocketAddr, getRule: RuleLookup, req: Request,
                           health: CacheHealth, forward: Forwarder, text: JsonText)
    requires getRule(req.path).None?
    ensures RouteStep(s, socket, getRule, req, health, forward, text) == (Ok(Response(500, "")), s)
  {
  }

  /**
   * A matched rule runs exactly one transaction, on the key of its fields and
   * with its ttl, and the response is chosen from that transaction's previous
   * value (false when there was none).
   */
  lemma MatchedRuleRunsOneTransaction(s: RedisStore.State, socket: SocketAddr, getRule: RuleLookup, req: Request,
                                      forward: Forwarder, text: JsonText)
    requires getRule(req.path).Some?
    ensures var rule := getRule(req.path).value;
            var (found, s') := RedisStore.GetSetExpire(s, Constructs.Key(rule.fields), rule.ttl);
            RouteStep(s, socket, getRule, req, Available, forward, text)
              == (Decide(found.UnwrapOr(false), rule.action, socket.ip, req, forward, text), s')
  {
  }

  /**
   * The cache step never reads the request: for a given rule, whatever the
   * request, the forwarder or the JSON text, the store ends up the same and
   * the flag the decision is taken on is the same.
   */
  lemma CacheStepIgnoresRequest(s: RedisStore.State, socket: SocketAddr, rule: Constructs.Rule, health: CacheHealth,
                                req1: Request, forward1: Forwarder, text1: JsonText,
                                req2: Request, forward2: Forwarder, text2: JsonText)
    ensures HandleRuleStep(s, socket, rule, req1, health, forward1, text1).1
         == HandleRuleStep(s, socket, rule, req2, health, forward2, text2).1
    ensures health.Available? ==>
      var flag := RedisStore.Get(s, Constructs.Key(rule.fields)).UnwrapOr(false);
      HandleRuleStep(s, socket, rule, req1, health, forward1, text1).0 == Decide(flag, rule.action, socket.ip, req1, forward1, text1)
  {
  }

  /**
   * A pool or transaction failure is returned as the matching error and leaves
   * the store as it was; it never becomes a flag or a response.
   */
  lemma CacheFailureIsAnError(s: RedisStore.State, socket: SocketAddr, rule: Constructs.Rule, req: Request,
                              health: CacheHealth, forward: Forwarder, text: JsonText)
    requires !health.Available?
    ensures var (r, s') := HandleRuleStep(s, socket, rule, req, health, forward, text);
            s' == s && r.Err?
            && (health.PoolUnavailable? ==> r.error == ProxyErrors.RedisConnectionPoolError(health.pool))
            && (health.TransactionFailed? ==> r.error == ProxyErrors.CacheError(health.redis))
  {
  }

  /**
   * Handling a rule fails exactly when the cache fails, or when the flag is
   * true, the action forwards and the forwarder fails.
   */
  lemma HandleRuleFailsOnlyOnFailure(s: RedisStore.State, socket: SocketAddr, rule: Constructs.Rule, req: Request,
                                     health: CacheHealth, forward: Forwarder, text: JsonText)
    ensures var flag := RedisStore.Get(s, Constructs.Key(rule.fields)).UnwrapOr(false);
            var failed := HandleRuleStep(s, socket, rule, req, health, forward, text).0.Err?;
            failed <==> (!health.Available?
                         || (flag && rule.action.Redirect? && forward(socket.ip, rule.action.uri, req).Err?))
  {
  }

  /**
   * The forwarder is consulted only when the flag is true and the action
   * forwards, and then only on the listening IP, the rule's uri and the request.
   */
  lemma ForwarderOnlyOnSeenRedirect(seen: bool, action: Constructs.RuleAction, ip: string, text: JsonText,
                                    req1: Request, forward1: Forwarder, req2: Request, forward2: Forwarder)
    ensures !(seen && action.Redirect?) ==>
      Decide(seen, action, ip, req1, forward1, text) == Decide(seen, action, ip, req2, forward2, text)
    ensures seen && action.Redirect? && forward1(ip, action.uri, req1) == forward2(ip, action.uri, req2) ==>
      Decide(seen, action, ip, req1, forward1, text) == Decide(seen, action, ip, req2, forward2, text)
  {
  }

  /**
   * The first request whose key is not held (absent, expired or false) is
   * refused with 403: with an empty body for a forwarding rule, with the
   * failure payload for a responding rule.
   */
  lemma FirstRequestIsForbidden(s: RedisStore.State, socket: SocketAddr, rule: Constructs.Rule, req: Request,
                                forward: Forwarder, text: JsonText)
    requires RedisStore.Get(s, Constructs.Key(rule.fields)) != Some(true)
    ensures var r := HandleRuleStep(s, socket, rule, req, Available, forward, text).0;
            r.Ok? && r.value.status == 403
            && (rule.action.Redirect? ==> r.value.body == "")
            && (rule.action.Respond? ==> r.value.body == text(rule.action.failure.value))
  {
  }

  /**
   * A second request on the same rule at most `ttl` ms after the first,
   * whatever its content, is answered with 200 and the success payload, or
   * forwarded to the rule's uri.
   */
  lemma RepeatWithinTtlIsAccepted(s: RedisStore.State, socket: SocketAddr, rule: Constructs.Rule,
                                  req1: Request, req2: Request, gap: nat, forward: Forwarder, text: JsonText)
    requires 0 < rule.ttl && gap <= rule.ttl
    ensures var s1 := HandleRuleStep(s, socket, rule, req1, Available, forward, text).1;
            var r := HandleRuleStep(RedisStore.Advance(s1, gap), socket, rule, req2, Available, forward, text).0;
            (rule.action.Respond? ==> r == Ok(Response(200, text(rule.action.success.value))))
            && (rule.action.Redirect? ==> r == Forwarded(forward(socket.ip, rule.action.uri, req2)))
  {
    var key := Constructs.Key(rule.fields);
    var s1 := HandleRuleStep(s, socket, rule, req1, Available, forward, text).1;
    assert s1 == RedisStore.GetSetExpire(s, key, rule.ttl).1;
    assert RedisStore.Get(RedisStore.Advance(s1, gap), key) == Some(true);
  }

  /**
   * A request that comes more than `ttl` ms after the previous one on the
   * same rule, or any request after one on a rule whose ttl is 0, finds the
   * key gone and is refused with 403 again.
   */
  lemma ExpiredRepeatIsForbidden(s: RedisStore.State, socket: SocketAddr, rule: Constructs.Rule,
                                 req1: Request, req2: Request, gap: nat, forward: Forwarder, text: JsonText)
    requires rule.ttl == 0 || gap > rule.ttl
    ensures var s1 := HandleRuleStep(s, socket, rule, req1, Available, forward, text).1;
            var r := HandleRuleStep(RedisStore.Advance(s1, gap), socket, rule, req2, Available, forward, text).0;
            r.Ok? && r.value.status == 403
  {
    var key := Constructs.Key(rule.fields);
    var s1 := HandleRuleStep(s, socket, rule, req1, Available, forward, text).1;
    assert s1 == RedisStore.GetSetExpire(s, key, rule.ttl).1;
    assert RedisStore.Get(RedisStore.Advance(s1, gap), key) == None;
    FirstRequestIsForbidden(RedisStore.Advance(s1, gap), socket, rule, req2, forward, text);
  }
}
