# Murundiri decision core, in Dafny

Murundiri is an idempotency reverse proxy. Each request path is matched to a
configured rule. The rule names some request fields, a time window (`ttl`, in
milliseconds) and an action. The proxy runs one Redis transaction on a key
derived from the rule: `GETSET key true` followed by `PEXPIRE key ttl`. From the
value it gets back and the rule's action it then either answers with a canned
JSON payload or forwards the request upstream.

This project models that decision core:

- the rule model and its cache key (`Constructs`);
- path patterns compared by source text (`UrlRegex`);
- the JSON payload wrapper and its equality (`ConfigJson`, `UtilsJson`);
- the configuration and proxy errors, their `From` conversions and messages
  (`ConfigErrors`, `ProxyErrors`, with Rust's decimal formatting of `usize` in
  `Decimal`);
- the Redis keyspace as a class over a map and a millisecond clock
  (`RedisStore`);
- the resolver: `route`, `handle_rule`, `exists_or_create` and the response
  builders (`Resolver`).

`Resolver.Resolver` and `RedisStore.Store` are classes because the source
updates the cache in place. Their methods are proved against pure step
functions (`RouteStep`, `HandleRuleStep`, `ExistsOrCreateStep`,
`GetSetExpire`), and the properties are lemmas about those functions.

Foreign code becomes parameters:

- the rule lookup `Config::get_rule` is a `RuleLookup` function of the path;
- the regex crate is a `RegexEngine` (which texts compile, what a pattern
  matches);
- `Value::to_string` is a `JsonText` function;
- `hyper_reverse_proxy::call` is a `Forwarder`;
- whether the connection pool and the transaction work on a given call is a
  `CacheHealth` argument;
- time passes only through `Store.Tick`.

## Behaviour of the code as written

These follow from the code. The first, second and last differ from the
intended behaviour of an idempotency proxy; the model follows the code.

- The flag is the key's previous value, or false when the key is absent. The
  first request on a rule is therefore refused with 403. A repeat within the
  ttl gets 200 with the success payload, or is forwarded. The intent is the
  reverse: a fresh key is accepted and a repeat is refused. See
  `Resolver.FirstRequestIsForbidden` and `Resolver.RepeatWithinTtlIsAccepted`.
- The key is built from the configured field names, not from request values.
  Every request matched to one rule shares one key, where the intent is a
  fingerprint of the selected request values. See
  `Resolver.CacheStepIgnoresRequest`.
- Every transaction resets the expiry to now + ttl, so the window slides. See
  `RedisStore.ReplayFlags`.
- `Json` equality compares `as_str()` projections, so any two non-string
  payloads are equal. That includes the default success and failure objects.
  See `Constructs.DefaultAction`.
- Only `Rule.ttl` has a deserialization default. `Rule.action` has none, so
  `RuleAction::default()` is never used for a rule that omits its action,
  although that is what the default is meant for.

## Model

| member | source | states |
|---|---|---|
| `Decimal.NatToString` | src/config/errors.rs:21-26 | the `{}` text of a line or column number is a non-empty string of digits: "0" for zero, otherwise with no leading zero |
| `Decimal.ParseNatToString` | src/config/errors.rs:21-26 | reading that text back gives the number |
| `Decimal.NatToStringInjective` | src/config/errors.rs:21-26 | different numbers are written differently |
| `ConfigJson.AsStr` | src/config/json.rs:9 | `as_str()` yields text exactly for a JSON string, and that text is the string's |
| `ConfigJson.Eq` | src/config/json.rs:7-11 | strings are equal iff their texts are; a string never equals a non-string; any two non-strings are equal |
| `ConfigJson.FromValue` | src/config/json.rs:15-19 | `Into<Json>` wraps the value unchanged |
| `ConfigJson.EqIsEquivalence` | src/config/json.rs:13 | the equality is reflexive, symmetric and transitive, which makes `impl Eq` sound |
| `ConfigJson.ContentIgnoredForNonStrings` | src/config/json.rs:7-11 | objects with different members, and a number and null, compare equal |
| `UtilsJson.Eq` | src/utils/json.rs:7-11 | the utils copy's equality agrees with the configuration `Json` equality on every pair |
| `UtilsJson.EqCases` | src/utils/json.rs:7-11 | strings compare by text, a string never equals a non-string, non-strings are all equal |
| `UtilsJson.EqIsEquivalence` | src/utils/json.rs:13 | the utils copy's equality is an equivalence relation |
| `UrlRegex.FromStr` | src/config/url_regex.rs:14-18 | fails with `InvalidRegexRule` iff the pattern does not compile; on success the pattern's text is the input |
| `UrlRegex.Eq` | src/config/url_regex.rs:23-27 | two patterns are equal iff their source texts are |
| `UrlRegex.EqIsEquivalence` | src/config/url_regex.rs:21-27 | that equality is reflexive, symmetric and transitive |
| `UrlRegex.HashAgreesWithEq` | src/config/url_regex.rs:29-33 | equal patterns hash equally, for every hasher, since only the text is hashed |
| `UrlRegex.EqualPatternsMatchAlike` | src/config/url_regex.rs:10-12 | `match_url` depends only on the pattern and the URI, so equal patterns match the same URIs |
| `UrlRegex.FromStrRoundTrip` | src/config/url_regex.rs:14-18 | compiling a compiled pattern's text yields an equal pattern |
| `ConfigErrors.DisplayMessages` | src/config/errors.rs:14-29 | the message of each of the three variants, including both forms of a syntax error |
| `ConfigErrors.LocatedMessageShowsLine` | src/config/errors.rs:21-26 | the line of a located syntax error can be read back from its message |
| `ConfigErrors.DisplayNotInjective` | src/config/errors.rs:19-28 | a syntax error without a location can display the same as `InvalidRegexRule` |
| `ProxyErrors.FromHyperError` | src/proxy/errors.rs:20-24 | a hyper error becomes `HyperError` carrying it |
| `ProxyErrors.FromRedisError` | src/proxy/errors.rs:26-30 | a Redis error becomes `CacheError` carrying it |
| `ProxyErrors.FromConfigParseError` | src/proxy/errors.rs:32-36 | a configuration error becomes `ConfigParseError` carrying it |
| `ProxyErrors.FromR2d2Error` | src/proxy/errors.rs:38-42 | a pool error becomes `RedisConnectionPoolError` carrying it |
| `ProxyErrors.ConversionsKeepTheirError` | src/proxy/errors.rs:20-42 | each conversion is one-to-one, and cache and pool errors land in different variants |
| `ProxyErrors.ConfigErrorDisplaysInner` | src/proxy/errors.rs:49 | a wrapped configuration error displays exactly as the inner error |
| `ProxyErrors.DisplayMessages` | src/proxy/errors.rs:46-67 | the fixed messages of `NoFreePort` and `ForwardHeaderError`; `InvalidIp`, `InvalidSocketAddress`, `InvalidUri` ("Invalid Uri: ") and `HyperError` ("Server error occured: ") append their text to a fixed prefix |
| `ProxyErrors.RedisErrorsShareMessage` | src/proxy/errors.rs:51-54 | cache and pool errors both display "Redis error: " followed by their text |
| `Constructs.FoldConcatIsConcat` | src/config/constructs.rs:75-79 | the fold appends the in-order concatenation of the names to its accumulator |
| `Constructs.NamesKey` | src/config/constructs.rs:75-79 | `Vec<String>::stringify`, the left fold from "", equals the in-order concatenation `Concat` of the names |
| `Constructs.NamesKeyIsConcatenation` | src/config/constructs.rs:75-79 | `Vec<String>::stringify` is the concatenation of the names with no separator; the empty vector gives "" |
| `Constructs.NamesKeyNotInjective` | src/config/constructs.rs:77 | `["ab","c"]` and `["a","bc"]` give the same text |
| `Constructs.Stringify` | src/config/constructs.rs:20-38 | appending the present sections one by one gives the key `Key` of the fields |
| `Constructs.KeyEmptyIffNoSelectors` | src/config/constructs.rs:20-38 | the key is "" iff body, query and header are all absent |
| `Constructs.KeyStartsWithFirstPresentSection` | src/config/constructs.rs:24-34 | the key opens with the first present section, in the order body, query, header, each a tag, the names and "," |
| `Constructs.KeyEndsWithComma` | src/config/constructs.rs:24-34 | every non-empty key ends with "," |
| `Constructs.EmptySelectorIsNotAbsent` | src/config/constructs.rs:24-26 | `Some([])` for body contributes "body::," and so gives a different key from `None` |
| `Constructs.KeyNotInjective` | src/config/constructs.rs:20-38 | two different selections can share a key |
| `Constructs.DefaultTtl` | src/config/constructs.rs:67-69 | the default window is one day in milliseconds |
| `Constructs.DeserializeRule` | src/config/constructs.rs:5-11 | a rule without `ttl` takes 86400000; a given `ttl`, the fields and the action are kept |
| `Constructs.DefaultAction` | src/config/constructs.rs:49-65 | the default responds with the documented success and failure objects, which differ yet compare equal as `Json` |
| `RedisStore.GetSetExpire` | src/proxy/resolver.rs:59-68 | the transaction answers the previous live value; for ttl > 0 it stores true with expiry now + ttl, for ttl = 0 it deletes `key`; it adds no other key and keeps every other key's entry and expiry |
| `RedisStore.Store.Transaction` | src/proxy/resolver.rs:59-66 | the store's one atomic transaction updates the map as `GetSetExpire` says |
| `RedisStore.Replay` | src/proxy/resolver.rs:59-68 | successive transactions on one key give one flag each |
| `RedisStore.ReplayFlags` | src/proxy/resolver.rs:59-68 | each transaction after the first sees true iff ttl > 0 and it follows the previous one by at most ttl ms; the first sees what the store held |
| `RedisStore.OneFalsePerWindow` | src/proxy/resolver.rs:59-68 | from an absent or expired key, with ttl > 0 and every gap at most ttl, exactly the first transaction sees false |
| `Resolver.OkResponse` | src/proxy/resolver.rs:72-77 | status 200; body is the JSON's text, or empty without JSON |
| `Resolver.ForbiddenResponse` | src/proxy/resolver.rs:79-84 | status 403; body is the JSON's text, or empty without JSON |
| `Resolver.InternalServerErrorResponse` | src/proxy/resolver.rs:86-91 | status 500 with an empty body |
| `Resolver.FromHyperReverseProxyError` | src/proxy/resolver.rs:94-102 | each forwarder error maps to the proxy error of the same variant, carrying the same inner error |
| `Resolver.Decide` | src/proxy/resolver.rs:47-52 | the four-way table: (false, Redirect) 403 empty, (false, Respond) 403 failure, (true, Respond) 200 success, (true, Redirect) the forwarder's result |
| `Resolver.Resolver.constructor` | src/proxy/resolver.rs:24-30 | the resolver keeps the socket, configuration and cache it is given |
| `Resolver.Resolver.Route` | src/proxy/resolver.rs:32-38 | the result and the new store are those of `RouteStep` |
| `Resolver.Resolver.HandleRule` | src/proxy/resolver.rs:40-53 | the result and the new store are those of `HandleRuleStep` |
| `Resolver.Resolver.ExistsOrCreate` | src/proxy/resolver.rs:55-69 | the answer and the new store are those of `ExistsOrCreateStep` |
| `Resolver.UnmatchedPathIs500` | src/proxy/resolver.rs:33-34 | a path without a rule gets 500 with an empty body and the store is unchanged |
| `Resolver.MatchedRuleRunsOneTransaction` | src/proxy/resolver.rs:36-52 | a matched rule runs exactly one transaction, on its key and ttl, and decides on its previous value |
| `Resolver.CacheStepIgnoresRequest` | src/proxy/resolver.rs:45-56 | the store afterwards and the flag depend on the rule's fields, never on the request |
| `Resolver.CacheFailureIsAnError` | src/proxy/resolver.rs:55-66 | a pool failure or a transaction failure returns that error and leaves the store unchanged |
| `Resolver.HandleRuleFailsOnlyOnFailure` | src/proxy/resolver.rs:45-52 | handling fails iff the cache fails, or the flag is true, the action forwards and the forwarder fails |
| `Resolver.ForwarderOnlyOnSeenRedirect` | src/proxy/resolver.rs:47-52 | the forwarder is used only for (true, Redirect), and then only with the socket IP, the rule's uri and the request |
| `Resolver.FirstRequestIsForbidden` | src/proxy/resolver.rs:47-49 | a request whose key is not held gets 403, with an empty body or the failure payload |
| `Resolver.RepeatWithinTtlIsAccepted` | src/proxy/resolver.rs:50-51 | a second request on the rule at most ttl ms later (ttl > 0), whatever its content, gets 200 with the success payload or is forwarded |
| `Resolver.ExpiredRepeatIsForbidden` | src/proxy/resolver.rs:59-68 | a request more than ttl ms after the previous one on the rule, or any repeat when ttl is 0, is refused with 403 again |

## Left out

- Rule lookup: `Config::get_rule` is not part of this model. Its result is a function of the path, with no precedence rule assumed.
- Regex compilation and matching are foreign. The model takes them as the `RegexEngine` parameter.
- `Value::to_string` is foreign. The model takes the JSON text function as a parameter.
- JSON numbers are integers; floating-point numbers are not modelled.
- `hyper_reverse_proxy::call` is foreign. The model takes a `Forwarder` parameter. Response headers are not modelled, only the status and body.
- Redis networking is not modelled: the WATCH/MULTI/EXEC retry of `redis::transaction` and the `async_transaction!` macro (src/proxy/mod.rs:8-19). A transaction is one atomic committed step, so the one-false-per-window property holds only over a sequential order of steps.
- Redis encodes `true` as a string; the model keeps the flag as a boolean. A true flag read back is true, and a value that is not a boolean is not modelled.
- Expiry is exact to the millisecond: a key is live while now <= expiry, as Redis keeps it, and PEXPIRE with ttl 0 deletes it at once. Redis's own 0–1 ms expiry error and its lazy expiry are not modelled.
- A failing transaction is assumed not to commit. A connection lost after the commit is not modelled.
- `Rule.ttl`: the `usize` width is not modelled. Any natural number is accepted, and Redis's own limit on PEXPIRE arguments is ignored.
- Process bootstrap (src/main.rs), the hyper server (src/proxy/server.rs), connection pooling and concurrency are not modelled.
- Configuration loading is not modelled: src/config/config.rs, `serde_yaml` and `fs`. `Constructs.DeserializeRule` stands for the ttl default only.
- The superseded validator (src/utils/config_validator.rs), the configuration test (tests/parse_config.rs), the `hashmap_populate` macro and the module re-exports are not modelled.
- `UrlRegex.MatchUrl`, `UrlRegex.Hash`, `ConfigErrors.Display` and `ProxyErrors.Display` carry no contract of their own. What they compute is stated by the lemmas listed for them above.
