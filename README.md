# mashape-tools in Dafny

A verified model of the two decision-bearing parts of `mashape-tools`, a library of
Express middleware for APIs served through the Mashape proxy.

- The **request filters** are `ipFilter(config)` and `headerFilter(config)`. Each merges
  its configuration over the defaults once and returns a closure. Per request, the closure
  works out the client address from the peer address or the `x-forwarded-for` header. It
  then does exactly one of three things:
  - calls `next()` to admit;
  - calls `next(err)` in strict mode when misconfigured or when evaluation throws;
  - writes the configured status code and body to deny.
- The **service registry** (`ServiceContainer`) is a mutable dictionary from service name
  to options, with `register`, `remove`, `info`, `headers` and the lookup that `call` starts with.

Modules, one per component:

| module | file | models |
|---|---|---|
| `JsSemantics` | js_semantics.dfy | `null`/`undefined`, truthiness, `Array.prototype.indexOf`, `String.prototype.split` |
| `MashapeConfig` | mashape_config.dfy | `defaultConfig` and `extend(defaultConfig, config \|\| {})` |
| `ClientAddress` | client_address.dfy | the request view and `clientIP` |
| `AccessPolicy` | access_policy.dfy | both filters' verdicts as pure functions; the header-check loop as a method; their properties |
| `Middleware` | middleware.dfy | the closures as classes with a `Handle` method that writes a `Response` object or calls `next` |
| `Services` | service_container.dfy | `ServiceContainer` as a class over a `map`, with specification functions and lemmas |

Each filter verdict is an `Outcome`: `Next`, `NextErr(error)` or `Respond(code, body)`.
`Middleware.*.Handle` follows the source statement by statement. Its contract ties the
`next` call and the new response state to `AccessPolicy.IpDecision` or
`AccessPolicy.HeaderDecision`. The lemmas in `AccessPolicy` state the properties of those
two functions.

The `try/catch` of each closure is modelled explicitly. Among the inputs the model
represents, the only statement in either `try` block that can throw is `iplist.indexOf(ip)`
when `iplist` is `null`. That happens when the whitelist is non-empty and the client
address is not on it. The catch then propagates the error in strict mode
(`NextErr(TypeError)`) and admits in lenient mode. Throws from inputs outside the model
are listed under "Left out".

## Behaviour worth noting

The model follows the code in each case.

- **Client address.** For a forwarded chain with several entries, `clientIP` returns the
  last piece of the header (`ips.pop()`), not an earlier hop. The proxy tests rely on
  that. The pieces are not trimmed.
- **Forwarded header always honoured.** Both filters call `clientIP` with `useProxy`
  true, and `clientIP` reads the raw `x-forwarded-for` header whoever the peer is. A
  client that reaches the service directly can therefore name any address, including a
  whitelisted one or one on the iplist (`AccessPolicy.ForgedForwardedForAdmitted`; see
  "Findings").
- **Whitelist.** A whitelisted address is not admitted before everything else. In
  `headerFilter` the misconfiguration check comes first. With no proxy secret and no
  additional checks, strict mode returns `next(err)` even for a whitelisted address
  (`AccessPolicy.HeaderMisconfigured`).
- **Iplist from a file.** The guard `typeof config.iplist === String` compares a type
  name with the `String` constructor, so it is never true, and `iplist` is only ever used
  as given.

## Model

| member | source | states |
|---|---|---|
| JsSemantics.IndexOf | lib/mashape-tools.js:150 | `indexOf` returns -1 exactly when the element is absent; otherwise the first position holding it |
| JsSemantics.Split | lib/mashape-tools.js:61 | `split(',')` returns at least one piece; no piece contains the separator; a string without the separator is its own single piece |
| JsSemantics.SplitLast | lib/mashape-tools.js:61-77 | a string containing the separator splits into two or more pieces; the last piece is what follows the last separator |
| JsSemantics.JoinSplit | lib/mashape-tools.js:61 | joining the pieces with the separator gives back the original header, so splitting drops or trims nothing |
| JsSemantics.LastSegmentUnique | lib/mashape-tools.js:77 | a string has only one "text after the last separator", so it pins down the address `pop` returns |
| MashapeConfig.Extend | lib/mashape-tools.js:20-47 | every key the caller sets overrides the default; every other key keeps its default: iplist null, proxySecret null, errorCode 403, errorMessage "Forbidden", strict true, log true, debug false, empty additionalHeaderChecks and whitelist |
| MashapeConfig.ExtendDefaultsAndOverrides | lib/mashape-tools.js:118 | a missing config object (`config \|\| {}`) and `{}` both give exactly the defaults; a config object that sets every key gives exactly itself |
| ClientAddress.ClientIP | lib/mashape-tools.js:58-89 | without a truthy `x-forwarded-for` header (absent or empty), or without `useProxy`, the result is `req.ip`; otherwise it is the header's last comma-separated piece, untrimmed |
| ClientAddress.ClientIPIsLastHop | lib/mashape-tools.js:76-81 | with a truthy forwarded header, the client address equals any string that is the header's text after its last comma |
| ClientAddress.SingleHopIsClient | lib/mashape-tools.js:65-71 | a forwarded header with no comma is the client address, whole |
| ClientAddress.TwoHopsUseLast | test/ip-filter_test.js:153-172 | header `10.2.2.20,107.23.255.128` resolves to `107.23.255.128`, the last entry |
| AccessPolicy.Whitelisted | lib/mashape-tools.js:142 | an address is whitelisted exactly when the whitelist is non-null and contains it |
| AccessPolicy.IpDecision | lib/mashape-tools.js:120-171 | the ipFilter writes a response if and only if the iplist is non-null, the filter is configured, the address is not whitelisted and the address is not on the iplist; the response is always errorCode/errorMessage; `next(err)` happens exactly in strict mode, for a filter without lists or for a non-whitelisted address beside a null iplist |
| AccessPolicy.CheckFails | lib/mashape-tools.js:228-231 | a check passes exactly when the named header is present, the expected value is non-empty, and the two are equal |
| AccessPolicy.SecretRejected | lib/mashape-tools.js:212-215 | with a truthy secret configured, the request is rejected exactly when its secret header is not that secret (missing or different) |
| AccessPolicy.HeaderDecision | lib/mashape-tools.js:184-253 | the headerFilter writes a response if and only if it is configured, the address is not whitelisted, and the secret header differs from a truthy secret or some check fails; the response is always errorCode/errorMessage; the only `next(err)` is the misconfiguration, exactly in strict mode |
| AccessPolicy.FirstFailing | lib/mashape-tools.js:225-238 | None exactly when every check passes; otherwise the position of a failing check such that all earlier checks pass |
| AccessPolicy.RunHeaderChecks | lib/mashape-tools.js:226-237 | the index loop with early return stops at exactly the first failing check, or reports none |
| AccessPolicy.IpMisconfigured | lib/mashape-tools.js:130-139 | with the iplist null/empty and the whitelist null/empty, strict gives `next(err)` with the misconfiguration message and lenient gives `next()`; no response is written |
| AccessPolicy.IpWhitelistAdmits | lib/mashape-tools.js:142-147 | a whitelisted client address is admitted whatever the iplist |
| AccessPolicy.IpListDecides | lib/mashape-tools.js:150-161 | with a non-null iplist, a non-whitelisted address is admitted if it is on the iplist; otherwise it gets the configured code and message |
| AccessPolicy.IpNullListThrows | lib/mashape-tools.js:149-170 | null iplist, non-empty whitelist, address not whitelisted: strict propagates the TypeError, lenient admits |
| AccessPolicy.IpDecisionDependsOnClientIP | lib/mashape-tools.js:120-161 | two requests with the same client address get the same ipFilter verdict |
| AccessPolicy.HeaderMisconfigured | lib/mashape-tools.js:193-202 | with no truthy proxySecret and no additional checks, strict gives `next(err)` and lenient gives `next()`, for every address |
| AccessPolicy.HeaderWhitelistAdmits | lib/mashape-tools.js:205-210 | once a secret or a check is configured, a whitelisted address is admitted whatever its headers |
| AccessPolicy.HeaderSecretRequired | lib/mashape-tools.js:213-222 | with a secret configured, a non-whitelisted request is denied unless its secret header is present and equals the secret |
| AccessPolicy.HeaderSecretOnly | lib/mashape-tools.js:212-243 | with only a secret configured, a non-whitelisted request is admitted if and only if its secret header equals the secret exactly; otherwise it gets the configured code and message |
| AccessPolicy.HeaderChecksDecide | lib/mashape-tools.js:224-243 | past the whitelist and a matching or absent secret, the request is admitted if and only if every check passes, and otherwise denied with the configured code and message |
| AccessPolicy.FirstFailureShortCircuits | lib/mashape-tools.js:226-237 | the first failing check stays the first failure whatever checks follow it |
| AccessPolicy.FailingCheckDenies | lib/mashape-tools.js:230-236 | a failing check denies: header missing or empty, expected value missing or empty, or the values differ |
| AccessPolicy.IpFilterIgnoresUserHeader | lib/mashape-tools.js:122-124 | changing `x-mashape-user` never changes the ipFilter verdict |
| AccessPolicy.UserHeaderIgnored | lib/mashape-tools.js:186-187 | when no additional check names `x-mashape-user`, changing that header does not change the headerFilter verdict |
| AccessPolicy.ForgedForwardedForAdmitted | lib/mashape-tools.js:59-71 | from any peer, a forwarded-for header naming a whitelisted address admits through the ipFilter and through a configured headerFilter, whatever secret or check headers are sent |
| ClientAddress.FromTrustedProxy | lib/mashape-tools.js:59 | keeps the request from a trusted peer whole; from any other peer, drops the forwarded-for header and keeps everything else |
| ClientAddress.TrustedClientIP | lib/mashape-tools.js:58-89 | the address is the peer itself unless the peer is trusted, and then it is what `clientIP` computes |
| AccessPolicy.UntrustedPeerJudgedByOwnAddress | lib/mashape-tools.js:122 | judged by the trusted address, an untrusted peer gets the ipFilter verdict of its own address whatever header it sends, and is whitelisted only if it is itself whitelisted |
| AccessPolicy.ForwardedAddressNotListed | test/ip-filter_test.js:45-64 | iplist `10.2.2.2` with forwarded-for `10.2.2.1` is denied with 403 "Forbidden" |
| AccessPolicy.ForwardedAddressWhitelisted | test/ip-filter_test.js:67-87 | whitelist `10.2.2.1` admits forwarded-for `10.2.2.1` despite iplist `107.23.255.128` |
| AccessPolicy.ProxySecretScenarios | test/header-filter_test.js:16-54 | secret `test-secret` admits the exact header value and denies `test-secret-invalid` with 403 |
| Middleware.IpFilter.constructor | lib/mashape-tools.js:117-118 | the closure keeps `extend(defaultConfig, config \|\| {})` |
| Middleware.IpFilter.Handle | lib/mashape-tools.js:120-171 | the closure calls `next` as `IpDecision` says, or writes errorCode/errorMessage without calling `next`; the response is untouched whenever `next` is called |
| Middleware.HeaderFilter.constructor | lib/mashape-tools.js:181-182 | the closure keeps `extend(defaultConfig, config \|\| {})` |
| Middleware.HeaderFilter.Handle | lib/mashape-tools.js:184-253 | the closure calls `next` as `HeaderDecision` says, or writes errorCode/errorMessage without calling `next`; the response is untouched whenever `next` is called |
| Services.Lookup | lib/service-container.js:78-87 | `info` succeeds if and only if the slot holds a truthy value, returns that value, and otherwise fails with the unknown-service error |
| Services.Registered | lib/service-container.js:51 | after `register`, the name holds the new options, possibly overwriting; the key set gains the name; every other entry is unchanged |
| Services.Removed | lib/service-container.js:63-68 | after `remove`, the name is not live; a live entry is deleted; a missing or falsy entry leaves the map as it was; no other entry changes |
| Services.RegisterIdempotent | lib/service-container.js:51 | registering the same name and options twice gives the same map as registering once |
| Services.RemoveIdempotent | lib/service-container.js:63-68 | removing twice equals removing once; removing an absent name is a no-op |
| Services.LookupAfterUpdate | lib/service-container.js:50-87 | `info` after `register(n, o)` with truthy `o` returns `o`; after `register(n, null)` or `remove(n)`, `info(n)` fails; lookups of other names are unaffected |
| Services.UnknownServiceMessageNamesService | lib/service-container.js:82 | the intended error message differs for different unknown names |
| Services.ServiceContainer.constructor | lib/service-container.js:14-33 | a new container has an empty map, or with `autodiscovery` exactly one entry `mashape` with url `https:` / `mashape.p.mashape.com` |
| Services.ServiceContainer.Register | lib/service-container.js:50-53 | sets the slot as `Registered` says and returns the container itself |
| Services.ServiceContainer.Remove | lib/service-container.js:63-68 | changes the map as `Removed` says, never fails, and returns the container itself |
| Services.ServiceContainer.Info | lib/service-container.js:78-87 | returns the live options or the unknown-service error, without changing anything |
| Services.ServiceContainer.Headers | lib/service-container.js:115-120 | exactly one header, `X-Mashape-Key`, bound to `config.mashapeKey` |
| Services.ConstructionScenario | test/service-container_test.js:78-108 | a container built with autodiscovery answers `info('mashape')` with the directory service; one built without it fails `info` for every name |
| Services.ServiceContainer.Call | lib/service-container.js:99-107 | an unknown name fails with `info`'s error before any request exists; a known name yields the verb, the service's protocol and host extended with the path and query, and `headers()` |

## Findings

| source | as written | input that shows it | evidently intended | confidence | as-written member | corrected member |
|---|---|---|---|---|---|---|
| lib/mashape-tools.js:59 | `clientIP` reads `x-forwarded-for` from every peer, and both filters pass `useProxy` true | a direct request with `x-forwarded-for: 10.2.2.1` when `10.2.2.1` is whitelisted is admitted by either filter | the forwarded address counts only when the peer is a trusted proxy | medium; not executed | AccessPolicy.ForgedForwardedForAdmitted | AccessPolicy.UntrustedPeerJudgedByOwnAddress |
| lib/service-container.js:82 | `new Error('Unknown service: %s', name)`: `Error` does not format its arguments, so the message is the literal `Unknown service: %s` | `info('germanbanks')` and `info('foo')` on an empty container fail with the same message | `Unknown service: germanbanks` | high; not executed | Services.AsWrittenMessageLosesName | Services.UnknownServiceMessageNamesService |

`Lookup`, `ServiceContainer.Info` and `ServiceContainer.Call` use the corrected message
(`UnknownServiceMessage`). The filters keep the forwarded address as the code computes it.
`ClientAddress.TrustedClientIP` and `ClientAddress.FromTrustedProxy` give the corrected
address beside them.

## Left out

- Logging: `console.log` calls, `logRequest`, and the `log`/`debug` branches. They write output and never change an outcome. The `user` value (`x-mashape-user` or `'UNKNOWN'`) only feeds these lines, so it is not computed. `debug` is kept as a configuration key only.
- Loading `iplist` from a file with `require`: its guard `typeof config.iplist === String` is never true. `iplist` is modelled as an array or `null` only.
- Express internals: case-insensitive `req.get`, and how `req.ip` is computed. Headers are an exact-name map and the peer address is an input. `clientIP` reads the raw `x-forwarded-for` header and is always called with `useProxy` true, so Express's `trust proxy` setting only affects the `req.ip` fallback, which the model takes as given.
- `res.end` is treated as never throwing. On current Node, an `errorCode` outside 100-999 makes it throw a RangeError, which the catch would turn into `next(err)` in strict mode or `next()` in lenient mode instead of a denial.
- Services.Lookup: the unknown-service error carries the corrected text (`Unknown service: <name>`), not the literal `Unknown service: %s` the code produces; see "Findings".
- Services.ServiceContainer.Info: its unknown-service error carries the corrected text (`Unknown service: <name>`), not the literal `Unknown service: %s`; see "Findings".
- Services.ServiceContainer.Call: an unknown name fails with `Info`'s corrected text, not the literal `Unknown service: %s`; see "Findings".
- A header check whose `name` is missing or empty, or a check that is not an object: Express's `req.get` throws for a falsy name, inside the `try`, so strict mode would call `next(err)` and lenient mode `next()` where the model denies. Check names are modelled as plain strings.
- MashapeConfig.Extend, Services.ServiceContainer.Info, Services.ServiceContainer.Headers: the model copies configuration and service options by value. In the code, `extend` copies only the top level, so each filter keeps reading the caller's own `iplist`, `whitelist` and `additionalHeaderChecks` arrays. `register` stores, and `info` returns, the caller's own options object. The container keeps the caller's `config` and `headers()` reads `mashapeKey` from it at call time. Changes the caller later makes through these shared references are not captured.
- Configuration values of the wrong JavaScript type, such as a non-boolean `strict` or a string `whitelist`. Each key has one type in the model.
- Service-container callbacks: `register`, `remove` and `info` pass the same value to `cb(err, value)` as they return or throw. The model returns it as a `Result`; the callback itself is not modelled. The constructor's logging callback is left out too.
- Services.ServiceContainer.Call: `url.format` and the outbound `unirest` request are network I/O through foreign libraries. `Call` stops at the request description it would issue.
- Inherited `Object.prototype` keys such as `toString`, which `this.services[name]` would find on a plain object. The registry is a plain map.
- `discover` and the `serviceContainer` middleware factory: the service-container tests use them, but no source file defines them.
- Concurrency: the source has none. Each request is evaluated on its own.
