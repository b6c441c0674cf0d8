# Registry lookup and per-BPP clients of the Beckn BAP client

This project is a Dafny model of two pieces of the Beckn BAP client. A BAP is a buyer app; it
talks to BPPs (provider platforms) through BG gateways.

- **Registry lookup of gateways** (`RegistryService`). The service sends the registry one fixed
  request: type `BG` plus the configured domain, city and country, with no subscriber id. It then
  turns the reply into one of three outcomes: `Left(RegistryError)` for a thrown exception or the
  status 500, `Left(NoGatewayFoundError)` for a null or empty body, and `Right(list)` otherwise.
  The HTTP call is a function parameter (`registry: SubscriberLookupRequest -> Reply`), so the
  model shows which request is sent as well as how the reply is classified.
- **Per-BPP client factory** (`BppClientFactory`). `getClient(bppUri)` appends a trailing slash to
  the URI when it has none and uses the result as the base URL. It builds an HTTP client with the
  configured timeouts, adding the signing interceptor only when security is enabled. It names the
  retry and the circuit breaker after the original `bppUri`. Spring's `@Cacheable("bppClients")`
  memoises the client per `bppUri`. The class `BppClientFactory.BppClientFactory` holds that cache
  as the field `bppClients`. Its invariant `Valid()` says two things: every cached client is the
  one built for its key, and distinct URIs never share a client object.

Files: `wrappers.dfy` (Option, Either), `registry_service.dfy`, `bpp_client_factory.dfy`.

## Model

| member | source | states |
|---|---|---|
| RegistryService.LookupGatewayRequest | src/main/kotlin/org/beckn/one/sandbox/bap/services/RegistryService.kt:45-50 | The gateway lookup request always has type BG and no subscriber id. It carries the configured domain, city and country. |
| RegistryService.NoGatewaysFound | src/main/kotlin/org/beckn/one/sandbox/bap/services/RegistryService.kt:52-53 | Kotlin's `body == null \|\| body?.isEmpty() == true` holds exactly when the body is null or an empty list. |
| RegistryService.LookupGateways | src/main/kotlin/org/beckn/one/sandbox/bap/services/RegistryService.kt:30-43 | Every reply gets an outcome; no exception escapes. `Left(RegistryError)` comes iff the call threw or the status is exactly 500. `Left(NoGatewayFoundError)` comes iff the status is not 500 and the body is null or empty. `Right` comes iff the status is not 500 and the body is non-empty. A `Right` carries exactly the body, so it is never empty. |
| RegistryService.ServerErrorIgnoresBody | src/main/kotlin/org/beckn/one/sandbox/bap/services/RegistryService.kt:34-36 | A 500 reply is `Left(RegistryError)` whatever its body, because the status check runs first. |
| RegistryService.OtherStatusCodesFallThrough | src/main/kotlin/org/beckn/one/sandbox/bap/services/RegistryService.kt:55-56 | Only 500 counts as a registry error. Any two other codes with the same body give the same outcome, and that outcome is never `RegistryError`. |
| RegistryService.OnlyTheGatewayRequestIsConsulted | src/main/kotlin/org/beckn/one/sandbox/bap/services/RegistryService.kt:33 | The outcome depends only on the registry's answer to the gateway request. |
| BppClientFactory.BaseUrl | src/main/kotlin/org/beckn/one/sandbox/bap/client/external/provider/BppClientFactory.kt:37 | The base URL always ends with "/". It starts with the original URI and is at most one character longer. It is the shortest such string. |
| BppClientFactory.BaseUrlIdempotent | src/main/kotlin/org/beckn/one/sandbox/bap/client/external/provider/BppClientFactory.kt:37 | Normalising an already normalised URL leaves it unchanged. |
| BppClientFactory.BaseUrlAppendsOneSlash | src/main/kotlin/org/beckn/one/sandbox/bap/client/external/provider/BppClientFactory.kt:37 | A URI without a trailing slash becomes exactly `uri + "/"`, one character longer. |
| BppClientFactory.SameBaseUrl | src/main/kotlin/org/beckn/one/sandbox/bap/client/external/provider/BppClientFactory.kt:37 | Two URIs share a base URL iff they are equal or are "x" and "x/". |
| BppClientFactory.AtMostTwoUrisPerBaseUrl | src/main/kotlin/org/beckn/one/sandbox/bap/client/external/provider/BppClientFactory.kt:35-43 | In any set of URIs, at most two map to one base-URL string. Caching is per original URI, so one base-URL string has at most two clients, retries and circuit breakers. |
| BppClientFactory.BppClientFactory.constructor | src/main/kotlin/org/beckn/one/sandbox/bap/client/external/provider/BppClientFactory.kt:20-34 | The factory keeps the configured retry, security and timeout settings and starts with an empty, valid cache. |
| BppClientFactory.BppClientFactory.BuildHttpClient | src/main/kotlin/org/beckn/one/sandbox/bap/client/external/provider/BppClientFactory.kt:48-57 | The connect, read and write timeouts equal the configured ones. The signing interceptor is present iff `enableSecurity` holds, and no other interceptor is added. |
| BppClientFactory.BppClientFactory.GetClient | src/main/kotlin/org/beckn/one/sandbox/bap/client/external/provider/BppClientFactory.kt:35-46 | The client has the normalised base URL and a configured HTTP client. Its retry (configured attempts, interval, multiplier) and circuit breaker are named by the original `bppUri`. A hit returns the cached object and leaves the cache unchanged. A miss whose base URL Retrofit accepts returns a new object and adds exactly that one entry. A miss whose base URL Retrofit rejects (the source throws) returns `None` and leaves the cache unchanged. The cache invariant is kept. |
| BppClientFactory.BppClientFactory.SlashVariantsShareOnlyTheBaseUrl | src/main/kotlin/org/beckn/one/sandbox/bap/client/external/provider/BppClientFactory.kt:42-43 | "x" and "x/" share a base URL, but their retries and circuit breakers have distinct names. |
| BppClientFactory.BppClientFactory.AtMostTwoCachedClientsPerBaseUrl | src/main/kotlin/org/beckn/one/sandbox/bap/client/external/provider/BppClientFactory.kt:35-43 | In a valid cache, at most two cached clients share any one base-URL string. |

Two helpers have no contract of their own. `GetRetryConfig` (BppClientFactory.kt:59-66) builds
the retry; `GetClient` states what it builds through `BuiltFor`. `RegistryService.InternalServerError`
(RegistryService.kt:55-56) is the status-500 test; the first `ensures` of `LookupGateways` states it.

## Left out

- The HTTP execution of the registry lookup and the error logging (RegistryService.kt:33, 40) are I/O. The reply is an input (`Reply`).
- LookupGateways: a thrown exception is the single reply `Threw`. The model does not tell exception kinds apart. It also does not model a `java.lang.Error`, which `catch (e: Exception)` does not catch.
- Whether Retrofit reports a null body for non-2xx statuses belongs to Retrofit. Here the body is part of the reply as given.
- `SubscriberDto` and `Subscriber.Type` are not part of this model beyond the fields and roles listed in `registry_service.dfy`. Subscriber entries are passed through verbatim.
- Retrofit, OkHttp, Jackson and resilience4j object construction are represented as records of the settings each object is built with.
- `RetryFactory` and `CircuitBreakerFactory` are not part of this model: no backoff schedule and no breaker state machine. Only their names (the original `bppUri`) and the parameters passed to them are modelled.
- The `Double` interval multiplier is a `real` that is passed through unchanged. No floating-point arithmetic happens in the modelled code.
- Kotlin `Int`/`Long` configuration values are unbounded `int`s, passed through unchanged. Whether OkHttp rejects a negative timeout is library behaviour and is not modelled.
- GetClient: which base URLs Retrofit's `baseUrl` accepts is a parameter (`retrofitAccepts`). Retrofit's own rule is not modelled: it wants an http(s) URL whose path ends in "/", so "" (normalised to "/"), "bpp.com" and "http://a/x?q" are rejected. The rejection is an `IllegalArgumentException` that leaves `getClient`; it is modelled as `None`, and nothing is cached.
- GetClient: the cache is keyed on the raw URI string. URIs that differ only in scheme or host case, or in an explicit default port, name one endpoint but get separate clients and circuit breakers. The model keeps that behaviour and does not reason about URL equivalence.
- GetClient: Spring's `@Cacheable` is not synchronised, so two concurrent misses for one URI may both build a client. The model is sequential. Cache eviction belongs to the cache manager's configuration, which is not part of this model.
