/**
 * The per-BPP client factory (`BppClientFactory`).
 *
 * `getClient(bppUri)` builds one client per BPP (a provider platform). The base URL is the URI
 * with a trailing slash appended when it has none. The HTTP client has the configured timeouts and
 * carries the request-signing interceptor only when security is enabled. The retry policy and the
 * circuit breaker are both named by the original `bppUri`. Spring's `@Cacheable("bppClients")`
 * memoises the result per `bppUri`; here that cache is the field `bppClients`.
 *
 * Retrofit, OkHttp and resilience4j objects are represented by plain records of the settings they
 * are built with. The client itself is an object, because the cache hands out the same object again.
 */
module BppClientFactory {
  import opened Wrappers

  /** Kotlin's `s.endsWith("/")`. */
  predicate EndsWithSlash(s: string)
  {
    |s| > 0 && s[|s| - 1] == '/'
  }

  /**
   * The base URL `getClient` gives Retrofit: `bppUri` itself when it ends with "/", otherwise
   * `bppUri + "/"`. It is the shortest string that starts with `bppUri` and ends with "/".
   */
  function BaseUrl(bppUri: string): (url: string)
    ensures EndsWithSlash(url)
    ensures bppUri <= url && |url| <= |bppUri| + 1
    ensures forall s :: bppUri <= s && EndsWithSlash(s) ==> |url| <= |s|
  {
    if EndsWithSlash(bppUri) then bppUri else bppUri + "/"
  }

  /** Normalising twice is normalising once. */
  lemma BaseUrlIdempotent(bppUri: string)
    ensures BaseUrl(BaseUrl(bppUri)) == BaseUrl(bppUri)
  {
  }

  /** A URI without a trailing slash gains exactly one character, "/". */
  lemma BaseUrlAppendsOneSlash(bppUri: string)
    requires !EndsWithSlash(bppUri)
    ensures BaseUrl(bppUri) == bppUri + "/" && |BaseUrl(bppUri)| == |bppUri| + 1
  {
  }

  /**
   * Two URIs share a base URL exactly when they are equal or one of them is the other, which has
   * no trailing slash, with "/" appended. So "x" and "x/" are the only kind of collision.
   */
  lemma SameBaseUrl(u: string, v: string)
    ensures BaseUrl(u) == BaseUrl(v) <==>
      u == v || (!EndsWithSlash(u) && v == u + "/") || (!EndsWithSlash(v) && u == v + "/")
  {
  }

  /**
   * Among any set of URIs, at most two share one base-URL string: the URL itself and the URL
   * without its trailing slash. Because clients are cached per original URI, one base-URL string
   * is served by at most two clients, each with its own retry and circuit breaker.
   */
  lemma AtMostTwoUrisPerBaseUrl(uris: set<string>, url: string)
    ensures |set u | u in uris && BaseUrl(u) == url| <= 2
  {
    var sharing := set u | u in uris && BaseUrl(u) == url;
    if |url| == 0 {
      assert sharing == {};
    } else {
      var candidates := {url, url[..|url| - 1]};
      forall u | u in sharing
        ensures u in candidates
      {
        if !EndsWithSlash(u) {
          assert url == u + "/";
          assert url[..|url| - 1] == u;
        }
      }
      SubsetCardinality(sharing, candidates);
    }
  }

  /** A subset is no larger than its superset. */
  lemma {:induction false} SubsetCardinality<T>(a: set<T>, b: set<T>)
    requires a <= b
    ensures |a| <= |b|
    decreases |b|
  {
    if a != {} {
      var x :| x in a;
      SubsetCardinality(a - {x}, b - {x});
    }
  }

  /** The request-signing interceptor (`SignRequestInterceptor`). */
  datatype Interceptor = SignRequestInterceptor

  /** The settings an `OkHttpClient` is built with; timeouts are in seconds. */
  datatype HttpClient = HttpClient(
    connectTimeoutInSeconds: int,
    readTimeoutInSeconds: int,
    writeTimeoutInSeconds: int,
    interceptors: seq<Interceptor>)

  /**
   * A resilience4j retry as `RetryFactory.create` is called: its name, the maximum number of
   * attempts, the initial interval in milliseconds and the interval multiplier.
   */
  datatype Retry = Retry(name: string, maxAttempts: int, initialIntervalInMillis: int, intervalMultiplier: real)

  /** A resilience4j circuit breaker as `CircuitBreakerFactory.create` is called: by its name. */
  datatype CircuitBreaker = CircuitBreaker(name: string)

  /** A client built by Retrofit for one BPP: its base URL, HTTP client, retry and circuit breaker. */
  class BppClient {
    const baseUrl: string
    const httpClient: HttpClient
    const retry: Retry
    const circuitBreaker: CircuitBreaker

    constructor (baseUrl: string, httpClient: HttpClient, retry: Retry, circuitBreaker: CircuitBreaker)
      ensures this.baseUrl == baseUrl && this.httpClient == httpClient
      ensures this.retry == retry && this.circuitBreaker == circuitBreaker
    {
      this.baseUrl := baseUrl;
      this.httpClient := httpClient;
      this.retry := retry;
      this.circuitBreaker := circuitBreaker;
    }
  }

  class BppClientFactory {
    const maxAttempts: int
    const initialIntervalInMillis: int
    const intervalMultiplier: real
    const enableSecurity: bool
    const connectionTimeoutInSeconds: int
    const readTimeoutInSeconds: int
    const writeTimeoutInSeconds: int

    /** The "bppClients" cache that `@Cacheable` keeps for `getClient`, keyed by its `bppUri` argument. */
    var bppClients: map<string, BppClient>

    /**
     * The cache invariant: every cached client is the one `getClient` builds for its key, and
     * distinct URIs never share a client object.
     */
    ghost predicate Valid()
      reads this
    {
      && (forall u :: u in bppClients ==> BuiltFor(u, bppClients[u]))
      && (forall u, v :: u in bppClients && v in bppClients && u != v ==> bppClients[u] != bppClients[v])
    }

    /** The HTTP client has the configured timeouts and the signing interceptor exactly when security is on. */
    ghost predicate Configured(client: HttpClient)
    {
      && client.connectTimeoutInSeconds == connectionTimeoutInSeconds
      && client.readTimeoutInSeconds == readTimeoutInSeconds
      && client.writeTimeoutInSeconds == writeTimeoutInSeconds
      && (SignRequestInterceptor in client.interceptors <==> enableSecurity)
      && |client.interceptors| <= 1
    }

    /**
     * `client` is what `getClient(bppUri)` builds: the normalised base URL, a configured HTTP
     * client, and a retry and a circuit breaker both named by the original `bppUri`.
     */
    ghost predicate BuiltFor(bppUri: string, client: BppClient)
    {
      && client.baseUrl == BaseUrl(bppUri)
      && Configured(client.httpClient)
      && client.retry == GetRetryConfig(bppUri)
      && client.circuitBreaker == CircuitBreaker(bppUri)
    }

    constructor (maxAttempts: int, initialIntervalInMillis: int, intervalMultiplier: real,
                 enableSecurity: bool, connectionTimeoutInSeconds: int, readTimeoutInSeconds: int,
                 writeTimeoutInSeconds: int)
      ensures Valid() && bppClients == map[]
      ensures this.maxAttempts == maxAttempts && this.initialIntervalInMillis == initialIntervalInMillis
      ensures this.intervalMultiplier == intervalMultiplier && this.enableSecurity == enableSecurity
      ensures this.connectionTimeoutInSeconds == connectionTimeoutInSeconds
      ensures this.readTimeoutInSeconds == readTimeoutInSeconds
      ensures this.writeTimeoutInSeconds == writeTimeoutInSeconds
    {
      this.maxAttempts := maxAttempts;
      this.initialIntervalInMillis := initialIntervalInMillis;
      this.intervalMultiplier := intervalMultiplier;
      this.enableSecurity := enableSecurity;
      this.connectionTimeoutInSeconds := connectionTimeoutInSeconds;
      this.readTimeoutInSeconds := readTimeoutInSeconds;
      this.writeTimeoutInSeconds := writeTimeoutInSeconds;
      bppClients := map[];
    }

    /** `getRetryConfig`: the retry for `bppUri`, named by it and carrying the configured policy. */
    function GetRetryConfig(bppUri: string): (retry: Retry)
    {
      Retry(bppUri, maxAttempts, initialIntervalInMillis, intervalMultiplier)
    }

    /**
     * `buildHttpClient`: the builder gets the three configured timeouts, and the signing
     * interceptor is added to it only when security is enabled.
     */
    method BuildHttpClient() returns (client: HttpClient)
      ensures client.connectTimeoutInSeconds == connectionTimeoutInSeconds
      ensures client.readTimeoutInSeconds == readTimeoutInSeconds
      ensures client.writeTimeoutInSeconds == writeTimeoutInSeconds
      ensures SignRequestInterceptor in client.interceptors <==> enableSecurity
      ensures |client.interceptors| <= 1
    {
      var builder := HttpClient(connectionTimeoutInSeconds, readTimeoutInSeconds, writeTimeoutInSeconds, []);
      if enableSecurity {
        builder := builder.(interceptors := builder.interceptors + [SignRequestInterceptor]);
      }
      client := builder;
    }

    /**
     * `getClient` behind `@Cacheable("bppClients")`. A hit returns the cached client and leaves the
     * cache alone. A miss builds a new client and adds exactly that one entry. Retrofit's
     * `baseUrl(url)` throws when it rejects the normalised URL; `retrofitAccepts` says which URLs it
     * takes, and a rejection is `None`: the exception leaves `getClient` and nothing is cached.
     */
    method GetClient(bppUri: string, retrofitAccepts: string -> bool) returns (client: Option<BppClient>)
      requires Valid()
      modifies this`bppClients
      ensures Valid()
      ensures client.Some? ==> BuiltFor(bppUri, client.value)
      ensures bppUri in old(bppClients) ==> client == Some(old(bppClients)[bppUri]) && bppClients == old(bppClients)
      ensures bppUri !in old(bppClients) && retrofitAccepts(BaseUrl(bppUri)) ==>
        client.Some? && fresh(client.value) && bppClients == old(bppClients)[bppUri := client.value]
      ensures bppUri !in old(bppClients) && !retrofitAccepts(BaseUrl(bppUri)) ==>
        client == None && bppClients == old(bppClients)
    {
      if bppUri in bppClients {
        client := Some(bppClients[bppUri]);
      } else {
        var url := BaseUrl(bppUri);
        if !retrofitAccepts(url) {
          client := None;
        } else {
          var httpClient := BuildHttpClient();
          var built := new BppClient(url, httpClient, GetRetryConfig(bppUri), CircuitBreaker(bppUri));
          bppClients := bppClients[bppUri := built];
          client := Some(built);
        }
      }
    }

    /**
     * "x" and "x/" share a base URL, yet their retries and circuit breakers have distinct names,
     * because both are keyed by the original URI.
     */
    lemma SlashVariantsShareOnlyTheBaseUrl(bppUri: string)
      requires !EndsWithSlash(bppUri)
      ensures BaseUrl(bppUri) == BaseUrl(bppUri + "/")
      ensures GetRetryConfig(bppUri).name != GetRetryConfig(bppUri + "/").name
      ensures CircuitBreaker(bppUri) != CircuitBreaker(bppUri + "/")
    {
    }

    /** In a valid cache, at most two cached clients share any one base-URL string. */
    lemma AtMostTwoCachedClientsPerBaseUrl(url: string)
      requires Valid()
      ensures |set u | u in bppClients && bppClients[u].baseUrl == url| <= 2
    {
      assert (set u | u in bppClients && bppClients[u].baseUrl == url)
          == (set u | u in bppClients.Keys && BaseUrl(u) == url);
      AtMostTwoUrisPerBaseUrl(bppClients.Keys, url);
    }
  }
}
