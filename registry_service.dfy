/**
 * The registry lookup of gateways (`RegistryService.lookupGateways`).
 *
 * The service asks the registry for every gateway (type BG) in its configured domain, city and
 * country. It then sorts the raw reply into one of three outcomes: a registry error, "no gateway
 * found", or the non-empty list of subscribers. The HTTP call is a parameter: `registry` maps the
 * request that is sent to the reply that comes back, and a thrown exception is the reply `Threw`.
 */
module RegistryService {
  import opened Wrappers

  /**
   * The roles a participant can be registered under. The lookup request uses `Subscriber.Type` and
   * each returned entry carries `SubscriberDto.Type`; both list the same roles, so one datatype
   * stands for both.
   */
  datatype SubscriberType = BAP | BPP | BG

  /** One participant entry as the registry returns it (`SubscriberDto`). The service passes it on verbatim. */
  datatype SubscriberDto = SubscriberDto(
    subscriberId: string,
    subscriberUrl: string,
    subscriberType: SubscriberType,
    domain: string,
    city: string,
    country: string)

  /** The lookup criteria sent to the registry (`SubscriberLookupRequest`). */
  datatype SubscriberLookupRequest = SubscriberLookupRequest(
    subscriberId: Option<string>,
    subscriberType: SubscriberType,
    domain: string,
    city: string,
    country: string)

  /** `RegistryLookupError`: the registry failed, or it answered with no gateway. */
  datatype RegistryLookupError = RegistryError | NoGatewayFoundError

  /**
   * What `registryServiceClient.lookup(request).execute()` produced. Either it returned an HTTP
   * response, whose body may be null, or it threw an exception.
   */
  datatype Reply = Response(code: int, body: Option<seq<SubscriberDto>>) | Threw

  /** The HTTP status `HttpStatus.INTERNAL_SERVER_ERROR`. */
  const InternalServerErrorStatus: int := 500

  /** The configuration the service is built with: `context.domain`, `context.city` and `context.country`. */
  datatype RegistryService = RegistryService(domain: string, city: string, country: string)

  /** The request `lookupGateways` sends: every gateway of the configured domain, city and country. */
  function LookupGatewayRequest(service: RegistryService): (request: SubscriberLookupRequest)
    ensures request.subscriberType == BG && request.subscriberId == None
    ensures request.domain == service.domain && request.city == service.city && request.country == service.country
  {
    SubscriberLookupRequest(None, BG, service.domain, service.city, service.country)
  }

  /** `internalServerError`: only the exact status 500 counts. */
  predicate InternalServerError(code: int)
  {
    code == InternalServerErrorStatus
  }

  /** Kotlin's `body?.isEmpty()`: null when the body is null, otherwise whether the list is empty. */
  function SafeIsEmpty(body: Option<seq<SubscriberDto>>): Option<bool>
  {
    match body
    case None => None
    case Some(list) => Some(|list| == 0)
  }

  /**
   * `noGatewaysFound`: `body == null || body?.isEmpty() == true`. Kotlin's comparison of a nullable
   * Boolean with `true` comes down to "the body is null or an empty list".
   */
  function NoGatewaysFound(body: Option<seq<SubscriberDto>>): (found: bool)
    ensures found <==> body.None? || body.value == []
  {
    body == None || SafeIsEmpty(body) == Some(true)
  }

  /**
   * `lookupGateways`. The checks run in a fixed order: a thrown exception and the status 500 come
   * first, then a null or empty body; otherwise the body is returned unchanged. The function is
   * total, so no exception ever escapes.
   */
  function LookupGateways(service: RegistryService, registry: SubscriberLookupRequest -> Reply)
    : (result: Either<RegistryLookupError, seq<SubscriberDto>>)
    ensures var reply := registry(LookupGatewayRequest(service));
      result == Left(RegistryError) <==> reply.Threw? || reply.code == 500
    ensures var reply := registry(LookupGatewayRequest(service));
      result == Left(NoGatewayFoundError) <==>
        reply.Response? && reply.code != 500 && (reply.body.None? || reply.body.value == [])
    ensures var reply := registry(LookupGatewayRequest(service));
      result.Right? <==> reply.Response? && reply.code != 500 && reply.body.Some? && reply.body.value != []
    ensures var reply := registry(LookupGatewayRequest(service));
      result.Right? ==> reply.Response? && reply.body == Some(result.right) && |result.right| > 0
  {
    match registry(LookupGatewayRequest(service))
    case Threw => Left(RegistryError)
    case Response(code, body) =>
      if InternalServerError(code) then Left(RegistryError)
      else if NoGatewaysFound(body) then Left(NoGatewayFoundError)
      else Right(body.value)
  }

  /** A 500 reply is a registry error whatever its body: the status check runs before the body checks. */
  lemma ServerErrorIgnoresBody(service: RegistryService, registry: SubscriberLookupRequest -> Reply,
                               body: Option<seq<SubscriberDto>>)
    requires registry(LookupGatewayRequest(service)) == Response(500, body)
    ensures LookupGateways(service, registry) == Left(RegistryError)
  {
  }

  /**
   * Only 500 is a registry error: any two other status codes (200, 404, 503, ...) with the same
   * body lead to the same outcome.
   */
  lemma OtherStatusCodesFallThrough(service: RegistryService, r1: SubscriberLookupRequest -> Reply,
                                    r2: SubscriberLookupRequest -> Reply)
    requires r1(LookupGatewayRequest(service)).Response? && r2(LookupGatewayRequest(service)).Response?
    requires r1(LookupGatewayRequest(service)).code != 500 && r2(LookupGatewayRequest(service)).code != 500
    requires r1(LookupGatewayRequest(service)).body == r2(LookupGatewayRequest(service)).body
    ensures LookupGateways(service, r1) == LookupGateways(service, r2)
    ensures LookupGateways(service, r1) != Left(RegistryError)
  {
  }

  /**
   * The outcome depends on nothing but the registry's answer to the gateway request: two
   * registries that answer that one request alike give the same outcome.
   */
  lemma OnlyTheGatewayRequestIsConsulted(service: RegistryService, r1: SubscriberLookupRequest -> Reply,
                                         r2: SubscriberLookupRequest -> Reply)
    requires r1(LookupGatewayRequest(service)) == r2(LookupGatewayRequest(service))
    ensures LookupGateways(service, r1) == LookupGateways(service, r2)
  {
  }
}
