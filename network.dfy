/** Request shaping of the HTTP client wrapper and of the network service:
    which headers each verb sends, which timeout applies, and the error
    classification predicate handed to the circuit breaker. The breaker
    itself and the HTTP transport are external; a call is modelled by the
    request it would issue. */
module Network {
  import opened Wrappers

  /** A header value: `string | string[]`. */
  datatype HeaderValue = Text(text: string) | Values(values: seq<string>)

  type HeaderMap = map<string, HeaderValue>

  /** `CACHE_CONTROL_HEADERS`. */
  const CacheControlHeaders: HeaderMap :=
    map["Cache-Control" := Text("no-cache"), "Pragma" := Text("no-cache")]

  /** The configured defaults the constructors fall back to. */
  datatype Config = Config(defaultHttpResetTimeoutMs: int, defaultHttpTimeoutMs: int)

  datatype HttpMethod = GET | POST | DELETE

  datatype ResponseType = JsonBody | TextBody

  /** What one call hands to the HTTP client. `body` is the serialized form
      of a POST body; other verbs carry none. */
  datatype HttpRequest = HttpRequest(
    verb: HttpMethod,
    url: string,
    responseType: ResponseType,
    body: Option<string>,
    headers: HeaderMap,
    timeoutMs: int)

  /** A request either runs through the named circuit breaker or goes to the
      HTTP client directly. */
  datatype Call = ThroughBreaker(breaker: string, request: HttpRequest) | Direct(request: HttpRequest)

  /** `CircuitBreakerWrapper`: its fields are set once, in the constructor. */
  datatype CircuitBreakerWrapper = CircuitBreakerWrapper(
    name: string,
    resetTimeoutMs: int,
    defaultTimeoutMs: int)

  /** Object spread `{ ...base, ...over }`: every key of `over` keeps its value
      from `over`, every other key of `base` keeps its value from `base`. */
  function Overlay(base: HeaderMap, over: HeaderMap): (r: HeaderMap)
    ensures r.Keys == base.Keys + over.Keys
    ensures forall k :: k in over ==> r[k] == over[k]
    ensures forall k :: k in base && k !in over ==> r[k] == base[k]
  {
    base + over
  }

  /** Absent (undefined or null) caller headers mean an empty map. */
  function CallerHeaders(headers: Option<HeaderMap>): (r: HeaderMap)
    ensures headers.Some? ==> r == headers.value
    ensures headers.None? ==> r == map[]
  {
    headers.GetOr(map[])
  }

  /** `timeoutMs ?? fallback`: only a missing value falls back, so an explicit
      0 is kept. */
  function EffectiveTimeout(timeoutMs: Option<int>, fallback: int): (r: int)
    ensures timeoutMs.Some? ==> r == timeoutMs.value
    ensures timeoutMs.None? ==> r == fallback
  {
    timeoutMs.GetOr(fallback)
  }

  /** The breaker's `errorFilter`: an error whose status lies in 400..499 is
      filtered. An error without a status compares false and is not. */
  function ErrorFilter(status: Option<int>): (filtered: bool)
    ensures filtered <==> status.Some? && 400 <= status.value < 500
  {
    match status
    case Some(s) => s >= 400 && s < 500
    case None => false
  }

  /** The wrapper's constructor, with the configured defaults for omitted
      timeouts. */
  function NewCircuitBreakerWrapper(config: Config, name: string, resetTimeoutMs: Option<int>,
                                    httpTimeoutMs: Option<int>): (w: CircuitBreakerWrapper)
    ensures w.name == name
    ensures w.resetTimeoutMs == EffectiveTimeout(resetTimeoutMs, config.defaultHttpResetTimeoutMs)
    ensures w.defaultTimeoutMs == EffectiveTimeout(httpTimeoutMs, config.defaultHttpTimeoutMs)
  {
    CircuitBreakerWrapper(name,
      resetTimeoutMs.GetOr(config.defaultHttpResetTimeoutMs),
      httpTimeoutMs.GetOr(config.defaultHttpTimeoutMs))
  }

  /** `NetworkService.getCircuitBreaker`: a fresh wrapper built from the
      arguments, defaults filled in from the configuration. */
  function GetCircuitBreaker(config: Config, name: string, resetTimeoutMs: Option<int>,
                             httpTimeoutMs: Option<int>): (w: CircuitBreakerWrapper)
    ensures w.name == name
    ensures resetTimeoutMs.Some? ==> w.resetTimeoutMs == resetTimeoutMs.value
    ensures resetTimeoutMs.None? ==> w.resetTimeoutMs == config.defaultHttpResetTimeoutMs
    ensures httpTimeoutMs.Some? ==> w.defaultTimeoutMs == httpTimeoutMs.value
    ensures httpTimeoutMs.None? ==> w.defaultTimeoutMs == config.defaultHttpTimeoutMs
  {
    NewCircuitBreakerWrapper(config, name, resetTimeoutMs, httpTimeoutMs)
  }

  /** `CircuitBreakerWrapper.getJson`. */
  function GetJson(w: CircuitBreakerWrapper, url: string, headers: Option<HeaderMap>,
                   timeoutMs: Option<int>): (c: Call)
    ensures c == ThroughBreaker(w.name, c.request)
    ensures c.request.verb == GET && c.request.url == url && c.request.responseType == JsonBody
    ensures c.request.body == None
  {
    ThroughBreaker(w.name, HttpRequest(GET, url, JsonBody, None,
      Overlay(CacheControlHeaders, CallerHeaders(headers)),
      EffectiveTimeout(timeoutMs, w.defaultTimeoutMs)))
  }

  /** `CircuitBreakerWrapper.getText`. */
  function GetText(w: CircuitBreakerWrapper, url: string, timeoutMs: Option<int>): (c: Call)
    ensures c == ThroughBreaker(w.name, c.request)
    ensures c.request.verb == GET && c.request.url == url && c.request.responseType == TextBody
    ensures c.request.body == None
  {
    ThroughBreaker(w.name, HttpRequest(GET, url, TextBody, None,
      Overlay(CacheControlHeaders, map[]),
      EffectiveTimeout(timeoutMs, w.defaultTimeoutMs)))
  }

  /** `CircuitBreakerWrapper.postJson`. */
  function PostJson(w: CircuitBreakerWrapper, url: string, body: string, headers: Option<HeaderMap>,
                    timeoutMs: Option<int>): (c: Call)
    ensures c == ThroughBreaker(w.name, c.request)
    ensures c.request.verb == POST && c.request.url == url && c.request.responseType == JsonBody
    ensures c.request.body == Some(body)
  {
    ThroughBreaker(w.name, HttpRequest(POST, url, JsonBody, Some(body),
      Overlay(map[], CallerHeaders(headers)),
      EffectiveTimeout(timeoutMs, w.defaultTimeoutMs)))
  }

  /** `CircuitBreakerWrapper.deleteJson`. */
  function DeleteJson(w: CircuitBreakerWrapper, url: string, headers: Option<HeaderMap>,
                      timeoutMs: Option<int>): (c: Call)
    ensures c == ThroughBreaker(w.name, c.request)
    ensures c.request.verb == DELETE && c.request.url == url && c.request.responseType == JsonBody
    ensures c.request.body == None
  {
    ThroughBreaker(w.name, HttpRequest(DELETE, url, JsonBody, None,
      Overlay(map[], CallerHeaders(headers)),
      EffectiveTimeout(timeoutMs, w.defaultTimeoutMs)))
  }

  /** `NetworkService.getJson`: straight to the HTTP client, no breaker. */
  function ServiceGetJson(config: Config, url: string, timeoutMs: Option<int>): (c: Call)
    ensures c.Direct?
    ensures c.request.verb == GET && c.request.url == url && c.request.responseType == JsonBody
    ensures c.request.body == None
    ensures timeoutMs.Some? ==> c.request.timeoutMs == timeoutMs.value
    ensures timeoutMs.None? ==> c.request.timeoutMs == config.defaultHttpTimeoutMs
  {
    Direct(HttpRequest(GET, url, JsonBody, None,
      Overlay(CacheControlHeaders, map[]),
      EffectiveTimeout(timeoutMs, config.defaultHttpTimeoutMs)))
  }

  /** `NetworkService.getText`: straight to the HTTP client, no breaker. */
  function ServiceGetText(config: Config, url: string, timeoutMs: Option<int>): (c: Call)
    ensures c.Direct?
    ensures c.request.verb == GET && c.request.url == url && c.request.responseType == TextBody
    ensures c.request.body == None
    ensures timeoutMs.Some? ==> c.request.timeoutMs == timeoutMs.value
    ensures timeoutMs.None? ==> c.request.timeoutMs == config.defaultHttpTimeoutMs
  {
    Direct(HttpRequest(GET, url, TextBody, None,
      Overlay(CacheControlHeaders, map[]),
      EffectiveTimeout(timeoutMs, config.defaultHttpTimeoutMs)))
  }

  // Properties of the request shaping

  /** The wrapper's GET sends the cache-control defaults overlaid with the
      caller's map: the caller wins on a shared key, and defaults the caller
      does not name are kept. */
  lemma GetJsonHeaders(w: CircuitBreakerWrapper, url: string, headers: Option<HeaderMap>,
                       timeoutMs: Option<int>)
    ensures var h := GetJson(w, url, headers, timeoutMs).request.headers;
      && h.Keys == {"Cache-Control", "Pragma"} + CallerHeaders(headers).Keys
      && (forall k :: k in CallerHeaders(headers) ==> h[k] == CallerHeaders(headers)[k])
      && ("Cache-Control" !in CallerHeaders(headers) ==> h["Cache-Control"] == Text("no-cache"))
      && ("Pragma" !in CallerHeaders(headers) ==> h["Pragma"] == Text("no-cache"))
  {
  }

  /** Without caller headers the wrapper's GET sends exactly the defaults. */
  lemma GetJsonWithoutHeaders(w: CircuitBreakerWrapper, url: string, timeoutMs: Option<int>)
    ensures GetJson(w, url, None, timeoutMs).request.headers == CacheControlHeaders
  {
  }

  /** The text GETs, through the wrapper or not, and the service's GET send
      exactly `Cache-Control: no-cache` and `Pragma: no-cache`. */
  lemma PlainGetsSendExactlyCacheControl(w: CircuitBreakerWrapper, config: Config, url: string,
                                        timeoutMs: Option<int>)
    ensures GetText(w, url, timeoutMs).request.headers ==
      map["Cache-Control" := Text("no-cache"), "Pragma" := Text("no-cache")]
    ensures ServiceGetJson(config, url, timeoutMs).request.headers == CacheControlHeaders
    ensures ServiceGetText(config, url, timeoutMs).request.headers == CacheControlHeaders
  {
    assert Overlay(CacheControlHeaders, map[]) == CacheControlHeaders;
  }

  /** POST and DELETE send exactly the caller's headers, or none, and never
      add the cache-control defaults the caller did not give. */
  lemma PostAndDeleteSendCallerHeaders(w: CircuitBreakerWrapper, url: string, body: string,
                                       headers: Option<HeaderMap>, timeoutMs: Option<int>)
    ensures PostJson(w, url, body, headers, timeoutMs).request.headers == CallerHeaders(headers)
    ensures DeleteJson(w, url, headers, timeoutMs).request.headers == CallerHeaders(headers)
    ensures headers.None? ==> PostJson(w, url, body, headers, timeoutMs).request.headers == map[]
  {
    assert Overlay(map[], CallerHeaders(headers)) == CallerHeaders(headers);
  }

  /** Every wrapper call uses the caller's timeout when one is given and the
      wrapper's construction-time default otherwise. */
  lemma WrapperTimeouts(w: CircuitBreakerWrapper, url: string, body: string,
                        headers: Option<HeaderMap>, timeoutMs: Option<int>)
    ensures var expected := if timeoutMs.Some? then timeoutMs.value else w.defaultTimeoutMs;
      && GetJson(w, url, headers, timeoutMs).request.timeoutMs == expected
      && GetText(w, url, timeoutMs).request.timeoutMs == expected
      && PostJson(w, url, body, headers, timeoutMs).request.timeoutMs == expected
      && DeleteJson(w, url, headers, timeoutMs).request.timeoutMs == expected
  {
  }

  /** A wrapper made by the service with no timeout arguments times its
      calls out after the configured default. */
  lemma DefaultWrapperTimeout(config: Config, name: string, url: string)
    ensures GetJson(GetCircuitBreaker(config, name, None, None), url, None, None).request.timeoutMs
      == config.defaultHttpTimeoutMs
  {
  }

  /** A 404 is filtered (the source's aim: it must not trip the breaker);
      server errors and errors without a status are not. */
  lemma ErrorFilterCases(status: int)
    ensures ErrorFilter(Some(404))
    ensures status >= 500 ==> !ErrorFilter(Some(status))
    ensures !ErrorFilter(None)
  {
  }
}
