/**
 * The HTTP side of the weather route: the handler's chain of checks, the
 * middleware that adds the JSON and CORS headers and answers preflight
 * requests, and the two composed. A reply is the value the handler writes
 * to its ResponseWriter once: a status, headers and a JSON body.
 */
module Server {
  import opened ZipCode
  import opened Weather

  /** The parts of a request the route looks at: the method and the decoded
      query string, each parameter with its values in order. */
  datatype Request = Request(httpMethod: string, query: map<string, seq<string>>)

  /** The JSON documents the route writes: `{"error": …}`, a weather
      response, or nothing at all. */
  datatype Json = ErrorJson(error: string) | WeatherJson(weather: WeatherResponse) | NoBody

  datatype Reply = Reply(status: int, headers: map<string, string>, body: Json)

  const StatusBadRequest := 400

  const RequiredMessage := "zip_code parameter is required"
  const FormatMessage := "zip_code must be in format XXXXX or XXXXX-XXXX"

  /** The first value of a query parameter, or "" when it has none. A
      missing parameter and an empty one therefore look the same. */
  function QueryGet(query: map<string, seq<string>>, key: string): (v: string)
    ensures key in query && |query[key]| > 0 ==> v == query[key][0]
    ensures key !in query || query[key] == [] ==> v == ""
  {
    if key in query && |query[key]| > 0 then query[key][0] else ""
  }

  /** The `zip_code` query value, "" when it is absent or has no value. */
  function ZipParam(req: Request): (zip: string)
    ensures "zip_code" in req.query && |req.query["zip_code"]| > 0 ==> zip == req.query["zip_code"][0]
    ensures "zip_code" !in req.query || req.query["zip_code"] == [] ==> zip == ""
  {
    QueryGet(req.query, "zip_code")
  }

  /** The weather handler: a missing zip code, then a malformed one, then a
      resolver error, each answered with 400 and its message; otherwise 200
      and the weather data. It sets no headers itself. */
  function WeatherHandler(req: Request, apiKey: string, provider: Query -> Transport): (reply: Reply)
    ensures reply.headers == map[]
    ensures reply.status == StatusOK || reply.status == StatusBadRequest
    ensures reply.status == StatusOK <==> reply.body.WeatherJson?
    ensures reply.status == StatusBadRequest <==> reply.body.ErrorJson?
    ensures var zip := ZipParam(req);
      && (zip == "" ==> reply.body == ErrorJson(RequiredMessage))
      && (zip != "" && !IsValidZip(zip) ==> reply.body == ErrorJson(FormatMessage))
      && (IsValidZip(zip) ==>
            match GetWeatherByZipCode(zip, apiKey, provider)
            case Ok(w) => reply.body == WeatherJson(w)
            case Err(e) => reply.body == ErrorJson(e.Message()))
  {
    var zip := ZipParam(req);
    if zip == "" then Reply(StatusBadRequest, map[], ErrorJson(RequiredMessage))
    else if !IsValidZip(zip) then Reply(StatusBadRequest, map[], ErrorJson(FormatMessage))
    else match GetWeatherByZipCode(zip, apiKey, provider)
      case Err(e) => Reply(StatusBadRequest, map[], ErrorJson(e.Message()))
      case Ok(w) => Reply(StatusOK, map[], WeatherJson(w))
  }

  /** The headers the middleware sets on every request. */
  const CorsHeaders: map<string, string> := map[
    "Content-Type" := "application/json",
    "Access-Control-Allow-Origin" := "*",
    "Access-Control-Allow-Methods" := "GET, OPTIONS",
    "Access-Control-Allow-Headers" := "Content-Type"
  ]

  /** Sets the four headers, then answers OPTIONS itself with an empty 200
      and hands every other request on to `next`, whose own headers are set
      after and so win over the middleware's. */
  function JsonMiddleware(req: Request, next: Request -> Reply): (reply: Reply)
    ensures req.httpMethod == "OPTIONS" ==> reply == Reply(StatusOK, CorsHeaders, NoBody)
    ensures req.httpMethod != "OPTIONS" ==>
      && reply.status == next(req).status && reply.body == next(req).body
      && reply.headers.Keys == CorsHeaders.Keys + next(req).headers.Keys
      && (forall h :: h in next(req).headers ==> reply.headers[h] == next(req).headers[h])
      && (forall h :: h in CorsHeaders && h !in next(req).headers ==> reply.headers[h] == CorsHeaders[h])
  {
    if req.httpMethod == "OPTIONS" then Reply(StatusOK, CorsHeaders, NoBody)
    else
      var inner := next(req);
      inner.(headers := CorsHeaders + inner.headers)
  }

  /** A request to the weather route: the middleware around the handler. The
      route is registered for GET only: the middleware answers OPTIONS, and
      any other method gets the router's own answer, not the handler's. */
  function ServeWeather(req: Request, apiKey: string, provider: Query -> Transport): (reply: Reply)
    requires req.httpMethod == "GET" || req.httpMethod == "OPTIONS"
    ensures reply.headers == CorsHeaders
    ensures req.httpMethod == "OPTIONS" ==> reply.status == StatusOK && reply.body == NoBody
    ensures req.httpMethod == "GET" ==>
      reply.status == WeatherHandler(req, apiKey, provider).status
      && reply.body == WeatherHandler(req, apiKey, provider).body
  {
    JsonMiddleware(req, r => WeatherHandler(r, apiKey, provider))
  }

  // ---------------------------------------------------------------------
  // Properties

  /** A preflight request is answered without consulting the next handler. */
  lemma OptionsSkipsNext(req: Request, next1: Request -> Reply, next2: Request -> Reply)
    requires req.httpMethod == "OPTIONS"
    ensures JsonMiddleware(req, next1) == JsonMiddleware(req, next2)
  {
  }

  /** When the next handler sets no headers of the same names, every reply
      carries the four JSON and CORS headers with their values. */
  lemma CorsHeadersOnEveryReply(req: Request, next: Request -> Reply)
    requires next(req).headers.Keys !! CorsHeaders.Keys
    ensures var reply := JsonMiddleware(req, next);
      forall h :: h in CorsHeaders ==> h in reply.headers && reply.headers[h] == CorsHeaders[h]
  {
  }

  /** Error messages of the resolver start with "failed to" or "weather API",
      so they are never one of the two validation messages. */
  lemma ResolverMessagesDifferFromValidation(e: FetchError)
    ensures e.Message() != RequiredMessage && e.Message() != FormatMessage
  {
    var m := e.Message();
    match e {
      case FetchFailed(c) => assert m[0] == FetchPrefix[0];
      case BadStatus(code) => assert m[0] == StatusPrefix[0];
      case ReadFailed(c) => assert m[0] == ReadPrefix[0];
      case ParseFailed(c) => assert m[0] == ParsePrefix[0];
    }
    assert RequiredMessage[0] == 'z' && FormatMessage[0] == 'z';
  }

  /** The error body tells the client which check failed: the "required"
      message exactly for an empty zip code, the "format" message exactly for
      a non-empty malformed one; for a well-formed one, a 400 exactly when
      the resolver fails. */
  lemma ErrorIdentifiesCheck(req: Request, apiKey: string, provider: Query -> Transport)
    ensures WeatherHandler(req, apiKey, provider).body == ErrorJson(RequiredMessage) <==> ZipParam(req) == ""
    ensures WeatherHandler(req, apiKey, provider).body == ErrorJson(FormatMessage)
        <==> ZipParam(req) != "" && !IsValidZip(ZipParam(req))
    ensures IsValidZip(ZipParam(req)) ==>
      (WeatherHandler(req, apiKey, provider).status == StatusBadRequest <==>
       GetWeatherByZipCode(ZipParam(req), apiKey, provider).Err?)
  {
    var zip := ZipParam(req);
    assert RequiredMessage[9] != FormatMessage[9];
    if IsValidZip(zip) {
      match GetWeatherByZipCode(zip, apiKey, provider)
      case Err(e) =>
        ResolverMessagesDifferFromValidation(e);
      case Ok(_) =>
    }
  }

  /** Validation comes before any lookup: a 200 reply is only given for a
      well-formed zip code, and it echoes that zip code. */
  lemma SuccessOnlyForValidZip(req: Request, apiKey: string, provider: Query -> Transport)
    ensures var zip := ZipParam(req); var reply := WeatherHandler(req, apiKey, provider);
      reply.status == StatusOK ==> IsValidZip(zip) && reply.body.weather.zipCode == zip
  {
  }

  /** A missing or malformed zip code never reaches the resolver: the reply
      is the same whatever the key and the provider. */
  lemma InvalidZipSkipsResolver(req: Request, key1: string, p1: Query -> Transport, key2: string, p2: Query -> Transport)
    requires !IsValidZip(ZipParam(req))
    ensures WeatherHandler(req, key1, p1) == WeatherHandler(req, key2, p2)
  {
  }

  /** Without an API key every well-formed zip code is answered with 200 and
      the demo data, and only those are. */
  lemma DemoModeServesValidZips(req: Request, provider: Query -> Transport)
    ensures var zip := ZipParam(req); var reply := WeatherHandler(req, "", provider);
      && (reply.status == StatusOK <==> IsValidZip(zip))
      && (IsValidZip(zip) ==> reply.body == WeatherJson(DemoWeather(zip)))
  {
  }

  /** With a key, an upstream answer other than 200 reaches the client as
      400 with "weather API returned status: <code>". */
  lemma UpstreamStatusSurfaced(req: Request, apiKey: string, provider: Query -> Transport, code: int, body: BodyRead)
    requires IsValidZip(ZipParam(req)) && apiKey != ""
    requires provider(BuildQuery(ZipParam(req), apiKey)) == Answered(code, body) && code != StatusOK
    ensures WeatherHandler(req, apiKey, provider)
      == Reply(StatusBadRequest, map[], ErrorJson(StatusPrefix + Decimal.IntToString(code)))
  {
  }

  /** The documented example replies of the weather route. */
  lemma RouteExamples(apiKey: string, provider: Query -> Transport)
    ensures ServeWeather(Request("GET", map[]), apiKey, provider)
      == Reply(StatusBadRequest, CorsHeaders, ErrorJson("zip_code parameter is required"))
    ensures ServeWeather(Request("GET", map["zip_code" := ["123"]]), apiKey, provider)
      == Reply(StatusBadRequest, CorsHeaders, ErrorJson("zip_code must be in format XXXXX or XXXXX-XXXX"))
    ensures ServeWeather(Request("OPTIONS", map["zip_code" := ["123"]]), apiKey, provider)
      == Reply(StatusOK, CorsHeaders, NoBody)
  {
  }
}
