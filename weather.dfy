/**
 * Resolving a zip code to weather data: the demo table used when no API key
 * is configured, the mapping of the upstream provider's record onto the
 * service's response, and the errors an upstream call can end in.
 */
module Weather {
  import opened Strings
  import opened Decimal

  /** A float64 value, kept as its IEEE 754 binary64 bit pattern. The service
      only copies these values, so nothing here computes with them. */
  datatype Float64 = Float64(bits: bv64)

  /** The body returned to clients on success. */
  datatype WeatherResponse = WeatherResponse(
    zipCode: string,
    location: string,
    temperature: Float64,
    description: string,
    humidity: int,
    windSpeed: Float64)

  /** The provider's JSON record, already decoded, with the fields the service reads. */
  datatype MainBlock = MainBlock(temp: Float64, humidity: int)
  datatype WeatherEntry = WeatherEntry(description: string)
  datatype WindBlock = WindBlock(speed: Float64)
  datatype OpenWeatherAPIResponse = OpenWeatherAPIResponse(
    name: string,
    main: MainBlock,
    weather: seq<WeatherEntry>,
    wind: WindBlock)

  datatype Result<T, E> = Ok(value: T) | Err(error: E)

  // ---------------------------------------------------------------------
  // Demo mode

  /** Sample zip codes and their "city,state,country" entries. */
  const ZipCodeToCity: map<string, string> := map[
    "10001" := "New York,NY,US",
    "90210" := "Beverly Hills,CA,US",
    "60601" := "Chicago,IL,US",
    "94102" := "San Francisco,CA,US",
    "77001" := "Houston,TX,US",
    "33101" := "Miami,FL,US",
    "98101" := "Seattle,WA,US",
    "02101" := "Boston,MA,US",
    "30301" := "Atlanta,GA,US",
    "75201" := "Dallas,TX,US",
    "20001" := "Washington,DC,US",
    "89101" := "Las Vegas,NV,US",
    "80201" := "Denver,CO,US",
    "85001" := "Phoenix,AZ,US",
    "19101" := "Philadelphia,PA,US"
  ]

  const UnknownLocation := "Unknown Location"
  const DemoTemperature := Float64(0x4052_2000_0000_0000)  // 72.5
  const DemoDescription := "partly cloudy (demo data)"
  const DemoHumidity := 65
  const DemoWindSpeed := Float64(0x4020_6666_6666_6666)    // 8.2

  /** The demo location of a zip code: the city part of its table entry, the
      whole input being the key; "Unknown Location" when there is no entry. */
  function DemoLocation(zip: string): (location: string)
    ensures zip !in ZipCodeToCity ==> location == UnknownLocation
    ensures zip in ZipCodeToCity ==>
      var entry := ZipCodeToCity[zip];
      && ',' !in location
      && |location| <= |entry| && location == entry[..|location|]
      && (|location| < |entry| ==> entry[|location|] == ',')
  {
    if zip in ZipCodeToCity then
      SplitHead(ZipCodeToCity[zip], ',');
      Split(ZipCodeToCity[zip], ',')[0]
    else
      UnknownLocation
  }

  /** The fixed response of demo mode; the zip code is echoed unchanged. */
  function DemoWeather(zip: string): (r: WeatherResponse)
    ensures r.zipCode == zip && r.location == DemoLocation(zip)
    ensures r.temperature == DemoTemperature && r.description == DemoDescription
    ensures r.humidity == DemoHumidity && r.windSpeed == DemoWindSpeed
  {
    WeatherResponse(zip, DemoLocation(zip), DemoTemperature, DemoDescription, DemoHumidity, DemoWindSpeed)
  }

  // ---------------------------------------------------------------------
  // Live mode

  /** The query parameters of the provider request: `zip`, `appid`, `units`. */
  datatype Query = Query(zip: string, appid: string, units: string)

  /** The zip code is sent with ",US" appended and imperial units requested. */
  function BuildQuery(zip: string, apiKey: string): (q: Query)
    ensures q.zip == zip + ",US" && q.appid == apiKey && q.units == "imperial"
  {
    Query(zip + ",US", apiKey, "imperial")
  }

  /** How the outbound GET ended: no response at all, or a status line and
      a body that could or could not be read and decoded. */
  datatype Decoding = Malformed(err: string) | Parsed(record: OpenWeatherAPIResponse)
  datatype BodyRead = ReadError(err: string) | Bytes(decoded: Decoding)
  datatype Transport = GetFailed(err: string) | Answered(status: int, body: BodyRead)

  /** The four ways an upstream call fails. */
  datatype FetchError =
    | FetchFailed(cause: string)
    | BadStatus(code: int)
    | ReadFailed(cause: string)
    | ParseFailed(cause: string)
  {
    /** The text of the error value, which the handler sends to the client:
        the kind's fixed prefix, then the underlying cause, or for a status
        error the code in decimal, from which the code reads back. */
    function Message(): (m: string)
      ensures FetchFailed? ==> StartsWith(m, FetchPrefix) && m[|FetchPrefix|..] == cause
      ensures ReadFailed? ==> StartsWith(m, ReadPrefix) && m[|ReadPrefix|..] == cause
      ensures ParseFailed? ==> StartsWith(m, ParsePrefix) && m[|ParsePrefix|..] == cause
      ensures BadStatus? ==> StartsWith(m, StatusPrefix) && m[|StatusPrefix|..] == IntToString(code)
      ensures BadStatus? ==> ParseInt(m[|StatusPrefix|..]) == Some(code)
    {
      match this
      case FetchFailed(cause) => StartsWithConcat(FetchPrefix, cause); FetchPrefix + cause
      case BadStatus(code) =>
        StartsWithConcat(StatusPrefix, IntToString(code));
        IntRoundTrip(code);
        StatusPrefix + IntToString(code)
      case ReadFailed(cause) => StartsWithConcat(ReadPrefix, cause); ReadPrefix + cause
      case ParseFailed(cause) => StartsWithConcat(ParsePrefix, cause); ParsePrefix + cause
    }
  }

  const FetchPrefix := "failed to fetch weather data: "
  const StatusPrefix := "weather API returned status: "
  const ReadPrefix := "failed to read response body: "
  const ParsePrefix := "failed to parse weather data: "

  const StatusOK := 200

  /** The provider's record mapped onto the service's response. The first
      weather entry gives the description, "clear" when there is none. */
  function Normalize(zip: string, rec: OpenWeatherAPIResponse): (r: WeatherResponse)
    ensures r.zipCode == zip && r.location == rec.name
    ensures r.temperature == rec.main.temp && r.humidity == rec.main.humidity
    ensures r.windSpeed == rec.wind.speed
    ensures |rec.weather| > 0 ==> r.description == rec.weather[0].description
    ensures rec.weather == [] ==> r.description == "clear"
  {
    var description := if |rec.weather| > 0 then rec.weather[0].description else "clear";
    WeatherResponse(zip, rec.name, rec.main.temp, description, rec.main.humidity, rec.wind.speed)
  }

  /** The live branch after the request was sent: transport failure, then the
      status, then the body read, then decoding, each checked in that order. */
  function Fetch(zip: string, t: Transport): (r: Result<WeatherResponse, FetchError>)
    ensures r.Ok? <==> t.Answered? && t.status == StatusOK && t.body.Bytes? && t.body.decoded.Parsed?
    ensures r.Ok? ==> r.value == Normalize(zip, t.body.decoded.record)
    ensures t.GetFailed? ==> r == Err(FetchFailed(t.err))
    ensures t.Answered? && t.status != StatusOK ==> r == Err(BadStatus(t.status))
    ensures t.Answered? && t.status == StatusOK && t.body.ReadError? ==> r == Err(ReadFailed(t.body.err))
    ensures t.Answered? && t.status == StatusOK && t.body.Bytes? && t.body.decoded.Malformed? ==>
      r == Err(ParseFailed(t.body.decoded.err))
  {
    match t
    case GetFailed(e) => Err(FetchFailed(e))
    case Answered(status, body) =>
      if status != StatusOK then Err(BadStatus(status))
      else match body
        case ReadError(e) => Err(ReadFailed(e))
        case Bytes(Malformed(e)) => Err(ParseFailed(e))
        case Bytes(Parsed(rec)) => Ok(Normalize(zip, rec))
  }

  /** Demo data without an API key; otherwise one provider call with the
      query built from the full zip code and the key. */
  function GetWeatherByZipCode(zip: string, apiKey: string, provider: Query -> Transport): (r: Result<WeatherResponse, FetchError>)
    ensures apiKey == "" ==> r == Ok(DemoWeather(zip))
    ensures apiKey != "" ==> r == Fetch(zip, provider(BuildQuery(zip, apiKey)))
    ensures r.Ok? ==> r.value.zipCode == zip
  {
    if apiKey == "" then Ok(DemoWeather(zip))
    else Fetch(zip, provider(BuildQuery(zip, apiKey)))
  }

  // ---------------------------------------------------------------------
  // Properties

  /** Reads an error message back into the error it came from. */
  function Classify(msg: string): Option<FetchError> {
    if StartsWith(msg, FetchPrefix) then Some(FetchFailed(msg[|FetchPrefix|..]))
    else if StartsWith(msg, ReadPrefix) then Some(ReadFailed(msg[|ReadPrefix|..]))
    else if StartsWith(msg, ParsePrefix) then Some(ParseFailed(msg[|ParsePrefix|..]))
    else if StartsWith(msg, StatusPrefix) then
      match ParseInt(msg[|StatusPrefix|..])
      case Some(code) => Some(BadStatus(code))
      case None => None
    else None
  }

  predicate StartsWith(s: string, prefix: string) {
    |prefix| <= |s| && s[..|prefix|] == prefix
  }

  lemma StartsWithConcat(prefix: string, rest: string)
    ensures StartsWith(prefix + rest, prefix) && (prefix + rest)[|prefix|..] == rest
  {
  }

  lemma DiffersAt(s: string, prefix: string, i: nat)
    requires i < |s| && i < |prefix| && s[i] != prefix[i]
    ensures !StartsWith(s, prefix)
  {
  }

  /** Every error message determines its error: the four kinds never share a
      message, and a status error carries its code recoverably. */
  lemma MessageRoundTrip(e: FetchError)
    ensures Classify(e.Message()) == Some(e)
  {
    match e
    case FetchFailed(_) =>
    case ReadFailed(_) =>
      DiffersAt(e.Message(), FetchPrefix, 10);
    case ParseFailed(_) =>
      DiffersAt(e.Message(), FetchPrefix, 10);
      DiffersAt(e.Message(), ReadPrefix, 10);
    case BadStatus(_) =>
      DiffersAt(e.Message(), FetchPrefix, 0);
      DiffersAt(e.Message(), ReadPrefix, 0);
      DiffersAt(e.Message(), ParsePrefix, 0);
  }

  /** Hence distinct errors give distinct messages. */
  lemma MessageInjective(e1: FetchError, e2: FetchError)
    requires e1.Message() == e2.Message()
    ensures e1 == e2
  {
    MessageRoundTrip(e1);
    MessageRoundTrip(e2);
  }

  /** A non-200 status ends the call before the body is looked at. */
  lemma StatusCheckedBeforeBody(zip: string, status: int, b1: BodyRead, b2: BodyRead)
    requires status != StatusOK
    ensures Fetch(zip, Answered(status, b1)) == Fetch(zip, Answered(status, b2))
    ensures Fetch(zip, Answered(status, b1)).Err?
  {
  }

  /** Only the first weather entry is read. */
  lemma NormalizeReadsFirstEntryOnly(zip: string, rec: OpenWeatherAPIResponse, more: seq<WeatherEntry>)
    requires |rec.weather| > 0
    ensures Normalize(zip, rec.(weather := rec.weather + more)) == Normalize(zip, rec)
  {
  }

  /** A status-500 answer yields exactly "weather API returned status: 500". */
  lemma Status500Message(zip: string, apiKey: string, provider: Query -> Transport, body: BodyRead)
    requires apiKey != "" && provider(BuildQuery(zip, apiKey)) == Answered(500, body)
    ensures GetWeatherByZipCode(zip, apiKey, provider) == Err(BadStatus(500))
    ensures BadStatus(500).Message() == "weather API returned status: 500"
  {
    assert Decimal.NatToString(5) == "5";
    assert Decimal.NatToString(50) == "50";
    assert Decimal.IntToString(500) == "500";
  }

  /** A table entry whose city part is `city` gives `city` as demo location. */
  lemma DemoLocationIsCity(zip: string, city: string, rest: string)
    requires zip in ZipCodeToCity && ZipCodeToCity[zip] == city + "," + rest
    requires ',' !in city
    ensures DemoLocation(zip) == city
  {
    SplitFirstField(city, ',', rest);
  }

  /** The table is keyed by five-character strings only, so an input of any
      other length, such as an extended "XXXXX-XXXX" zip code, has no entry. */
  lemma DemoKeysHaveFiveCharacters(zip: string)
    requires |zip| != 5
    ensures DemoLocation(zip) == UnknownLocation
  {
  }

  /** Demo mode for "10001": the full fixed response with "New York". */
  lemma DemoExampleKnown(provider: Query -> Transport)
    ensures GetWeatherByZipCode("10001", "", provider)
      == Ok(WeatherResponse("10001", "New York", DemoTemperature, DemoDescription, 65, DemoWindSpeed))
  {
    DemoLocationIsCity("10001", "New York", "NY,US");
  }

  /** Demo mode for "00000", a well-formed zip code missing from the table. */
  lemma DemoExampleUnknown(provider: Query -> Transport)
    ensures GetWeatherByZipCode("00000", "", provider)
      == Ok(WeatherResponse("00000", UnknownLocation, DemoTemperature, DemoDescription, 65, DemoWindSpeed))
  {
  }

  /** Demo mode for "10001-1234": the input is echoed whole, and since the
      whole input is the lookup key, the location is unknown. */
  lemma DemoExampleExtended(provider: Query -> Transport)
    ensures GetWeatherByZipCode("10001-1234", "", provider)
      == Ok(WeatherResponse("10001-1234", UnknownLocation, DemoTemperature, DemoDescription, 65, DemoWindSpeed))
  {
  }
}
