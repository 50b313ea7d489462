# Weather gateway decision core, in Dafny

The service is an HTTP gateway that turns a US zip code into weather data.
It either answers from a fixed demo table, when no OpenWeatherMap API key is
configured, or makes one call to the provider's current-weather endpoint.
This project models what the gateway decides, as pure functions:

- **Zip-code validation** (`ascii.dfy`, `regex.dfy`, `zipcode.dfy`). The check uses the RE2
  pattern `^\d{5}(-\d{4})?$`. `Regex` gives the pattern's syntax and its
  matching semantics as language membership, where `\d` means ASCII digits
  only and `$` means only the end of the text. `ZipCode.IsValidZip` is the
  direct predicate, and the two are proved to accept the same strings.
- **Demo mode** (`strings.dfy`, `weather.dfy`). The table maps a zip code to
  "city,state,country". The location is `strings.Split(entry, ",")[0]`, or
  "Unknown Location" when there is no entry. The other fields are fixed.
- **Live mode** (`decimal.dfy`, `weather.dfy`). The outbound call is a
  parameter (`provider: Query -> Transport`). It says what the GET, the body
  read and the JSON decode end in for the query that was built. The model
  covers the order of the four error checks and their messages. Go's `%d`
  for the status code is written out, with a proved read-back. The
  provider's record is mapped onto the response.
- **HTTP layer** (`server.dfy`). This covers the weather handler's chain:
  missing, then malformed, then resolver error, then success. It also covers
  the JSON/CORS middleware with its OPTIONS short-circuit, and the two put
  together. A reply is a value (status, headers, JSON body), not a write to a
  `ResponseWriter`.

Float values (temperature, wind speed) are opaque IEEE 754 bit patterns. They
are copied and never computed with. The demo constants are 72.5
(`0x4052200000000000`) and 8.2 (`0x4020666666666666`).

An extended zip code is never shortened to its first five digits:
- Demo mode uses the whole input as the table key (main.go:67). So
  `"10001-1234"` gets "Unknown Location", while its `zip_code` field still
  echoes the input (`Weather.DemoExampleExtended`).
- Live mode sends the whole input with ",US" appended (main.go:85,
  `Weather.BuildQuery`).

## Model

| member | source | states |
|---|---|---|
| `ZipCode.IsValidZip` | main.go:158-159 | an accepted string has length 5, or length 10 with '-' at index 5, and holds ASCII digits everywhere else |
| `Regex.DigitsCopies` | main.go:158 | `\d{n}` matches exactly the strings of n ASCII digits |
| `ZipCode.PatternAgreesWithValidator` | main.go:157-159 | the anchored pattern `^\d{5}(-\d{4})?$` matches s exactly when s is 5 ASCII digits, or 5 digits, '-' and 4 digits |
| `ZipCode.ValidZipShape` | main.go:157-159 | the first five characters of an accepted zip, on their own, are an accepted five-digit zip |
| `ZipCode.PatternRejectsSurroundingText` | main.go:158-159 | a non-digit before or after any string (a space, a trailing newline) makes the pattern fail; nothing is trimmed |
| `ZipCode.RejectsExamples` | main.go:158-159 | "123", "", "12345\n", " 12345", "12345 ", "1234a", "12345-123" and "12345+1234" are rejected |
| `ZipCode.AcceptsExamples` | main.go:158-159 | "10001", "00000" and "10001-1234" are accepted |
| `Decimal.NatToString` | main.go:99 | the decimal rendering of a natural number is non-empty, all digits, with no leading zero |
| `Decimal.IntToString` | main.go:99 | `%d` of an int starts with '-' exactly for negative values, followed by at least one digit and no leading zero |
| `Decimal.IntRoundTrip` | main.go:99 | reading back the `%d` rendering gives the original integer |
| `Decimal.IntToStringInjective` | main.go:99 | different integers render differently |
| `Strings.Split` | main.go:70 | the pieces are at least one, none holds the separator, and joining them with the separator gives back the input |
| `Strings.SplitHead` | main.go:70 | the first piece is the prefix of the input up to the first separator, or the whole input when there is none |
| `Strings.SplitFirstField` | main.go:70 | for a separator-free `field`, the first piece of `field + "," + rest` is `field` |
| `Weather.DemoLocation` | main.go:44-71 | with no table entry for the whole input: "Unknown Location"; with one: a comma-free prefix of the entry that ends at its first comma or its end |
| `Weather.DemoWeather` | main.go:72-79 | demo response echoes the input zip unchanged, uses the demo location, temperature 72.5, "partly cloudy (demo data)", humidity 65, wind speed 8.2 |
| `Weather.DemoLocationIsCity` | main.go:67-71 | a table entry "city,rest" with a comma-free city gives exactly that city as location |
| `Weather.DemoKeysHaveFiveCharacters` | main.go:44-68 | every table key has five characters, so any other input (every extended zip) gets "Unknown Location" |
| `Weather.DemoExampleKnown` | main.go:62-79 | demo mode for "10001" gives the whole fixed response with location "New York" |
| `Weather.DemoExampleUnknown` | main.go:62-79 | demo mode for "00000" gives "Unknown Location" with the same fixed fields |
| `Weather.DemoExampleExtended` | main.go:62-79 | demo mode for "10001-1234" echoes "10001-1234" and, the whole input being the key, gives "Unknown Location" |
| `Weather.BuildQuery` | main.go:84-87 | the provider query carries `zip` = input + ",US", `appid` = the key, `units` = "imperial" |
| `Weather.Normalize` | main.go:114-127 | name, temperature, humidity and wind speed pass through; description is the first weather entry's, or "clear" when the list is empty; zip is the input |
| `Weather.NormalizeReadsFirstEntryOnly` | main.go:115-118 | weather entries after the first do not affect the response |
| `Weather.Fetch` | main.go:92-127 | success exactly for a 200 answer whose body was read and decoded; otherwise transport failure, non-200 status (before the body is read), read failure and decode failure each give their own error, in that order |
| `Weather.StatusCheckedBeforeBody` | main.go:98-106 | a non-200 answer fails the same way whatever its body |
| `Weather.GetWeatherByZipCode` | main.go:62-127 | with an empty key: always the demo response; otherwise the provider is asked exactly the query built from the full input and the key; every success echoes the input zip |
| `Weather.FetchError.Message` | main.go:93-112 | each message is its kind's fixed prefix followed by the underlying cause; a status error's message is the prefix followed by the `%d` text of its code, which reads back to the code |
| `Weather.MessageRoundTrip` | main.go:93-112 | each error message reads back to its error: the four error kinds never share a text, and a status error's text carries its code |
| `Weather.MessageInjective` | main.go:93-112 | distinct upstream errors give distinct messages |
| `Weather.Status500Message` | main.go:98-100 | an upstream 500 fails with exactly "weather API returned status: 500" |
| `Server.QueryGet` | main.go:150 | the first value of the parameter, "" when it is missing or has no value |
| `Server.ZipParam` | main.go:150 | the first `zip_code` value, "" when the parameter is missing or has no value |
| `Server.WeatherHandler` | main.go:148-176 | empty zip gives 400 "required"; non-empty malformed zip gives 400 "format"; a valid zip gives 400 with the resolver's message on error, else 200 with its response; status 200 exactly with a weather body, 400 exactly with an error body; no headers of its own |
| `Server.ResolverMessagesDifferFromValidation` | main.go:151-169 | no resolver error text equals either validation message |
| `Server.ErrorIdentifiesCheck` | main.go:151-171 | "required" is answered exactly for the empty zip; "format" exactly for a non-empty malformed one; for a valid zip, 400 exactly when the resolver fails |
| `Server.SuccessOnlyForValidZip` | main.go:157-175 | a 200 reply implies the zip passed validation, and its body echoes that zip |
| `Server.InvalidZipSkipsResolver` | main.go:151-166 | for a missing or malformed zip the reply does not depend on the key or the provider: the resolver is never invoked |
| `Server.DemoModeServesValidZips` | main.go:148-176 | with an empty key the reply is 200 exactly for valid zips, with the demo response |
| `Server.UpstreamStatusSurfaced` | main.go:166-171 | with a key, a non-200 upstream answer reaches the client as 400 with "weather API returned status: <code>" |
| `Server.JsonMiddleware` | main.go:131-145 | OPTIONS gets 200, the four headers and no body; any other method gets the next handler's status and body, the four headers plus the handler's own, the handler's values winning and the middleware's kept where the handler sets none |
| `Server.OptionsSkipsNext` | main.go:138-141 | for OPTIONS the reply does not depend on the next handler |
| `Server.CorsHeadersOnEveryReply` | main.go:133-136 | when the next handler sets none of the four headers, every reply carries all four with their values |
| `Server.ServeWeather` | main.go:131-176 | for the GET and OPTIONS requests the weather route receives (it is registered for GET at main.go:215), the reply always has exactly the four JSON/CORS headers; OPTIONS gives an empty 200; GET gives the handler's status and body |
| `Server.RouteExamples` | main.go:138-163 | no `zip_code` gives 400 "zip_code parameter is required"; `zip_code=123` gives 400 "zip_code must be in format XXXXX or XXXXX-XXXX"; OPTIONS gives an empty 200 |

## Left out

- `http.Get`, `io.ReadAll` and `json.Unmarshal` (main.go:92-112): network and library calls. Their outcomes are the `Transport` value the provider parameter returns. How JSON maps onto `OpenWeatherAPIResponse` is not modelled.
- URL construction with `url.Values.Encode` (main.go:83-89): library encoding. The model keeps only the three parameter values (`Weather.BuildQuery`).
- `os.Getenv` for `OPENWEATHER_API_KEY` and `PORT`: the key is a parameter. The port and its "8080" default belong to server start-up and are not modelled.
- `json.NewEncoder(w).Encode`: bodies are the values `ErrorJson`, `WeatherJson` and `NoBody`. Their JSON text, field names and trailing newline are not modelled.
- The underlying error text inside "failed to fetch/read/parse …" messages is an opaque string. Go's `%v` formatting of the wrapped error is not modelled.
- The chi router, route registration (including the `/api/v1` copies), the 404/405 defaults, the Logger, Recoverer, RequestID and RealIP middleware, and `ListenAndServe` (main.go:201-238): framework plumbing. `Server.ServeWeather` stands for a request routed to the weather handler.
- Server.ServeWeather: requires GET or OPTIONS. The route is registered for GET only (main.go:215), so for any other method the middleware passes the request on to the router, which answers 405 instead of calling the weather handler; that reply is not modelled.
- `rootHandler` and `healthHandler` (main.go:178-199): they only write constant JSON.
- Float arithmetic and formatting: temperature and wind speed are opaque bit patterns that are copied.
- Integer width: status codes and humidity are unbounded integers. The code only copies and prints them, so Go's 64-bit `int` never wraps here.
- Byte-level string handling: strings are sequences of characters. Invalid UTF-8 and how RE2 decodes it into runes are not modelled.
- Query-string decoding by `r.URL.Query()` (main.go:150): requests carry the already decoded parameters. Percent-decoding, '+' read as a space, and the dropping of pairs that contain ';' are not modelled.
- Header-name canonicalisation by `Header.Set`: the four names are already canonical.
- Compiling the regular expression on every request has no observable effect and is not modelled.
