# Weather proxy: forecast presentation and the `/api/weather` route

The program is a small web backend. It takes a city name as the `city` query
parameter of `GET /api/weather`, asks the OpenWeatherMap forecast endpoint for
that city, keeps the first eight three-hour entries of the returned list,
flattens each entry's nested `main` object into a flat item, and answers with
JSON. This model covers the parts of `weather.go` that make decisions:

- `forecast.dfy` (module `Forecast`) holds the provider's record shapes
  (`ForecastResponse`, `ForecastEntry`, `MainReading`) and the client's flat
  `Item`. It also holds the truncate-and-flatten loop as the method
  `PresentForecast`, proved equal to the specification function `Present`.
  Lemmas about `Present` give its length, its fields, its order, and its
  independence from entries past the eighth.
- `api.dfy` (module `Api`) holds the provider request URL (`RequestUrl`) and
  the route's response selection (`HandleWeather`). The program itself never
  reads the URL back. To state what the unescaped substitution means, the
  module also defines the `&`-splitting reader that the URL property is
  stated against: `UpTo` (the text before the first `&`), `CityQueried` (the
  `q` value such a reader takes from a URL on the provider's template) and
  the lemma `UpToAppend` about them. The fetch is a
  parameter `upstream: string -> FetchOutcome` applied to the request URL. The
  handler returns the URLs it requested along with the response, so "an empty
  city never reaches the provider" is stated as "no URL was requested".
  `fetchWeather` never checks the provider's HTTP status code, and JSON
  decoding ignores keys it does not know. So a provider error payload such as
  `{"cod":"404","message":"city not found"}` decodes without error into an
  empty list, and the route answers 200 with `"list": []`, not 500. In the
  model that case is `upstream` returning `Fetched(ForecastResponse([]))`;
  only transport, read and decode errors are `FetchFailed`.

Go `float64` fields are only copied, so they are modelled by their 64-bit
pattern (`bv64`). Bit-pattern equality is exactly "copied with no conversion
or rounding". Go `int` is modelled as a 64-bit range. A Go slice becomes a
`seq`. The handler starts from an empty non-nil slice, so an empty forecast
gives an empty list rather than JSON `null`; the model's empty `seq` stands
for that.

## Model

| member | source | states |
|---|---|---|
| `Forecast.Flatten` | weather.go:98-104 | each entry is rebuilt exactly from its item (`Unflatten`), so no field is lost or changed by the renaming |
| `Forecast.FlattenAllAt` | weather.go:94-104 | flattening the entries keeps their number, and element k is the flattening of entry k |
| `Forecast.FlattenAllPrefix` | weather.go:94-104 | flattening a prefix is the prefix of the flattening: the loop never reorders entries |
| `Forecast.PresentForecast` | weather.go:92-105 | the loop, with its break at index 8, returns `Present(list)`: `min(8, len(list))` items, item k the flattening of entry k |
| `Forecast.PresentLength` | weather.go:94-97 | the item list has length `min(8, len(list))` |
| `Forecast.PresentAt` | weather.go:98-104 | item k has `DtTxt = DtText`, `Temp = Main.Temp`, `FeelsLike = Main.FeelsLike`, `Humidity = Main.Humidity`, `Pop = Pop` of entry k |
| `Forecast.PresentRecoversEntries` | weather.go:98-104 | every item gives back its source entry unchanged |
| `Forecast.PresentIsPrefix` | weather.go:94-97 | the items are a prefix of the flattening of the whole list, so the provider's order is kept |
| `Forecast.PresentIgnoresTail` | weather.go:94-97 | two lists that agree on their first eight entries give the same items: entries at index 8 or above have no effect |
| `Forecast.PresentIgnoresAppended` | weather.go:94-97 | appending entries to a list that already has eight changes nothing |
| `Forecast.PresentEmpty` | weather.go:92-105 | an empty forecast list gives an empty item list; presenting never fails |
| `Api.RequestUrl` | weather.go:27 | the URL string splits into the endpoint prefix with `q=`, the city verbatim, `&appid=`, the key verbatim, and `&units=metric`, so the string always contains `&units=metric` |
| `Api.CityReachesProvider` | weather.go:27 | because nothing is escaped, the `&`-splitting reader `CityQueried` takes from the URL the city up to its first `&`; a city with no `&` reaches that reader unchanged |
| `Api.RequestUrlCollides` | weather.go:27 | because nothing is escaped, two different city/key pairs can give the same URL |
| `Api.HandleWeather` | weather.go:69-106 | empty city: 400 `{"error": "city is required"}` and no request; otherwise exactly one request at `RequestUrl(city, key)`, then 500 with the error text on failure or 200 with the city echoed and `Present(list)` on success; every non-200 body is an error body with no list |
| `Api.HandleConsultsOnlyRequestUrl` | weather.go:70-76 | the handler depends on the provider only through its answer at the request URL, and not at all when the city is empty |
| `Api.SuccessListBounded` | weather.go:106 | a 200 response lists `min(8, len(list))` items, item k the flattening of provider entry k |

## Left out

- The network request, reading the body and JSON decoding (`http.Get`, `io.ReadAll`, `json.Unmarshal`, weather.go:29-47) are library code. The model replaces all three with one `upstream` function from URL to outcome. It does not tell a transport error from a read or decode error, because the handler treats all three the same way.
- Closing the response body (weather.go:34) is resource handling with no effect on the result.
- The `fmt.Print` diagnostics on the error paths (weather.go:31, 38, 45) are logging only.
- The gin wiring is framework code: the router, static files and templates (weather.go:55-60), the `/` HTML route (weather.go:63-66), `r.Run` (weather.go:110), and the `c.Query`/`c.JSON` calls. The query value and the response are plain values here. JSON serialisation of the bodies is not modelled.
- The hard-coded API key (weather.go:54) is a string parameter `apiKey`.
- Floating-point arithmetic is not modelled, because the values are only copied.
- The commented-out command-line `main` (weather.go:152-194) is dead code.
- Concurrent requests are not modelled. No state is shared between requests.
- Api.CityQueried: it models only how the `q` value is read up to the next `&`. It does not model percent-decoding, `#` fragments, or how Go's URL parser treats spaces and other unescaped characters in the city.
- Api.CityReachesProvider: it is about the URL string and the reader `CityQueried` only. In the program, `http.Get` parses the URL first. A `#` in the city makes the rest of the URL a fragment that is never sent, including `&appid=…&units=metric`. A real query reader also decodes `+` and `%xx`. Neither effect is modelled.
