/** The `/api/weather` route: the provider request URL it builds and the
    choice between its three responses. */
module Api {
  import opened Forecast

  const StatusOK: int := 200
  const StatusBadRequest: int := 400
  const StatusInternalServerError: int := 500

  const CityRequired: string := "city is required"

  /** The fixed parts of the provider's forecast endpoint template. */
  const QueryPrefix: string := "https://api.openweathermap.org/data/2.5/forecast?q="
  const KeyInfix: string := "&appid="
  const UnitsSuffix: string := "&units=metric"

  /** The outcome of one call to the provider: request, read of the whole
      body and JSON decoding together either give a forecast or fail with
      the error's text. A provider error payload that still decodes (its
      unknown keys ignored) is `Fetched` with an empty list, not a failure. */
  datatype FetchOutcome = Fetched(forecast: ForecastResponse) | FetchFailed(message: string)

  /** The JSON body the route writes. */
  datatype Body = ErrorBody(error: string) | ForecastBody(city: string, list: seq<Item>)

  datatype Response = Response(status: int, body: Body)

  datatype Option<T> = None | Some(value: T)

  /** What one request to the route does: the provider URLs it requested,
      in order, and the response it wrote. */
  datatype Handled = Handled(requests: seq<string>, response: Response)

  /** The provider request URL: city and key are substituted verbatim, with
      no escaping, and the string always ends in `&units=metric`. The result
      splits back into the template's fixed parts and the two arguments. */
  function RequestUrl(city: string, apiKey: string): (url: string)
    ensures |url| == |QueryPrefix| + |city| + |KeyInfix| + |apiKey| + |UnitsSuffix|
    ensures url[..|QueryPrefix|] == QueryPrefix
    ensures url[|QueryPrefix|..|QueryPrefix| + |city|] == city
    ensures url[|QueryPrefix| + |city|..|QueryPrefix| + |city| + |KeyInfix|] == KeyInfix
    ensures url[|QueryPrefix| + |city| + |KeyInfix|..|url| - |UnitsSuffix|] == apiKey
    ensures url[|url| - |UnitsSuffix|..] == UnitsSuffix
  {
    QueryPrefix + city + KeyInfix + apiKey + UnitsSuffix
  }

  /** The part of `s` before the first `c`, or all of `s` when it has none. */
  function UpTo(s: string, c: char): (r: string)
    ensures |r| <= |s| && r == s[..|r|]
    ensures c !in r
    ensures |r| < |s| ==> s[|r|] == c
  {
    if s == [] || s[0] == c then [] else [s[0]] + UpTo(s[1..], c)
  }

  /** The reference reader for the URL property: the value an `&`-splitting
      query reader takes for the `q` parameter of a URL built on the
      provider's template, that is everything up to the next `&`. */
  function CityQueried(url: string): (city: Option<string>)
    ensures city.Some? <==> |QueryPrefix| <= |url| && url[..|QueryPrefix|] == QueryPrefix
  {
    if |QueryPrefix| <= |url| && url[..|QueryPrefix|] == QueryPrefix
    then Some(UpTo(url[|QueryPrefix|..], '&'))
    else None
  }

  lemma {:induction false} UpToAppend(a: string, b: string, c: char)
    ensures UpTo(a + b, c) == if c in a then UpTo(a, c) else a + UpTo(b, c)
  {
    if a != [] {
      assert (a + b)[0] == a[0];
      assert (a + b)[1..] == a[1..] + b;
      if a[0] != c {
        UpToAppend(a[1..], b, c);
      }
    } else {
      assert a + b == b;
    }
  }

  /** Without escaping, the `&`-splitting reader `CityQueried` takes as the
      city only the part of it before its first `&`; a city with no `&`
      reaches that reader unchanged. */
  lemma CityReachesProvider(city: string, apiKey: string)
    ensures CityQueried(RequestUrl(city, apiKey)) == Some(UpTo(city, '&'))
    ensures '&' !in city ==> CityQueried(RequestUrl(city, apiKey)) == Some(city)
  {
    var url := RequestUrl(city, apiKey);
    var rest := KeyInfix + apiKey + UnitsSuffix;
    assert url[|QueryPrefix|..] == city + rest;
    UpToAppend(city, rest, '&');
    assert rest[0] == '&';
    if '&' !in city {
      assert UpTo(city, '&') == city;
    }
  }

  /** Without escaping, different cities and keys can produce the same URL. */
  lemma RequestUrlCollides()
    ensures RequestUrl("a&appid=b", "c") == RequestUrl("a", "b&appid=c")
  {
  }

  /** The `/api/weather` handler for query value `city`: an empty city is
      refused before any fetch; otherwise the provider is asked once, at the
      URL built from the city and key, and its failure becomes a 500 while
      its forecast becomes a 200 with the city echoed and the items. */
  function HandleWeather(city: string, apiKey: string, upstream: string -> FetchOutcome): (h: Handled)
    ensures city == "" ==> h == Handled([], Response(StatusBadRequest, ErrorBody(CityRequired)))
    ensures city != "" ==> h.requests == [RequestUrl(city, apiKey)]
    ensures city != "" && upstream(RequestUrl(city, apiKey)).FetchFailed? ==>
      h.response == Response(StatusInternalServerError, ErrorBody(upstream(RequestUrl(city, apiKey)).message))
    ensures h.response.status == StatusOK <==> city != "" && upstream(RequestUrl(city, apiKey)).Fetched?
    ensures h.response.status == StatusOK ==>
      h.response.body == ForecastBody(city, Present(upstream(RequestUrl(city, apiKey)).forecast.list))
    ensures h.response.status != StatusOK ==> h.response.body.ErrorBody?
  {
    if city == "" then
      Handled([], Response(StatusBadRequest, ErrorBody(CityRequired)))
    else
      var url := RequestUrl(city, apiKey);
      match upstream(url)
      case FetchFailed(message) =>
        Handled([url], Response(StatusInternalServerError, ErrorBody(message)))
      case Fetched(forecast) =>
        Handled([url], Response(StatusOK, ForecastBody(city, Present(forecast.list))))
  }

  /** The handler looks at the provider only at the request URL: two
      providers that answer that URL alike give the same handling. */
  lemma HandleConsultsOnlyRequestUrl(city: string, apiKey: string, u1: string -> FetchOutcome, u2: string -> FetchOutcome)
    requires city != "" ==> u1(RequestUrl(city, apiKey)) == u2(RequestUrl(city, apiKey))
    ensures HandleWeather(city, apiKey, u1) == HandleWeather(city, apiKey, u2)
  {
  }

  /** A successful response lists at most eight items, each the flattening
      of the provider entry at the same index. */
  lemma SuccessListBounded(city: string, apiKey: string, upstream: string -> FetchOutcome)
    requires HandleWeather(city, apiKey, upstream).response.status == StatusOK
    ensures var h := HandleWeather(city, apiKey, upstream);
      var entries := upstream(RequestUrl(city, apiKey)).forecast.list;
      |h.response.body.list| == Min(MaxItems, |entries|) &&
      forall k :: 0 <= k < |h.response.body.list| ==> h.response.body.list[k] == Flatten(entries[k])
  {
    var entries := upstream(RequestUrl(city, apiKey)).forecast.list;
    PresentLength(entries);
    forall k | 0 <= k < Min(MaxItems, |entries|)
      ensures Present(entries)[k] == Flatten(entries[k])
    {
      FlattenAllAt(entries[..Min(MaxItems, |entries|)], k);
    }
  }
}
