/**
 * The guarded weather tool of 1_weather_server.py: `get_weather` geocodes the
 * query through Open-Meteo, takes the first result, asks the forecast service
 * for the current weather there and formats a report. Every failure is caught
 * and turned into a message; the model keeps it as a tagged error and renders
 * the message from it.
 */
module Weather {
  import opened Wrappers
  import opened Text
  import opened Json
  import opened Http

  const GeocodeApi := "https://geocoding-api.open-meteo.com/v1/search"
  const WeatherApi := "https://api.open-meteo.com/v1/forecast"

  function GeocodeUrl(location: string): string
  {
    GeocodeApi + "?name=" + location + "&count=1&language=en&format=json"
  }

  function ForecastUrl(lat: Json, lon: Json): string
  {
    WeatherApi + "?latitude=" + Show(lat) + "&longitude=" + Show(lon) + "&current_weather=true&timezone=auto"
  }

  /** The fields read from the first geocoding result. */
  datatype Place = Place(lat: Json, lon: Json, name: Json, country: Json)

  /**
   * `results[0]` with its `latitude`, `longitude` and `name` looked up
   * strictly and `country` through `.get(..., "Unknown")`.
   */
  function ReadPlace(results: Json): (r: Result<Place, Fault>)
    ensures results.JArr? && results.items != [] ==>
              var first := results.items[0];
              && (r.Ok? <==> first.JObj? && "latitude" in first.fields
                             && "longitude" in first.fields && "name" in first.fields)
              && (r.Ok? ==> r.value == Place(first.fields["latitude"], first.fields["longitude"], first.fields["name"],
                                             if "country" in first.fields then first.fields["country"] else JStr("Unknown")))
    ensures r.Ok? ==> results.JArr?
  {
    var result :- First(results);
    var lat :- Index(result, "latitude");
    var lon :- Index(result, "longitude");
    var name :- Index(result, "name");
    // `result` is a dictionary once `name` was found in it, so `.get` succeeds
    var country := GetOr(result, "country", JStr("Unknown")).value;
    Ok(Place(lat, lon, name, country))
  }

  /** The two readings taken from `current_weather`. */
  datatype Current = Current(temperature: Json, windspeed: Json)

  /** `temperature` and `windspeed` of `current_weather`, each on its own defaulting to "N/A". */
  function ReadCurrent(current: Json): (r: Result<Current, Fault>)
    ensures r.Ok? <==> current.JObj?
    ensures r.Ok? ==> r.value.temperature == (if "temperature" in current.fields then current.fields["temperature"] else JStr("N/A"))
    ensures r.Ok? ==> r.value.windspeed == (if "windspeed" in current.fields then current.fields["windspeed"] else JStr("N/A"))
  {
    var temp :- GetOr(current, "temperature", JStr("N/A"));
    var wind := GetOr(current, "windspeed", JStr("N/A")).value;
    Ok(Current(temp, wind))
  }

  /** The fields of a successful report, as rendered into its text. */
  datatype WeatherReport = WeatherReport(
    name: string, country: string, lat: string, lon: string, temperature: string, windspeed: string)

  function Report(p: Place, c: Current): WeatherReport
  {
    WeatherReport(Show(p.name), Show(p.country), Show(p.lat), Show(p.lon), Show(c.temperature), Show(c.windspeed))
  }

  /** The failure classes of `get_weather`, each with the context its message shows. */
  datatype WeatherError =
    | GeocodingNetwork(detail: string)
    | GeocodingStatus(status: nat, body: string)
    | GeocodingUnexpected(detail: string)
    | NotFound(location: string)
    | GeocodingParse(detail: string)
    | ForecastNetwork(detail: string)
    | ForecastStatus(status: nat, body: string)
    | ForecastUnexpected(detail: string)
    | NoCurrentWeather(name: string, country: string)
    | ForecastParse(detail: string)

  /** No geocoding result to use: `results` is absent or falsy. */
  predicate NoResults(geo: map<string, Json>)
  {
    "results" !in geo || !Truthy(geo["results"])
  }

  /** Lines 73-95: the forecast request's outcome turned into a report or a failure. */
  function InterpretForecast(p: Place, forecast: Fetch): (r: Result<WeatherReport, WeatherError>)
    ensures CheckedGet(forecast).NetworkFailed? <==> r.Err? && r.error.ForecastNetwork?
    ensures CheckedGet(forecast).StatusFailed? <==> r.Err? && r.error.ForecastStatus?
    ensures CheckedGet(forecast).StatusFailed? ==> r.error == ForecastStatus(forecast.status, forecast.text)
    ensures CheckedGet(forecast).OtherFailed? <==> r.Err? && r.error.ForecastUnexpected?
    ensures CheckedGet(forecast).Data? && "current_weather" !in CheckedGet(forecast).fields <==>
              r == Err(NoCurrentWeather(Show(p.name), Show(p.country)))
    ensures r.Ok? <==> CheckedGet(forecast).Data? && "current_weather" in CheckedGet(forecast).fields
                       && CheckedGet(forecast).fields["current_weather"].JObj?
    ensures r.Ok? ==> r.value == Report(p, ReadCurrent(CheckedGet(forecast).fields["current_weather"]).value)
    ensures CheckedGet(forecast).Data? && "current_weather" in CheckedGet(forecast).fields
            && !CheckedGet(forecast).fields["current_weather"].JObj? ==>
              r == Err(ForecastParse(FaultText(ReadCurrent(CheckedGet(forecast).fields["current_weather"]).error)))
  {
    match CheckedGet(forecast)
    case NetworkFailed(message) => Err(ForecastNetwork(message))
    case StatusFailed(status, text) => Err(ForecastStatus(status, text))
    case OtherFailed(message) => Err(ForecastUnexpected(message))
    case Data(data) =>
      if "current_weather" !in data then Err(NoCurrentWeather(Show(p.name), Show(p.country)))
      else
        match ReadCurrent(data["current_weather"])
        case Err(f) => Err(ForecastParse(FaultText(f)))
        case Ok(c) => Ok(Report(p, c))
  }

  /** `get_weather(location)` with the geocoding and forecast responses as inputs. */
  function GetWeather(location: string, geo: Fetch, forecast: Fetch): (r: Run<Result<WeatherReport, WeatherError>>)
    ensures 1 <= |r.requests| <= 2 && r.requests[0] == GeocodeUrl(location)
    ensures CheckedGet(geo).NetworkFailed? ==> r == Run(Err(GeocodingNetwork(geo.message)), [GeocodeUrl(location)])
    ensures CheckedGet(geo).StatusFailed? ==> r == Run(Err(GeocodingStatus(geo.status, geo.text)), [GeocodeUrl(location)])
    ensures CheckedGet(geo).OtherFailed? ==> r == Run(Err(GeocodingUnexpected(geo.body.error)), [GeocodeUrl(location)])
    ensures CheckedGet(geo).Data? && NoResults(CheckedGet(geo).fields) ==>
              r == Run(Err(NotFound(location)), [GeocodeUrl(location)])
    ensures CheckedGet(geo).Data? && !NoResults(CheckedGet(geo).fields) && ReadPlace(CheckedGet(geo).fields["results"]).Err? ==>
              r == Run(Err(GeocodingParse(FaultText(ReadPlace(CheckedGet(geo).fields["results"]).error))), [GeocodeUrl(location)])
    ensures |r.requests| == 2 <==>
              CheckedGet(geo).Data? && !NoResults(CheckedGet(geo).fields) && ReadPlace(CheckedGet(geo).fields["results"]).Ok?
    ensures |r.requests| == 2 ==>
              var p := ReadPlace(CheckedGet(geo).fields["results"]).value;
              r.requests[1] == ForecastUrl(p.lat, p.lon) && r.outcome == InterpretForecast(p, forecast)
  {
    var geoUrl := GeocodeUrl(location);
    match CheckedGet(geo)
    case NetworkFailed(message) => Run(Err(GeocodingNetwork(message)), [geoUrl])
    case StatusFailed(status, text) => Run(Err(GeocodingStatus(status, text)), [geoUrl])
    case OtherFailed(message) => Run(Err(GeocodingUnexpected(message)), [geoUrl])
    case Data(data) =>
      if NoResults(data) then Run(Err(NotFound(location)), [geoUrl])
      else
        match ReadPlace(data["results"])
        case Err(f) => Run(Err(GeocodingParse(FaultText(f))), [geoUrl])
        case Ok(p) => Run(InterpretForecast(p, forecast), [geoUrl, ForecastUrl(p.lat, p.lon)])
  }

  /** The lines of the report's triple-quoted f-string (lines 97-102). */
  function ReportLines(rep: WeatherReport): seq<string>
  {
    ["",
     "        - Location: " + rep.name + ", " + rep.country,
     "        - Coordinates: " + rep.lat + ", " + rep.lon,
     "        - Temperature: " + rep.temperature + "\U{B0}C",
     "        - Wind Speed: " + rep.windspeed + " km/h",
     "        "]
  }

  /**
   * The string `get_weather` returns. A report opens with the blank line of
   * its triple-quoted string; no error message does.
   */
  function Message(r: Result<WeatherReport, WeatherError>): (m: string)
    ensures |m| > 0 && (r.Ok? <==> m[0] == '\n')
  {
    match r
    case Ok(rep) => JoinLines(ReportLines(rep))
    case Err(GeocodingNetwork(detail)) => "Network error while fetching coordinates: " + detail
    case Err(GeocodingStatus(status, body)) => "Geocoding API returned an error: " + NatToString(status) + " " + body
    case Err(GeocodingUnexpected(detail)) => "Unexpected error during geocoding: " + detail
    case Err(NotFound(location)) => "Location '" + location + "' not found."
    case Err(GeocodingParse(detail)) => "Failed to parse geocoding response: " + detail
    case Err(ForecastNetwork(detail)) => "Network error while fetching weather: " + detail
    case Err(ForecastStatus(status, body)) => "Weather API returned an error: " + NatToString(status) + " " + body
    case Err(ForecastUnexpected(detail)) => "Unexpected error during weather fetch: " + detail
    case Err(NoCurrentWeather(name, country)) => "Weather data not available for '" + name + ", " + country + "'."
    case Err(ForecastParse(detail)) => "Failed to parse weather data: " + detail
  }

  predicate ReportTokensOneLine(rep: WeatherReport)
  {
    && '\n' !in rep.name && '\n' !in rep.country && '\n' !in rep.lat && '\n' !in rep.lon
    && '\n' !in rep.temperature && '\n' !in rep.windspeed
  }

  /**
   * Read line by line, a report shows the resolved name and country, the
   * coordinates, the temperature in degrees Celsius and the wind speed in
   * km/h, in that order.
   */
  lemma ReportText(rep: WeatherReport)
    requires ReportTokensOneLine(rep)
    ensures SplitLines(Message(Ok(rep))) ==
      ["",
       "        - Location: " + rep.name + ", " + rep.country,
       "        - Coordinates: " + rep.lat + ", " + rep.lon,
       "        - Temperature: " + rep.temperature + "\U{B0}C",
       "        - Wind Speed: " + rep.windspeed + " km/h",
       "        "]
  {
    SplitJoin(ReportLines(rep));
  }

  /**
   * "Not found" quotes the query string; "not available" quotes the resolved
   * name and country, separated by a comma and a space.
   */
  lemma MessagesQuotePlace(location: string, name: string, country: string)
    ensures var p := "Location '";
      var m := Message(Err(NotFound(location)));
      |m| >= |p| + |location| && m[|p|..|p| + |location|] == location
    ensures var p := "Weather data not available for '";
      var m := Message(Err(NoCurrentWeather(name, country)));
      && |m| >= |p| + |name| + 2 + |country|
      && m[|p|..|p| + |name|] == name
      && m[|p| + |name|..|p| + |name| + 2] == ", "
      && m[|p| + |name| + 2..|p| + |name| + 2 + |country|] == country
  {
    Infix("Location '", location, "' not found.");
    var p := "Weather data not available for '";
    var m := Message(Err(NoCurrentWeather(name, country)));
    assert m == p + name + (", " + country + "'.");
    Infix(p, name, ", " + country + "'.");
    assert m == (p + name) + ", " + (country + "'.");
    Infix(p + name, ", ", country + "'.");
    assert m == (p + name + ", ") + country + "'.";
    Infix(p + name + ", ", country, "'.");
  }

  /** The three ways each request can fail give three different messages. */
  lemma FetchFailuresDistinct(d1: string, status: nat, body: string, d2: string)
    ensures Message(Err(GeocodingNetwork(d1))) != Message(Err(GeocodingStatus(status, body)))
    ensures Message(Err(GeocodingNetwork(d1))) != Message(Err(GeocodingUnexpected(d2)))
    ensures Message(Err(GeocodingStatus(status, body))) != Message(Err(GeocodingUnexpected(d2)))
    ensures Message(Err(ForecastNetwork(d1))) != Message(Err(ForecastStatus(status, body)))
    ensures Message(Err(ForecastNetwork(d1))) != Message(Err(ForecastUnexpected(d2)))
    ensures Message(Err(ForecastStatus(status, body))) != Message(Err(ForecastUnexpected(d2)))
  {
    assert Message(Err(GeocodingNetwork(d1)))[0] == 'N';
    assert Message(Err(GeocodingStatus(status, body)))[0] == 'G';
    assert Message(Err(GeocodingUnexpected(d2)))[0] == 'U';
    assert Message(Err(ForecastNetwork(d1)))[0] == 'N';
    assert Message(Err(ForecastStatus(status, body)))[0] == 'W';
    assert Message(Err(ForecastUnexpected(d2)))[0] == 'U';
  }

  /** The forecast's status message carries the status code and the response text. */
  lemma StatusMessageCarriesCode(status: nat, body: string)
    ensures var m := Message(Err(ForecastStatus(status, body)));
      var prefix := "Weather API returned an error: ";
      var digits := NatToString(status);
      && m == prefix + digits + " " + body
      && DigitsValue(m[|prefix|..|prefix| + |digits|]) == status
      && m[|prefix| + |digits| + 1..] == body
  {
    var m := Message(Err(ForecastStatus(status, body)));
    var prefix := "Weather API returned an error: ";
    var digits := NatToString(status);
    assert m[|prefix|..|prefix| + |digits|] == digits;
    NatToStringValue(status);
  }
}
