/**
 * The unguarded weather tool of weather_server.py. It makes the same two
 * requests and the same lookups as 1_weather_server.py, but checks no status
 * and catches nothing: a failed request, a body that is not JSON or a missing
 * key escapes as an exception. Its two messages carry a cross mark and its
 * report is four lines with no surrounding blank lines.
 */
module WeatherStrict {
  import opened Wrappers
  import opened Text
  import opened Json
  import opened Http
  import opened Weather

  /** The only failures this copy reports as a message instead of raising. */
  predicate Reportable(r: Result<WeatherReport, WeatherError>)
  {
    r.Ok? || r.error.NotFound? || r.error.NoCurrentWeather?
  }

  /** `get_weather(location)` of weather_server.py, with both responses as inputs. */
  function StrictGetWeather(location: string, geo: Fetch, forecast: Fetch): (r: Run<Reply<Result<WeatherReport, WeatherError>>>)
    ensures r.outcome.Returned? ==> Reportable(r.outcome.value)
    ensures 1 <= |r.requests| <= 2 && r.requests[0] == GeocodeUrl(location)
    ensures UncheckedGet(geo).Err? ==> r == Run(Raised(UncheckedGet(geo).error), [GeocodeUrl(location)])
    ensures UncheckedGet(geo).Ok? && NoResults(UncheckedGet(geo).value) ==>
              r == Run(Returned(Err(NotFound(location))), [GeocodeUrl(location)])
    ensures UncheckedGet(geo).Ok? && !NoResults(UncheckedGet(geo).value) && ReadPlace(UncheckedGet(geo).value["results"]).Err? ==>
              r == Run(Raised(LookupFault(ReadPlace(UncheckedGet(geo).value["results"]).error)), [GeocodeUrl(location)])
    ensures |r.requests| == 2 <==>
              UncheckedGet(geo).Ok? && !NoResults(UncheckedGet(geo).value) && ReadPlace(UncheckedGet(geo).value["results"]).Ok?
    ensures |r.requests| == 2 ==>
              var p := ReadPlace(UncheckedGet(geo).value["results"]).value;
              && r.requests[1] == ForecastUrl(p.lat, p.lon)
              && (UncheckedGet(forecast).Err? ==> r.outcome == Raised(UncheckedGet(forecast).error))
              && (UncheckedGet(forecast).Ok? && "current_weather" !in UncheckedGet(forecast).value ==>
                    r.outcome == Returned(Err(NoCurrentWeather(Show(p.name), Show(p.country)))))
              && (UncheckedGet(forecast).Ok? && "current_weather" in UncheckedGet(forecast).value ==>
                    match ReadCurrent(UncheckedGet(forecast).value["current_weather"])
                    case Ok(c) => r.outcome == Returned(Ok(Report(p, c)))
                    case Err(f) => r.outcome == Raised(LookupFault(f)))
  {
    var geoUrl := GeocodeUrl(location);
    match UncheckedGet(geo)
    case Err(e) => Run(Raised(e), [geoUrl])
    case Ok(data) =>
      if NoResults(data) then Run(Returned(Err(NotFound(location))), [geoUrl])
      else
        match ReadPlace(data["results"])
        case Err(f) => Run(Raised(LookupFault(f)), [geoUrl])
        case Ok(p) =>
          var requests := [geoUrl, ForecastUrl(p.lat, p.lon)];
          match UncheckedGet(forecast)
          case Err(e) => Run(Raised(e), requests)
          case Ok(weather) =>
            if "current_weather" !in weather then Run(Returned(Err(NoCurrentWeather(Show(p.name), Show(p.country)))), requests)
            else
              match ReadCurrent(weather["current_weather"])
              case Err(f) => Run(Raised(LookupFault(f)), requests)
              case Ok(c) => Run(Returned(Ok(Report(p, c))), requests)
  }

  /** The four lines of the report (lines 68-73), joined without a final newline. */
  function StrictReportLines(rep: WeatherReport): seq<string>
  {
    ["\U{1F4CD} Location: " + rep.name + ", " + rep.country,
     "\U{1F5FA}\U{FE0F} Coordinates: " + rep.lat + ", " + rep.lon,
     "\U{1F321}\U{FE0F} Temperature: " + rep.temperature + "\U{B0}C",
     "\U{1F4A8} Wind Speed: " + rep.windspeed + " km/h"]
  }

  /** The string this copy's `get_weather` returns when it returns at all. */
  function StrictMessage(r: Result<WeatherReport, WeatherError>): (m: string)
    requires Reportable(r)
    ensures |m| > 0 && m[0] == if r.Ok? then '\U{1F4CD}' else '\U{274C}'
  {
    match r
    case Ok(rep) => JoinLines(StrictReportLines(rep))
    case Err(NotFound(location)) => "\U{274C} Location '" + location + "' not found."
    case Err(NoCurrentWeather(name, country)) => "\U{274C} Weather data not available for '" + name + ", " + country + "'."
  }

  /** The two messages quote the query string, or the resolved name and country, after the cross mark and their prefix. */
  lemma StrictMessagesQuotePlace(location: string, name: string, country: string)
    ensures var p := "\U{274C} Location '";
      var m := StrictMessage(Err(NotFound(location)));
      |m| >= |p| + |location| && m[|p|..|p| + |location|] == location
    ensures var p := "\U{274C} Weather data not available for '";
      var m := StrictMessage(Err(NoCurrentWeather(name, country)));
      && |m| >= |p| + |name| + 2 + |country|
      && m[|p|..|p| + |name|] == name
      && m[|p| + |name| + 2..|p| + |name| + 2 + |country|] == country
  {
    Infix("\U{274C} Location '", location, "' not found.");
    var p := "\U{274C} Weather data not available for '";
    var m := StrictMessage(Err(NoCurrentWeather(name, country)));
    assert m == p + name + (", " + country + "'.");
    Infix(p, name, ", " + country + "'.");
    assert m == (p + name + ", ") + country + "'.";
    Infix(p + name + ", ", country, "'.");
  }

  /** The report is exactly four lines: Location, Coordinates, Temperature and Wind Speed. */
  lemma StrictReportText(rep: WeatherReport)
    requires ReportTokensOneLine(rep)
    ensures SplitLines(StrictMessage(Ok(rep))) ==
      ["\U{1F4CD} Location: " + rep.name + ", " + rep.country,
       "\U{1F5FA}\U{FE0F} Coordinates: " + rep.lat + ", " + rep.lon,
       "\U{1F321}\U{FE0F} Temperature: " + rep.temperature + "\U{B0}C",
       "\U{1F4A8} Wind Speed: " + rep.windspeed + " km/h"]
  {
    StrictReportLinesOneLine(rep);
    SplitJoin(StrictReportLines(rep));
  }

  /** No line of a report whose fields are single lines spans lines. */
  lemma StrictReportLinesOneLine(rep: WeatherReport)
    requires ReportTokensOneLine(rep)
    ensures NoNewlines(StrictReportLines(rep))
  {
  }

  /** The report ends with the wind speed's unit: there is no trailing newline. */
  lemma StrictReportEnd(rep: WeatherReport)
    ensures var m := StrictMessage(Ok(rep));
      |m| >= 5 && m[|m| - 5..] == " km/h"
  {
    var lines := StrictReportLines(rep);
    assert JoinLines(lines[3..]) == lines[3];
    assert JoinLines(lines[2..]) == lines[2] + "\n" + lines[3];
    assert JoinLines(lines[1..]) == lines[1] + "\n" + (lines[2] + "\n" + lines[3]);
    var head := lines[0] + "\n" + lines[1] + "\n" + lines[2] + "\n";
    assert JoinLines(lines) == head + lines[3];
    assert lines[3] == ("\U{1F4A8} Wind Speed: " + rep.windspeed) + " km/h";
  }

  /**
   * No status is checked: two responses with the same body lead to the same
   * outcome and the same requests whatever their status codes and texts.
   */
  lemma StatusIgnored(location: string, s1: nat, t1: string, s2: nat, t2: string, body: Body, forecast: Fetch)
    ensures StrictGetWeather(location, Answered(s1, t1, body), forecast) ==
            StrictGetWeather(location, Answered(s2, t2, body), forecast)
    ensures StrictGetWeather(location, forecast, Answered(s1, t1, body)) ==
            StrictGetWeather(location, forecast, Answered(s2, t2, body))
  {
  }

  /** A failure the guarded copy reports from one of its exception handlers. */
  predicate CaughtFailure(g: Result<WeatherReport, WeatherError>)
  {
    g.Err? && !g.error.NotFound? && !g.error.NoCurrentWeather?
  }

  /**
   * The guarded copy's requests are always a prefix of the strict copy's (it
   * stops after a geocoding error status, where the strict copy goes on). When
   * neither response has an error status, both copies make the same requests,
   * whatever the strict copy returns the guarded copy returns too, and the
   * strict copy raises exactly where the guarded copy reports a caught failure.
   */
  lemma StrictAgreesWithGuarded(location: string, geo: Fetch, forecast: Fetch)
    ensures GetWeather(location, geo, forecast).requests <= StrictGetWeather(location, geo, forecast).requests
    ensures (geo.NetworkError? || IsSuccess(geo.status)) && (forecast.NetworkError? || IsSuccess(forecast.status)) ==>
              var s := StrictGetWeather(location, geo, forecast);
              var g := GetWeather(location, geo, forecast);
              && s.requests == g.requests
              && (s.outcome.Returned? ==> g.outcome == s.outcome.value)
              && (s.outcome.Raised? <==> CaughtFailure(g.outcome))
  {
  }
}
