/**
 * The unguarded AQI tool of AQI_mcp_server.py. It shares `get_coordinates`
 * and the level table with Air-Quality-Index_server.py, but catches nothing:
 * a failed geocoding, a failed request, a body that is not JSON or a missing
 * key escapes as an exception. Its status is never checked, so an error
 * response is read as data.
 */
module AirQualityStrict {
  import opened Wrappers
  import opened Text
  import opened Json
  import opened Http
  import opened AirQuality

  /** `components[key]` of every key, rendered, in order: each key must be there. */
  function StrictPollutantValues(components: Json, keys: seq<string>): (r: Result<seq<string>, Fault>)
    ensures r.Ok? <==> keys == [] || (components.JObj? && forall k :: 0 <= k < |keys| ==> keys[k] in components.fields)
    ensures r.Ok? ==> |r.value| == |keys|
    ensures r.Ok? ==> forall k :: 0 <= k < |keys| ==> r.value[k] == Show(components.fields[keys[k]])
  {
    if keys == [] then Ok([])
    else
      var v :- Index(components, keys[0]);
      var rest :- StrictPollutantValues(components, keys[1..]);
      assert forall k :: 1 <= k < |keys| ==> keys[k] == keys[1..][k - 1];
      Ok([Show(v)] + rest)
  }

  /** Lines 82-107: the entry's `main.aqi`, its `components`, the label, the eight values. */
  function StrictReadReport(location: string, lat: Json, lon: Json, country: Json, list: Json): (r: Result<AqiReport, Fault>)
    ensures r.Ok? ==> r.value.location == location && r.value.country == Show(country)
                      && r.value.lat == Show(lat) && r.value.lon == Show(lon)
                      && |r.value.pollutants| == 8
  {
    var entry :- First(list);
    var main :- Index(entry, "main");
    var aqi :- Index(main, "aqi");
    var components :- Index(entry, "components");
    var level :- Level(aqi);
    var values :- StrictPollutantValues(components, PollutantKeys);
    Ok(AqiReport(location, Show(country), Show(lat), Show(lon), Show(aqi), level, values))
  }

  /** The only failures this copy reports as a message instead of raising. */
  predicate Reportable(r: Result<AqiReport, AqiError>)
  {
    r.Ok? || r.error.MissingApiKey? || r.error.NoCoordinates? || r.error.NoData?
  }

  /** `get_aqi(location)` of AQI_mcp_server.py, with the key and both responses as inputs. */
  function StrictGetAqi(apiKey: Option<string>, location: string, geo: Fetch, air: Fetch): (r: Run<Reply<Result<AqiReport, AqiError>>>)
    ensures r.outcome.Returned? ==> Reportable(r.outcome.value)
    ensures r.outcome == Returned(Err(MissingApiKey)) <==> !HasApiKey(apiKey)
    ensures r.requests == [] <==> !HasApiKey(apiKey)
    ensures HasApiKey(apiKey) && GetCoordinates(geo).Err? ==>
              r == Run(Raised(GetCoordinates(geo).error), [GeocodeUrl(location)])
    ensures HasApiKey(apiKey) && GetCoordinates(geo).Ok? && !Usable(GetCoordinates(geo).value) ==>
              r == Run(Returned(Err(NoCoordinates(location))), [GeocodeUrl(location)])
    ensures |r.requests| == 2 <==> HasApiKey(apiKey) && GetCoordinates(geo).Ok? && Usable(GetCoordinates(geo).value)
    ensures |r.requests| <= 2
    ensures |r.requests| == 2 ==>
              var c := GetCoordinates(geo).value;
              && r.requests == [GeocodeUrl(location), PollutionUrl(c.lat, c.lon, apiKey.value)]
              && (UncheckedGet(air).Err? ==> r.outcome == Raised(UncheckedGet(air).error))
              && (UncheckedGet(air).Ok? ==>
                    var data := UncheckedGet(air).value;
                    (r.outcome == Returned(Err(NoData(location))) <==> "list" !in data || !Truthy(data["list"])))
    ensures |r.requests| == 2 && UncheckedGet(air).Ok? && "list" in UncheckedGet(air).value
            && Truthy(UncheckedGet(air).value["list"]) ==>
              var c := GetCoordinates(geo).value;
              match StrictReadReport(location, c.lat, c.lon, c.country, UncheckedGet(air).value["list"])
              case Ok(report) => r.outcome == Returned(Ok(report))
              case Err(f) => r.outcome == Raised(LookupFault(f))
  {
    if !HasApiKey(apiKey) then Run(Returned(Err(MissingApiKey)), [])
    else
      var geoUrl := GeocodeUrl(location);
      match GetCoordinates(geo)
      case Err(e) => Run(Raised(e), [geoUrl])
      case Ok(c) =>
        if !Usable(c) then Run(Returned(Err(NoCoordinates(location))), [geoUrl])
        else
          var requests := [geoUrl, PollutionUrl(c.lat, c.lon, apiKey.value)];
          match UncheckedGet(air)
          case Err(e) => Run(Raised(e), requests)
          case Ok(data) =>
            if "list" !in data || !Truthy(data["list"]) then Run(Returned(Err(NoData(location))), requests)
            else
              match StrictReadReport(location, c.lat, c.lon, c.country, data["list"])
              case Ok(report) => Run(Returned(Ok(report)), requests)
              case Err(f) => Run(Raised(LookupFault(f)), requests)
  }

  /** The lines of the report's triple-quoted f-string (lines 94-108). */
  function StrictReportLines(rep: AqiReport): seq<string>
  {
    StrictReportHead(rep) + PollutantLines("- ", PollutantNames, rep.pollutants) + [""]
  }

  /** The lines before the pollutant values. */
  function StrictReportHead(rep: AqiReport): seq<string>
  {
    ["",
     "\U{1F4CD} Location: " + rep.location + ", " + rep.country,
     "\U{1F5FA}\U{FE0F} Coordinates: " + rep.lat + ", " + rep.lon,
     "\U{1F32B}\U{FE0F} AQI Level: " + rep.aqi + " (" + rep.level + ")",
     "",
     "Pollutants (\U{3BC}g/m3):"]
  }

  /** The string this copy's `get_aqi` returns when it returns at all. */
  function StrictMessage(r: Result<AqiReport, AqiError>): (m: string)
    requires Reportable(r)
    ensures |m| > 0 && (r.Ok? <==> m[0] == '\n') && (r.Err? <==> m[0] == '\U{274C}')
  {
    match r
    case Ok(rep) => JoinLines(StrictReportLines(rep))
    case Err(MissingApiKey) => "\U{274C} AQI API key is missing. " + "Set the 'AQI_API_KEY' environment variable."
    case Err(NoCoordinates(location)) => "\U{274C} Unable to get coordinates for '" + location + "'."
    case Err(NoData(location)) => "\U{274C} No AQI data found for '" + location + "'."
  }

  /** The two messages about a location quote the query string verbatim after the cross mark and their fixed prefix. */
  lemma StrictMessagesQuoteLocation(location: string)
    ensures var p := "\U{274C} Unable to get coordinates for '";
      var m := StrictMessage(Err(NoCoordinates(location)));
      |m| >= |p| + |location| && m[|p|..|p| + |location|] == location
    ensures var p := "\U{274C} No AQI data found for '";
      var m := StrictMessage(Err(NoData(location)));
      |m| >= |p| + |location| && m[|p|..|p| + |location|] == location
  {
    Infix("\U{274C} Unable to get coordinates for '", location, "'.");
    Infix("\U{274C} No AQI data found for '", location, "'.");
  }

  /** Read line by line, the report has the same fields in the same order as the guarded copy's. */
  lemma StrictReportText(rep: AqiReport)
    requires |rep.pollutants| == 8 && ReportTokensOneLine(rep)
    ensures var lines := SplitLines(StrictMessage(Ok(rep)));
      && |lines| == 15
      && lines[1] == "\U{1F4CD} Location: " + rep.location + ", " + rep.country
      && lines[2] == "\U{1F5FA}\U{FE0F} Coordinates: " + rep.lat + ", " + rep.lon
      && lines[3] == "\U{1F32B}\U{FE0F} AQI Level: " + rep.aqi + " (" + rep.level + ")"
      && (forall k :: 0 <= k < 8 ==> lines[6 + k] == "- " + PollutantNames[k] + ": " + rep.pollutants[k])
  {
    StrictReportLinesOneLine(rep);
    SplitJoin(StrictReportLines(rep));
  }

  /** No line of a report whose fields are single lines spans lines. */
  lemma StrictReportLinesOneLine(rep: AqiReport)
    requires |rep.pollutants| == 8 && ReportTokensOneLine(rep)
    ensures NoNewlines(StrictReportLines(rep))
  {
    var body := PollutantLines("- ", PollutantNames, rep.pollutants);
    StrictReportHeadOneLine(rep);
    PollutantNamesOneLine();
    PollutantLinesOneLine("- ", PollutantNames, rep.pollutants);
    NoNewlinesConcat(StrictReportHead(rep), body);
    NoNewlinesConcat(StrictReportHead(rep) + body, [""]);
  }

  lemma StrictReportHeadOneLine(rep: AqiReport)
    requires ReportTokensOneLine(rep)
    ensures NoNewlines(StrictReportHead(rep))
  {
  }

  /** Where the strict lookup of the components succeeds, the `.get` lookup gives the same values. */
  lemma {:induction false} ValuesAgree(components: Json, keys: seq<string>)
    ensures StrictPollutantValues(components, keys).Ok? ==>
              PollutantValues(components, keys) == StrictPollutantValues(components, keys)
    ensures PollutantValues(components, keys).Err? ==> StrictPollutantValues(components, keys).Err?
  {
    if keys != [] {
      ValuesAgree(components, keys[1..]);
    }
  }

  /**
   * Reading the same entry, the strict copy either yields the guarded copy's
   * report or fails; it fails where the guarded copy succeeds only when one of
   * the eight pollutant keys is absent.
   */
  lemma ReportsAgree(location: string, lat: Json, lon: Json, country: Json, list: Json)
    ensures var s := StrictReadReport(location, lat, lon, country, list);
      var g := ReadReport(location, lat, lon, country, list);
      && (s.Ok? ==> g == s)
      && (g.Err? ==> s.Err?)
      && (s.Err? && g.Ok? ==>
            var components := list.items[0].fields["components"];
            components.JObj? && exists k :: 0 <= k < 8 && PollutantKeys[k] !in components.fields)
  {
    var g := ReadReport(location, lat, lon, country, list);
    if g.Ok? {
      ReportsAgreeWhenGuardedReads(location, lat, lon, country, list);
    } else {
      ReportsAgreeWhenGuardedFails(location, lat, lon, country, list);
    }
  }

  /** The steps before the pollutant values, shared by both copies, succeed when the guarded read does. */
  lemma GuardedReadSteps(location: string, lat: Json, lon: Json, country: Json, list: Json)
    requires ReadReport(location, lat, lon, country, list).Ok?
    ensures list.JArr? && list.items != [] && list.items[0].JObj?
    ensures var entry := list.items[0];
      && "main" in entry.fields && "components" in entry.fields
      && Index(entry.fields["main"], "aqi").Ok?
      && Level(Index(entry.fields["main"], "aqi").value).Ok?
      && entry.fields["components"].JObj?
  {
  }

  /** Where the guarded read succeeds, the strict read agrees with it or lacks a pollutant key. */
  lemma ReportsAgreeWhenGuardedReads(location: string, lat: Json, lon: Json, country: Json, list: Json)
    requires ReadReport(location, lat, lon, country, list).Ok?
    ensures var s := StrictReadReport(location, lat, lon, country, list);
      var g := ReadReport(location, lat, lon, country, list);
      && (s.Ok? ==> g == s)
      && (s.Err? ==>
            var components := list.items[0].fields["components"];
            components.JObj? && exists k :: 0 <= k < 8 && PollutantKeys[k] !in components.fields)
  {
    GuardedReadSteps(location, lat, lon, country, list);
    var entry := list.items[0];
    var components := entry.fields["components"];
    var aqi := Index(entry.fields["main"], "aqi").value;
    ValuesAgree(components, PollutantKeys);
    var strict := StrictPollutantValues(components, PollutantKeys);
    assert StrictReadReport(location, lat, lon, country, list) ==
      if strict.Ok? then Ok(AqiReport(location, Show(country), Show(lat), Show(lon), Show(aqi), Level(aqi).value, strict.value))
      else Err(strict.error);
  }

  /** Where the guarded read fails, the strict read fails as well. */
  lemma ReportsAgreeWhenGuardedFails(location: string, lat: Json, lon: Json, country: Json, list: Json)
    requires ReadReport(location, lat, lon, country, list).Err?
    ensures StrictReadReport(location, lat, lon, country, list).Err?
  {
    match First(list)
    case Err(_) =>
    case Ok(entry) =>
      if entry.JObj? && "main" in entry.fields && "components" in entry.fields {
        ValuesAgree(entry.fields["components"], PollutantKeys);
      }
  }

  /**
   * Every one of the eight component keys is required: a well-formed entry
   * missing any of them fails to read, where the guarded copy shows "N/A".
   */
  lemma MissingPollutantFails(location: string, lat: Json, lon: Json, country: Json, list: Json, k: nat)
    requires WellFormedList(list) && k < 8 && PollutantKeys[k] !in Components(list)
    ensures StrictReadReport(location, lat, lon, country, list).Err?
    ensures ReadReport(location, lat, lon, country, list).Ok?
  {
    ReadSteps(location, lat, lon, country, list);
    var entry := list.items[0];
    var components := entry.fields["components"];
    assert StrictPollutantValues(components, PollutantKeys).Err?;
    assert First(list) == Ok(entry);
  }

  /** A failure the guarded copy reports from one of its exception handlers. */
  predicate CaughtFailure(g: Result<AqiReport, AqiError>)
  {
    g.Err? && (g.error.GeocodingFailed? || g.error.NetworkFailure? || g.error.UnexpectedFailure? || g.error.ParseFailure?)
  }

  /**
   * The two copies request the same URLs on every input. Unless the AQI
   * response has an error status (which only the guarded copy checks),
   * whatever the strict copy returns is exactly what the guarded copy returns,
   * and every failure the guarded copy reports through a caught exception
   * makes the strict copy raise.
   */
  lemma StrictAgreesWithGuarded(apiKey: Option<string>, location: string, geo: Fetch, air: Fetch)
    ensures StrictGetAqi(apiKey, location, geo, air).requests == GetAqi(apiKey, location, geo, air).requests
    ensures air.NetworkError? || IsSuccess(air.status) ==>
              var s := StrictGetAqi(apiKey, location, geo, air).outcome;
              var g := GetAqi(apiKey, location, geo, air).outcome;
              && (s.Returned? ==> g == s.value)
              && (CaughtFailure(g) ==> s.Raised?)
  {
    if HasApiKey(apiKey) && GetCoordinates(geo).Ok? && Usable(GetCoordinates(geo).value)
       && (air.NetworkError? || IsSuccess(air.status)) && UncheckedGet(air).Ok? {
      var c := GetCoordinates(geo).value;
      var data := UncheckedGet(air).value;
      if "list" in data && Truthy(data["list"]) {
        ReportsAgree(location, c.lat, c.lon, c.country, data["list"]);
      }
    }
  }
}
