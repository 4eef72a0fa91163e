/**
 * The guarded AQI tool of Air-Quality-Index_server.py: `get_coordinates`
 * (geocoding through Open-Meteo) and `get_aqi` (air pollution through
 * OpenWeatherMap). Every failure is caught and turned into a message; the
 * model keeps the failure as a tagged error and renders the message from it.
 */
module AirQuality {
  import opened Wrappers
  import opened Text
  import opened Json
  import opened Http

  const GeocodingApi := "https://geocoding-api.open-meteo.com/v1/search"
  const PollutionApi := "http://api.openweathermap.org/data/2.5/air_pollution"

  function GeocodeUrl(location: string): string
  {
    GeocodingApi + "?name=" + location + "&count=1"
  }

  function PollutionUrl(lat: Json, lon: Json, key: string): string
  {
    PollutionApi + "?lat=" + Show(lat) + "&lon=" + Show(lon) + "&appid=" + key
  }

  /** What `get_coordinates` returns: `(None, None, None)`, or the first result's three fields. */
  datatype Coordinates = NoMatch | Match(lat: Json, lon: Json, country: Json)

  /** The result extraction of `get_coordinates` on the decoded geocoding body. */
  function ExtractCoordinates(geo: map<string, Json>): (r: Result<Coordinates, Fault>)
    ensures r == Ok(NoMatch) <==> "results" !in geo || !Truthy(geo["results"])
    ensures "results" in geo && geo["results"].JArr? && geo["results"].items != [] ==>
              var first := geo["results"].items[0];
              && (r.Ok? <==> first.JObj? && "latitude" in first.fields
                             && "longitude" in first.fields && "country" in first.fields)
              && (r.Ok? ==> r.value == Match(first.fields["latitude"], first.fields["longitude"],
                                             first.fields["country"]))
    ensures r.Ok? && r.value.Match? ==> geo["results"].JArr?
  {
    if "results" !in geo || !Truthy(geo["results"]) then Ok(NoMatch)
    else
      var result :- First(geo["results"]);
      var lat :- Index(result, "latitude");
      var lon :- Index(result, "longitude");
      var country :- Index(result, "country");
      Ok(Match(lat, lon, country))
  }

  /** `get_coordinates`: the GET and `.json()` are unguarded, so their exceptions escape too. */
  function GetCoordinates(geo: Fetch): (r: Result<Coordinates, Exception>)
    ensures UncheckedGet(geo).Err? ==> r == Err(UncheckedGet(geo).error)
    ensures UncheckedGet(geo).Ok? ==>
              match ExtractCoordinates(UncheckedGet(geo).value)
              case Ok(c) => r == Ok(c)
              case Err(f) => r == Err(LookupFault(f))
  {
    var body :- UncheckedGet(geo);
    match ExtractCoordinates(body)
    case Ok(c) => Ok(c)
    case Err(f) => Err(LookupFault(f))
  }

  /** The AQI level table of OpenWeatherMap. */
  const Levels: map<int, string> := map[1 := "Good", 2 := "Fair", 3 := "Moderate", 4 := "Poor", 5 := "Very Poor"]

  /** The label of an integer key: its table entry, or "Unknown". */
  function LevelName(n: int): string
  {
    if n in Levels then Levels[n] else "Unknown"
  }

  /** `levels.get(aqi, 'Unknown')`. */
  function Level(aqi: Json): (r: Result<string, Fault>)
    ensures r.Err? <==> aqi.JArr? || aqi.JObj?
    ensures aqi.JInt? ==> r == Ok(LevelName(aqi.i))
  {
    var key :- HashKey(aqi);
    Ok(if key.Some? then LevelName(key.value) else "Unknown")
  }

  /** Ordinals 1 to 5 get the five labels in order, every other integer "Unknown". */
  lemma LevelTable(n: int)
    ensures Level(JInt(n)) == Ok("Good") <==> n == 1
    ensures Level(JInt(n)) == Ok("Fair") <==> n == 2
    ensures Level(JInt(n)) == Ok("Moderate") <==> n == 3
    ensures Level(JInt(n)) == Ok("Poor") <==> n == 4
    ensures Level(JInt(n)) == Ok("Very Poor") <==> n == 5
    ensures Level(JInt(n)) == Ok("Unknown") <==> n < 1 || n > 5
  {
  }

  /** A value equal to an integer, as Python compares keys, gets that integer's label. */
  lemma LevelOfEqualKeys(b: bool, shown: string, n: int)
    ensures Level(JBool(b)) == Level(JInt(if b then 1 else 0))
    ensures Level(JFloat(shown, Some(n))) == Level(JInt(n))
    ensures Level(JFloat(shown, None)) == Ok("Unknown")
    ensures Level(JStr(shown)) == Ok("Unknown") && Level(JNull) == Ok("Unknown")
  {
  }

  /** The component keys in report order, and the names the report prints for them. */
  const PollutantKeys: seq<string> := ["co", "no", "no2", "o3", "so2", "pm2_5", "pm10", "nh3"]
  const PollutantNames: seq<string> := ["CO", "NO", "NO2", "O3", "SO2", "PM2.5", "PM10", "NH3"]

  /** The `components.get(key, 'N/A')` of every key, rendered, in order. */
  function PollutantValues(components: Json, keys: seq<string>): (r: Result<seq<string>, Fault>)
    ensures keys != [] ==> (r.Ok? <==> components.JObj?)
    ensures r.Ok? ==> |r.value| == |keys|
    ensures r.Ok? ==> forall k :: 0 <= k < |keys| ==>
              r.value[k] == if keys[k] in components.fields then Show(components.fields[keys[k]]) else "N/A"
  {
    if keys == [] then Ok([])
    else
      var v :- GetOr(components, keys[0], JStr("N/A"));
      // once the first `.get` has succeeded, `components` is a dictionary and the others succeed too
      var rest := PollutantValues(components, keys[1..]);
      if rest.Err? then rest else Ok([Show(v)] + rest.value)
  }

  /** The fields of a successful report, as rendered into its text. */
  datatype AqiReport = AqiReport(
    location: string, country: string, lat: string, lon: string,
    aqi: string, level: string, pollutants: seq<string>)

  /**
   * The lookups of the `try` at lines 98-127, in the order Python evaluates
   * them: the entry's `main.aqi`, its `components`, the label, the eight values.
   */
  function ReadReport(location: string, lat: Json, lon: Json, country: Json, list: Json): (r: Result<AqiReport, Fault>)
    ensures r.Ok? ==> r.value.location == location && r.value.country == Show(country)
                      && r.value.lat == Show(lat) && r.value.lon == Show(lon)
                      && |r.value.pollutants| == 8
  {
    var entry :- First(list);
    var main :- Index(entry, "main");
    var aqi :- Index(main, "aqi");
    var components :- Index(entry, "components");
    var level :- Level(aqi);
    var values :- PollutantValues(components, PollutantKeys);
    Ok(AqiReport(location, Show(country), Show(lat), Show(lon), Show(aqi), level, values))
  }

  /**
   * A response entry without `main`, or whose `main` has no `aqi`, or without
   * `components`, fails with the KeyError of the first key missing, in the
   * order the lookups are made.
   */
  lemma MissingMainFails(location: string, lat: Json, lon: Json, country: Json, list: Json)
    requires list.JArr? && list.items != [] && list.items[0].JObj? && "main" !in list.items[0].fields
    ensures ReadReport(location, lat, lon, country, list) == Err(KeyError(Repr("main")))
  {
    assert First(list) == Ok(list.items[0]);
  }

  lemma MissingAqiFails(location: string, lat: Json, lon: Json, country: Json, list: Json)
    requires list.JArr? && list.items != [] && list.items[0].JObj? && "main" in list.items[0].fields
    requires var main := list.items[0].fields["main"];
      main.JObj? && "aqi" !in main.fields
    ensures ReadReport(location, lat, lon, country, list) == Err(KeyError(Repr("aqi")))
  {
    var entry := list.items[0];
    assert First(list) == Ok(entry);
    assert Index(entry, "main") == Ok(entry.fields["main"]);
  }

  lemma MissingComponentsFails(location: string, lat: Json, lon: Json, country: Json, list: Json)
    requires list.JArr? && list.items != [] && list.items[0].JObj? && "main" in list.items[0].fields
    requires Index(list.items[0].fields["main"], "aqi").Ok? && "components" !in list.items[0].fields
    ensures ReadReport(location, lat, lon, country, list) == Err(KeyError(Repr("components")))
  {
    var entry := list.items[0];
    assert First(list) == Ok(entry);
    assert Index(entry, "main") == Ok(entry.fields["main"]);
  }

  /** The failure classes of `get_aqi`, each with the context its message shows. */
  datatype AqiError =
    | MissingApiKey
    | GeocodingFailed(location: string, detail: string)
    | NoCoordinates(location: string)
    | NetworkFailure(detail: string)
    | StatusFailure(status: nat, body: string)
    | UnexpectedFailure(detail: string)
    | NoData(location: string)
    | ParseFailure(detail: string)

  /** `if not OPENWEATHERMAP_API_KEY` is false: the key is set and not empty. */
  predicate HasApiKey(apiKey: Option<string>)
  {
    apiKey.Some? && apiKey.value != ""
  }

  /** The geocoded coordinates an AQI request can be made with: both are there and not None. */
  predicate Usable(c: Coordinates)
  {
    c.Match? && !c.lat.JNull? && !c.lon.JNull?
  }

  /** Lines 83-127: the AQI request's outcome turned into a report or a failure. */
  function InterpretAirQuality(location: string, c: Coordinates, air: Fetch): (r: Result<AqiReport, AqiError>)
    requires c.Match?
    ensures CheckedGet(air).NetworkFailed? <==> r.Err? && r.error.NetworkFailure?
    ensures CheckedGet(air).StatusFailed? <==> r.Err? && r.error.StatusFailure?
    ensures CheckedGet(air).OtherFailed? <==> r.Err? && r.error.UnexpectedFailure?
    ensures r.Err? && r.error.StatusFailure? ==> r.error == StatusFailure(air.status, air.text)
    ensures r == Err(NoData(location)) <==>
              CheckedGet(air).Data? && ("list" !in CheckedGet(air).fields || !Truthy(CheckedGet(air).fields["list"]))
    ensures CheckedGet(air).Data? && "list" in CheckedGet(air).fields && Truthy(CheckedGet(air).fields["list"]) ==>
              match ReadReport(location, c.lat, c.lon, c.country, CheckedGet(air).fields["list"])
              case Ok(report) => r == Ok(report)
              case Err(f) => r == Err(ParseFailure(FaultText(f)))
  {
    match CheckedGet(air)
    case NetworkFailed(message) => Err(NetworkFailure(message))
    case StatusFailed(status, text) => Err(StatusFailure(status, text))
    case OtherFailed(message) => Err(UnexpectedFailure(message))
    case Data(data) =>
      if "list" !in data || !Truthy(data["list"]) then Err(NoData(location))
      else
        match ReadReport(location, c.lat, c.lon, c.country, data["list"])
        case Ok(report) => Ok(report)
        case Err(f) => Err(ParseFailure(FaultText(f)))
  }

  /**
   * `get_aqi(location)` with the key read at start-up, the geocoding response
   * and the air-pollution response as inputs.
   */
  function GetAqi(apiKey: Option<string>, location: string, geo: Fetch, air: Fetch): (r: Run<Result<AqiReport, AqiError>>)
    ensures r.outcome == Err(MissingApiKey) <==> !HasApiKey(apiKey)
    ensures r.requests == [] <==> !HasApiKey(apiKey)
    ensures HasApiKey(apiKey) ==> r.requests[0] == GeocodeUrl(location)
    ensures HasApiKey(apiKey) && GetCoordinates(geo).Err? ==>
              r == Run(Err(GeocodingFailed(location, ExceptionText(GetCoordinates(geo).error))), [GeocodeUrl(location)])
    ensures HasApiKey(apiKey) && GetCoordinates(geo).Ok? && !Usable(GetCoordinates(geo).value) ==>
              r == Run(Err(NoCoordinates(location)), [GeocodeUrl(location)])
    ensures |r.requests| == 2 <==> HasApiKey(apiKey) && GetCoordinates(geo).Ok? && Usable(GetCoordinates(geo).value)
    ensures |r.requests| <= 2
    ensures |r.requests| == 2 ==>
              var c := GetCoordinates(geo).value;
              r.requests[1] == PollutionUrl(c.lat, c.lon, apiKey.value)
              && r.outcome == InterpretAirQuality(location, c, air)
  {
    if !HasApiKey(apiKey) then Run(Err(MissingApiKey), [])
    else
      var geoUrl := GeocodeUrl(location);
      match GetCoordinates(geo)
      case Err(e) => Run(Err(GeocodingFailed(location, ExceptionText(e))), [geoUrl])
      case Ok(c) =>
        if !Usable(c) then Run(Err(NoCoordinates(location)), [geoUrl])
        else Run(InterpretAirQuality(location, c, air), [geoUrl, PollutionUrl(c.lat, c.lon, apiKey.value)])
  }

  /** The name-value lines of the pollutant block. */
  function PollutantLines(indent: string, names: seq<string>, values: seq<string>): (r: seq<string>)
    ensures |r| == if |names| < |values| then |names| else |values|
    ensures forall k :: 0 <= k < |r| ==> r[k] == indent + names[k] + ": " + values[k]
  {
    if names == [] || values == [] then []
    else [indent + names[0] + ": " + values[0]] + PollutantLines(indent, names[1..], values[1..])
  }

  /** The lines of the report's triple-quoted f-string (lines 111-125). */
  function ReportLines(rep: AqiReport): seq<string>
  {
    ReportHead(rep) + PollutantLines("     - ", PollutantNames, rep.pollutants) + ["     "]
  }

  /** The lines before the pollutant values. */
  function ReportHead(rep: AqiReport): seq<string>
  {
    ["",
     "    - Location: " + rep.location + ", " + rep.country,
     "    - Coordinates: " + rep.lat + ", " + rep.lon,
     "    - AQI Level: " + rep.aqi + " (" + rep.level + ")",
     "    ",
     "     Pollutants (\U{3BC}g/m3):"]
  }

  /**
   * The string `get_aqi` returns. A report opens with the blank line of its
   * triple-quoted string; no error message does, so the two are told apart by
   * their first character.
   */
  function Message(r: Result<AqiReport, AqiError>): (m: string)
    ensures |m| > 0 && (r.Ok? <==> m[0] == '\n')
  {
    match r
    case Ok(rep) => JoinLines(ReportLines(rep))
    case Err(MissingApiKey) => "AQI API key is missing. " + "Set the 'AQI_API_KEY' environment variable."
    case Err(GeocodingFailed(location, detail)) => "Failed to get coordinates for '" + location + "': " + detail
    case Err(NoCoordinates(location)) => "Unable to get coordinates for '" + location + "'."
    case Err(NetworkFailure(detail)) => "Network error while fetching AQI: " + detail
    case Err(StatusFailure(status, body)) => "API returned an error: " + NatToString(status) + " " + body
    case Err(UnexpectedFailure(detail)) => "Unexpected error while fetching AQI: " + detail
    case Err(NoData(location)) => "No AQI data found for '" + location + "'."
    case Err(ParseFailure(detail)) => "Failed to parse AQI response: " + detail
  }

  predicate ReportTokensOneLine(rep: AqiReport)
  {
    && '\n' !in rep.location && '\n' !in rep.country && '\n' !in rep.lat && '\n' !in rep.lon
    && '\n' !in rep.aqi && '\n' !in rep.level && NoNewlines(rep.pollutants)
  }

  /**
   * Read line by line, a report shows the query string with the country, the
   * coordinates, the AQI with its label, then each pollutant's value in order.
   */
  lemma ReportText(rep: AqiReport)
    requires |rep.pollutants| == 8 && ReportTokensOneLine(rep)
    ensures var lines := SplitLines(Message(Ok(rep)));
      && |lines| == 15
      && lines[1] == "    - Location: " + rep.location + ", " + rep.country
      && lines[2] == "    - Coordinates: " + rep.lat + ", " + rep.lon
      && lines[3] == "    - AQI Level: " + rep.aqi + " (" + rep.level + ")"
      && (forall k :: 0 <= k < 8 ==> lines[6 + k] == "     - " + PollutantNames[k] + ": " + rep.pollutants[k])
  {
    ReportLinesOneLine(rep);
    SplitJoin(ReportLines(rep));
  }

  /** No line of a report whose fields are single lines spans lines. */
  lemma ReportLinesOneLine(rep: AqiReport)
    requires |rep.pollutants| == 8 && ReportTokensOneLine(rep)
    ensures NoNewlines(ReportLines(rep))
  {
    var body := PollutantLines("     - ", PollutantNames, rep.pollutants);
    ReportHeadOneLine(rep);
    PollutantNamesOneLine();
    PollutantLinesOneLine("     - ", PollutantNames, rep.pollutants);
    NoNewlinesConcat(ReportHead(rep), body);
    NoNewlinesConcat(ReportHead(rep) + body, ["     "]);
  }

  lemma ReportHeadOneLine(rep: AqiReport)
    requires ReportTokensOneLine(rep)
    ensures NoNewlines(ReportHead(rep))
  {
  }

  lemma PollutantNamesOneLine()
    ensures NoNewlines(PollutantNames)
  {
  }

  /** The pollutant lines of single-line names and values are single lines. */
  lemma PollutantLinesOneLine(indent: string, names: seq<string>, values: seq<string>)
    requires '\n' !in indent && NoNewlines(names) && NoNewlines(values)
    ensures NoNewlines(PollutantLines(indent, names, values))
  {
    var r := PollutantLines(indent, names, values);
    forall k | 0 <= k < |r| ensures '\n' !in r[k] {
      assert r[k] == indent + names[k] + ": " + values[k];
    }
  }

  /**
   * The messages about a location quote the query string verbatim right
   * after their fixed prefix, and the geocoding failure ends with the
   * exception's text.
   */
  lemma MessagesQuoteLocation(location: string, detail: string)
    ensures var p := "Failed to get coordinates for '";
      var m := Message(Err(GeocodingFailed(location, detail)));
      |m| >= |p| + |location| && m[|p|..|p| + |location|] == location && m[|m| - |detail|..] == detail
    ensures var p := "Unable to get coordinates for '";
      var m := Message(Err(NoCoordinates(location)));
      |m| >= |p| + |location| && m[|p|..|p| + |location|] == location
    ensures var p := "No AQI data found for '";
      var m := Message(Err(NoData(location)));
      |m| >= |p| + |location| && m[|p|..|p| + |location|] == location
  {
    Infix("Failed to get coordinates for '", location, "': " + detail);
    Infix("Unable to get coordinates for '", location, "'.");
    Infix("No AQI data found for '", location, "'.");
    Infix("Failed to get coordinates for '" + location + "': ", detail, "");
  }

  /** The three ways the AQI request can fail give three different messages. */
  lemma FetchFailuresDistinct(d1: string, status: nat, body: string, d2: string)
    ensures Message(Err(NetworkFailure(d1))) != Message(Err(StatusFailure(status, body)))
    ensures Message(Err(NetworkFailure(d1))) != Message(Err(UnexpectedFailure(d2)))
    ensures Message(Err(StatusFailure(status, body))) != Message(Err(UnexpectedFailure(d2)))
  {
    assert Message(Err(NetworkFailure(d1)))[0] == 'N';
    assert Message(Err(StatusFailure(status, body)))[0] == 'A';
    assert Message(Err(UnexpectedFailure(d2)))[0] == 'U';
  }

  /**
   * The status message carries the status code and the response text: the
   * code reads back from the digits after the fixed prefix.
   */
  lemma StatusMessageCarriesCode(status: nat, body: string)
    ensures var m := Message(Err(StatusFailure(status, body)));
      var prefix := "API returned an error: ";
      var digits := NatToString(status);
      && m == prefix + digits + " " + body
      && DigitsValue(m[|prefix|..|prefix| + |digits|]) == status
      && m[|prefix| + |digits| + 1..] == body
  {
    var m := Message(Err(StatusFailure(status, body)));
    var prefix := "API returned an error: ";
    var digits := NatToString(status);
    assert m[|prefix|..|prefix| + |digits|] == digits;
    NatToStringValue(status);
  }

  /** The shape of a successful AQI response body's `list`: an entry with an integer `main.aqi` and a `components` object. */
  predicate WellFormedList(list: Json)
  {
    && list.JArr? && list.items != [] && list.items[0].JObj?
    && "main" in list.items[0].fields && "components" in list.items[0].fields
    && list.items[0].fields["main"].JObj? && "aqi" in list.items[0].fields["main"].fields
    && list.items[0].fields["main"].fields["aqi"].JInt?
    && list.items[0].fields["components"].JObj?
  }

  /** The ordinal of a well-formed `list`. */
  function Ordinal(list: Json): int
    requires WellFormedList(list)
  {
    list.items[0].fields["main"].fields["aqi"].i
  }

  /** The components object of a well-formed `list`. */
  function Components(list: Json): map<string, Json>
    requires WellFormedList(list)
  {
    list.items[0].fields["components"].fields
  }

  /**
   * The report read from a well-formed `list` labels the ordinal and shows each
   * pollutant's value, or "N/A" when that one key is absent.
   */
  lemma ReadWellFormed(location: string, lat: Json, lon: Json, country: Json, list: Json)
    requires WellFormedList(list)
    ensures var r := ReadReport(location, lat, lon, country, list);
      && r.Ok?
      && r.value.aqi == IntToString(Ordinal(list))
      && r.value.level == LevelName(Ordinal(list))
      && forall k :: 0 <= k < 8 ==>
           r.value.pollutants[k] == if PollutantKeys[k] in Components(list) then Show(Components(list)[PollutantKeys[k]]) else "N/A"
  {
    var entry := list.items[0];
    var components := entry.fields["components"];
    ReadSteps(location, lat, lon, country, list);
    var values := PollutantValues(components, PollutantKeys).value;
    assert forall k :: 0 <= k < 8 ==>
      values[k] == if PollutantKeys[k] in components.fields then Show(components.fields[PollutantKeys[k]]) else "N/A";
  }

  /** Every lookup of a well-formed `list` succeeds. */
  lemma ReadSteps(location: string, lat: Json, lon: Json, country: Json, list: Json)
    requires WellFormedList(list)
    ensures var entry := list.items[0];
      var aqi := entry.fields["main"].fields["aqi"];
      var components := entry.fields["components"];
      && PollutantValues(components, PollutantKeys).Ok? && Level(aqi).Ok?
      && ReadReport(location, lat, lon, country, list)
         == Ok(AqiReport(location, Show(country), Show(lat), Show(lon), Show(aqi), Level(aqi).value,
                         PollutantValues(components, PollutantKeys).value))
  {
    var entry := list.items[0];
    var main := entry.fields["main"];
    var aqi := main.fields["aqi"];
    var components := entry.fields["components"];
    assert First(list) == Ok(entry);
    assert Index(entry, "main") == Ok(main);
    assert Index(main, "aqi") == Ok(aqi);
    assert Index(entry, "components") == Ok(components);
    assert PollutantValues(components, PollutantKeys).Ok?;
  }

  /**
   * A successful AQI response: the report uses the query string and the
   * geocoded country, labels the ordinal, and shows each pollutant's value or
   * "N/A" on its own.
   */
  lemma SuccessfulReport(apiKey: Option<string>, location: string, geo: Fetch, air: Fetch)
    requires HasApiKey(apiKey) && GetCoordinates(geo).Ok? && Usable(GetCoordinates(geo).value)
    requires CheckedGet(air).Data? && "list" in CheckedGet(air).fields
    requires WellFormedList(CheckedGet(air).fields["list"])
    ensures var c := GetCoordinates(geo).value;
      var list := CheckedGet(air).fields["list"];
      var r := GetAqi(apiKey, location, geo, air).outcome;
      && r.Ok?
      && r.value.location == location && r.value.country == Show(c.country)
      && r.value.lat == Show(c.lat) && r.value.lon == Show(c.lon)
      && r.value.aqi == IntToString(Ordinal(list))
      && r.value.level == LevelName(Ordinal(list))
      && |r.value.pollutants| == 8
      && forall k :: 0 <= k < 8 ==>
           r.value.pollutants[k] == if PollutantKeys[k] in Components(list) then Show(Components(list)[PollutantKeys[k]]) else "N/A"
  {
    var c := GetCoordinates(geo).value;
    var list := CheckedGet(air).fields["list"];
    ReadWellFormed(location, c.lat, c.lon, c.country, list);
    assert GetAqi(apiKey, location, geo, air).outcome == Ok(ReadReport(location, c.lat, c.lon, c.country, list).value);
  }
}
