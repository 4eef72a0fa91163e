# Weather and AQI assistant: a Dafny model

This project models the decision logic of the Weather_AQI_MCP tools and their
console client:

- four MCP tools:
  - `get_aqi`: the guarded copy and the strict copy;
  - `get_weather`: the guarded copy and the unguarded copy;
- the advice tool `safety_guidelines`;
- the client that calls them in turn.

Each tool is a pure function from what the outside world answered to what the
tool does. It takes:

- the API key read at start-up;
- the outcome of each HTTP request: a transport error, or a status code, a text and a decoded body;
- for the advice tool, the text-generation model, as a function from the prompt to its output.

It returns the tool's outcome together with the list of URLs it requested.
The outcome depends on the copy:

- **Guarded copies** (`Air-Quality-Index_server.py`, `1_weather_server.py`) catch
  every failure. The outcome is `Ok(report)` or a tagged error, and `Message`
  renders the exact string the tool returns.
- **Strict copies** (`AQI_mcp_server.py`, `weather_server.py`) catch nothing. The
  outcome is `Returned(...)` or `Raised(exception)`.

The modules are:

- **`Wrappers`**: `Option` and `Result`.
- **`Text`**: joining and splitting on newlines, Python's `str.strip`, lower-casing and decimal rendering.
- **`Json`**: decoded JSON values. It covers Python's `x[key]`, `x[0]`, `.get(key, default)`, truth value, hashing as a dictionary key and `str()`. Each lookup returns the exception Python would raise.
- **`Http`**: one GET request. "Unchecked" means `.json()` only; "checked" means `raise_for_status()` followed by `.json()`, inside the three handlers.
- **`AirQuality`** and **`AirQualityStrict`**: the two AQI servers.
- **`Weather`** and **`WeatherStrict`**: the two weather servers.
- **`Client`**: `AQIAgent`, `_extract_text` and the `main` loop. The loop is a method over the sequence of input lines and is proved against the `Session` function.
- **`Advisory`**: the generator fallback at import time, the prompt, and the output checks of `safety_guidelines`.

A generated text made only of white space strips to the empty string, so
`safety_guidelines` can return ''. `Advisory.AdviceIsStrippedText` states
exactly when that happens.

## Model

| member | source | states |
|---|---|---|
| Http.UncheckedGet | weather_server.py:39-41 | The body is returned exactly when the request was answered with a JSON object, whatever the status. A transport error raises `RequestError`, and a body that does not decode raises `DecodeError`. |
| Http.CheckedGet | Air-Quality-Index_server.py:83-93 | The network handler runs exactly on a transport error, and the status handler exactly on a non-2xx answer, with its code and text. Otherwise the outcome is that of `.json()` alone: the object, or the other handler with the decode error's text. |
| AirQuality.ExtractCoordinates | Air-Quality-Index_server.py:34-38 | `(None, None, None)` exactly when `results` is absent or falsy. Coordinates are found only when `results` is a list. For a list, it succeeds exactly when the first entry is an object with `latitude`, `longitude` and `country`, and it yields those three values. |
| AirQuality.GetCoordinates | Air-Quality-Index_server.py:29-38 | Transport and decode exceptions escape unchanged. A lookup fault (`KeyError`, `IndexError`, `TypeError` or `AttributeError`) escapes as `LookupFault`. Otherwise the result of the extraction is returned. The strict copy's `get_coordinates` is the same code and shares this member. |
| AirQuality.Level | Air-Quality-Index_server.py:103-114 | `levels.get(aqi, 'Unknown')` fails only for unhashable values (lists and dicts). An integer gets its table entry, or "Unknown". |
| AirQuality.LevelTable | Air-Quality-Index_server.py:103-114 | Ordinals 1-5 get Good, Fair, Moderate, Poor and Very Poor, each label for exactly one ordinal. Every other integer gets "Unknown". |
| AirQuality.LevelOfEqualKeys | Air-Quality-Index_server.py:114 | True and whole floats get the label of the integer they equal. Strings, None and non-whole floats get "Unknown". |
| AirQuality.PollutantValues | Air-Quality-Index_server.py:117-124 | It succeeds exactly when `components` is a dict. Each value is the key's value shown, or "N/A" when that one key is absent, in key order. |
| AirQuality.ReadReport | Air-Quality-Index_server.py:98-114 | A report it reads carries the query string, and the country and coordinates it was given, shown, plus eight pollutant values. |
| AirQuality.MissingMainFails | Air-Quality-Index_server.py:99 | An entry without `main` fails with `KeyError('main')`. |
| AirQuality.MissingAqiFails | Air-Quality-Index_server.py:99 | A `main` without `aqi` fails with `KeyError('aqi')`. |
| AirQuality.MissingComponentsFails | Air-Quality-Index_server.py:100 | An entry without `components` fails with `KeyError('components')`, once `main.aqi` has been found. |
| AirQuality.InterpretAirQuality | Air-Quality-Index_server.py:83-127 | Each of the three handlers (network, status, other) gives its own error class. The status error carries the code and the body text. An absent or falsy `list` gives exactly `NoData(location)`. Otherwise a read fault becomes `ParseFailure` with the fault's text, instead of being raised. |
| AirQuality.GetAqi | Air-Quality-Index_server.py:67-81 | A missing or empty key gives `MissingApiKey` and makes no request. A geocoding exception gives `GeocodingFailed` and unusable coordinates give `NoCoordinates`; in both cases only the geocode URL was requested. The AQI URL is requested exactly when usable coordinates were found, and it is built from them and the key. |
| AirQuality.ReadWellFormed | Air-Quality-Index_server.py:98-124 | An entry with an integer `main.aqi` and a `components` object always gives a report. The report labels the ordinal and shows each pollutant's value or "N/A" on its own. |
| AirQuality.ReadSteps | Air-Quality-Index_server.py:98-100 | Every lookup of such an entry succeeds, and the report is assembled from the values found. |
| AirQuality.SuccessfulReport | Air-Quality-Index_server.py:111-124 | On success, `get_aqi` reports the query string (not a resolved name) with the geocoded country, the coordinates, the ordinal with its label, and the eight pollutant values in order. |
| AirQuality.PollutantLines | Air-Quality-Index_server.py:117-124 | One line per pollutant, reading `name: value` with the given indentation. |
| AirQuality.ReportText | Air-Quality-Index_server.py:111-125 | When no field spans lines, the report has 15 lines: location and country, coordinates, AQI with its label, then the eight `name: value` lines in order. |
| AirQuality.ReportLinesOneLine | Air-Quality-Index_server.py:111-125 | If no field spans lines, no line of the report does. |
| AirQuality.Message | Air-Quality-Index_server.py:67-127 | Every returned string is non-empty. It starts with a newline exactly when it is the report, so no error message can be taken for a report. |
| AirQuality.MessagesQuoteLocation | Air-Quality-Index_server.py:73-96 | The three messages about a location quote the query string right after their fixed prefix; the geocoding message ends with the exception's text. |
| AirQuality.FetchFailuresDistinct | Air-Quality-Index_server.py:88-93 | The network, status and unexpected-failure messages differ from one another, whatever their details. |
| AirQuality.StatusMessageCarriesCode | Air-Quality-Index_server.py:90-91 | The status message is the fixed prefix, the code's digits, a space and the body text. Both the code and the body can be read back from it. |
| AirQualityStrict.StrictPollutantValues | AQI_mcp_server.py:100-107 | It succeeds exactly when every key is present in the `components` dict. Each value is then exactly that key's value shown. |
| AirQualityStrict.StrictReadReport | AQI_mcp_server.py:82-97 | A report it reads carries the query string, the country and coordinates shown, and eight values. |
| AirQualityStrict.StrictGetAqi | AQI_mcp_server.py:67-108 | It returns only the three messages or a report; everything else raises. A missing key returns `MissingApiKey` with no request. A geocoding exception is raised after the geocode request. Unusable coordinates return `NoCoordinates`. With two requests, a failed AQI request raises, a falsy `list` returns `NoData`, and a read fault raises as `LookupFault`. |
| AirQualityStrict.ValuesAgree | AQI_mcp_server.py:100-107 | Whenever strict indexing succeeds, the `.get` lookup gives the same values. Whenever `.get` fails, indexing fails too. |
| AirQualityStrict.ReportsAgree | AQI_mcp_server.py:82-107 | On the same entry, the strict read gives the guarded read's report or fails. It fails where the guarded read succeeds only when one of the eight pollutant keys is absent. |
| AirQualityStrict.MissingPollutantFails | AQI_mcp_server.py:100-107 | All eight component keys are required. A well-formed entry missing any one of them fails to read strictly, while the guarded copy still reads it. |
| AirQualityStrict.StrictMessage | AQI_mcp_server.py:67-108 | Every returned string is non-empty. The report starts with a newline and each of the three messages with the cross mark, so each kind can be told from its first character. |
| AirQualityStrict.StrictMessagesQuoteLocation | AQI_mcp_server.py:72-80 | The two messages about a location quote the query string right after the cross mark and their fixed prefix. |
| AirQualityStrict.StrictReportText | AQI_mcp_server.py:94-108 | When no field spans lines, the report has 15 lines, with the same fields in the same order as the guarded copy's. |
| AirQualityStrict.StrictAgreesWithGuarded | AQI_mcp_server.py:67-108 | Both copies request the same URLs on every input. Unless the AQI response has an error status, whatever the strict copy returns is what the guarded copy returns, and every failure the guarded copy catches makes the strict copy raise. |
| Weather.ReadPlace | 1_weather_server.py:58-63 | It succeeds only on a list. For a non-empty list, it succeeds exactly when the first result is an object with `latitude`, `longitude` and `name`. `country` defaults to "Unknown". |
| Weather.ReadCurrent | 1_weather_server.py:90-93 | It succeeds exactly when `current_weather` is a dict. `temperature` and `windspeed` each default to "N/A" on their own. |
| Weather.InterpretForecast | 1_weather_server.py:73-95 | Network, status and other failures each give their own error class, and the status error carries the code and the text. A missing `current_weather` gives exactly the error with the resolved name and country. A non-dict `current_weather` gives `ForecastParse`. A success gives the report of the place and the readings. |
| Weather.GetWeather | 1_weather_server.py:41-71 | The geocode URL is always requested first. Each geocoding failure class, a missing or falsy `results`, and a parse failure each end the tool after that one request. The forecast URL, built from the resolved coordinates, is requested exactly when a place was read. |
| Weather.ReportText | 1_weather_server.py:97-102 | When no field spans lines, the report shows, line by line, the resolved name and country, the coordinates, the temperature followed by "°C" and the wind speed followed by " km/h", in that order. |
| Weather.Message | 1_weather_server.py:43-102 | Every returned string is non-empty. It starts with a newline exactly when it is the report. |
| Weather.MessagesQuotePlace | 1_weather_server.py:56-88 | "Not found" quotes the query string after its prefix. "Not available" quotes the resolved name, then ", ", then the country. |
| Weather.FetchFailuresDistinct | 1_weather_server.py:43-85 | The three geocoding failure messages differ from one another, and so do the three forecast failure messages. |
| Weather.StatusMessageCarriesCode | 1_weather_server.py:80-83 | The forecast's status message carries the status code, which reads back from its digits, and the response text. |
| WeatherStrict.StrictGetWeather | weather_server.py:38-66 | It returns only a report or one of the two messages; everything else raises. The geocode URL is requested first. A missing or falsy `results` returns `NotFound` with no forecast request. A missing latitude, longitude or name raises after the one request. There is a forecast request exactly when a place was read. A failed forecast raises. A missing `current_weather` returns the message with the resolved name and country. A non-dict `current_weather` raises. |
| WeatherStrict.StrictMessage | weather_server.py:43-73 | Every returned string is non-empty. The report starts with the pin and each message with the cross mark. |
| WeatherStrict.StrictMessagesQuotePlace | weather_server.py:44-62 | "Not found" quotes the query string, and "not available" the resolved name and country, after the cross mark and their prefix. |
| WeatherStrict.StrictReportText | weather_server.py:68-73 | When no field spans lines, the report is exactly four lines: Location, Coordinates, Temperature, Wind Speed. |
| WeatherStrict.StrictReportEnd | weather_server.py:68-73 | The report ends with " km/h", so there is no trailing newline. |
| WeatherStrict.StatusIgnored | weather_server.py:39-59 | Responses with the same body lead to the same outcome and the same requests, whatever their status codes. |
| WeatherStrict.StrictAgreesWithGuarded | weather_server.py:38-73 | The guarded copy's requests are a prefix of the strict copy's. With no error status, both make the same requests, a returned value is the guarded copy's outcome, and the strict copy raises exactly where the guarded copy reports a caught failure. |
| Client.Endpoint | AQI_LLM_client.py:14-25 | Each endpoint is the stored base URL followed by exactly "/sse". |
| Client.LocalEndpoints | AQI_LLM_client.py:38 | The client reaches the weather server at port 8000, the AQI server at 8003 and the advice server at 8004, each at "/sse" on localhost. |
| Client.TextsOf | AQI_LLM_client.py:32 | A string is among the texts exactly when some block carries it, and there are no more texts than blocks. |
| Client.TextsOfAppend | AQI_LLM_client.py:32 | The filter keeps the blocks' order: the texts of two lists in a row are the texts of the first followed by those of the second. |
| Client.ExtractText | AQI_LLM_client.py:29-35 | A list gives the texts of its text blocks joined by newlines. A single result gives its `text` if it has one, otherwise its `str()`. |
| Client.ExtractTextOne | AQI_LLM_client.py:31-32 | A list with one text block gives exactly that block's text, even a multi-line report. |
| Client.ExtractTextNone | AQI_LLM_client.py:31-32 | A list with no text block gives the empty string. |
| Client.ExtractTextAppend | AQI_LLM_client.py:31-32 | For two lists in a row, each with some text, the extracted text is the first list's, a newline, then the second's, whatever the texts contain. |
| Client.ExtractTextLines | AQI_LLM_client.py:31-32 | When no block text spans lines, splitting the text extracted from a list at newlines gives back exactly the texts of the blocks that have one, in order. |
| Client.WeatherReportOf | AQI_LLM_client.py:50 | A list gives only its first block's `text`, and it fails when the list is empty or that block has no text. Anything else gives its `str()`. |
| Client.ExitWords | AQI_LLM_client.py:41-42 | A line is an exit exactly when, stripped, it is "exit" in any mix of upper and lower case. |
| Client.RunAssistant | AQI_LLM_client.py:40-60 | The loop over the input lines produces exactly the session trace. |
| Client.StopsAtFirstExit | AQI_LLM_client.py:41-44 | Each line before the first exit gets one iteration, in order. Then the goodbye is shown, and nothing after the exit line has any effect. |
| Client.ExitShownIffExit | AQI_LLM_client.py:42-44 | The goodbye is shown exactly when some line is an exit, and it is then the last event. |
| Client.StepOrder | AQI_LLM_client.py:49-57 | Each iteration calls weather, then AQI, then guidelines, at each server's SSE endpoint. The guidelines call receives the weather and AQI reports obtained in the same iteration. |
| Client.StepShape | AQI_LLM_client.py:46-60 | An iteration starts with the fetch announcement and ends with the advice or with the first error. |
| Client.EveryLineHandled | AQI_LLM_client.py:47-60 | An error never ends the loop: with no exit line, every line gets its own iteration. |
| Advisory.InitGenerator | LLM_inference_server.py:7-16 | A failed load leaves no model and prints one notice instead of stopping. A successful load keeps the model and prints nothing. |
| Advisory.FallbackWithoutModel | LLM_inference_server.py:14-37 | After a failed load, every call returns the fixed "could not be initialized" notice without generating. |
| Advisory.PromptParts | LLM_inference_server.py:39-53 | The prompt embeds the weather report and then the AQI report verbatim, each after its heading, and ends with the fixed four-item instruction list. Both reports read back from their places. |
| Advisory.SafetyGuidelines | LLM_inference_server.py:36-68 | With no model, it returns the fixed notice and gives no prompt. Otherwise the model gets exactly the one prompt. A model exception gives "Model pipeline error: " and its text. Empty output, or a first item without `generated_text`, gives the fixed notice. Otherwise the result is the first item's text, stripped. |
| Advisory.AdviceIsStrippedText | LLM_inference_server.py:64-65 | White space padding on either side of the generated text makes no difference. The advice is empty exactly when the text is all white space. |
| Text.Strip | LLM_inference_server.py:65 | The result starts and ends with non-white-space, and it is empty exactly when the input is all white space. |
| Text.StripCore | LLM_inference_server.py:65 | The result is a contiguous piece of the input, and everything the input has before and after that piece is white space. With the contract of `Text.Strip`, this fixes the result to be the input without its leading and trailing white space. |

## Left out

- HTTP transport, timeouts, `raise_for_status` internals, FastMCP setup, tool registration and `mcp.run`. Each request is an input outcome, and each MCP tool call in the client is a function of the endpoint and the call.
- `async`/`await`. Every tool and the client loop run their steps one after another, so they are modelled as sequential code.
- `load_dotenv`/`os.getenv`. The AQI key is an `Option<string>` parameter.
- The transformers `pipeline` and its sampling. The model is a function from the prompt to its items or its exception text, and `generated_text` is taken to be a string.
- The second `except Exception` in `safety_guidelines` can never run, because the first one catches every exception. It is not modelled.
- Json.Show: Python's float formatting is not modelled. A float keeps the text `str()` prints for it as an opaque token; lists and dicts are shown abbreviated.
- Http.Body: a decoded top-level body that is not a JSON object (a list, a number) is not modelled; the code is written for an object body.
- Json.Index: Python's TypeError and AttributeError texts follow Python 3.11 wording, and KeyError texts assume keys without quotes or backslashes.
- Text.Lower: only ASCII letters are lower-cased. Any other character that lower-cases to an ASCII letter (the Kelvin sign lowers to "k") cannot make "exit", so the exit rule is unaffected.
- Client.RunAssistant: the console texts and the input prompt are not modelled. The trace records which event was shown and with what value. End of input stands for the end of the loop.
- AQI_mcp_LLM_server.py is not part of this model.
