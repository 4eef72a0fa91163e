/**
 * The console client of AQI_LLM_client.py. An agent holds the base URLs of
 * the weather, AQI and advice servers; for each line the user types it asks
 * for the weather, then the AQI report, then advice built from both, and it
 * stops when the line says "exit". The MCP servers are a function from an
 * endpoint and a tool call to the call's outcome; the console is the
 * sequence of input lines and the trace of what is shown.
 */
module Client {
  import opened Wrappers
  import opened Text

  /** `AQIAgent`: the three base URLs, set once by `__init__`. */
  datatype Agent = Agent(weatherUrl: string, aqiServerUrl: string, llmServerUrl: string)

  /** The agent the client runs with (line 38). */
  const LocalAgent := Agent("http://localhost:8000", "http://localhost:8003", "http://localhost:8004")

  /** The SSE endpoint of a server: its base URL followed by "/sse". */
  function Endpoint(base: string): (r: string)
    ensures |r| == |base| + 4 && r[..|base|] == base && r[|base|..] == "/sse"
  {
    base + "/sse"
  }

  /** The client reaches the weather server on port 8000, the AQI server on 8003 and the advice server on 8004. */
  lemma LocalEndpoints()
    ensures Endpoint(LocalAgent.weatherUrl) == "http://localhost:8000/sse"
    ensures Endpoint(LocalAgent.aqiServerUrl) == "http://localhost:8003/sse"
    ensures Endpoint(LocalAgent.llmServerUrl) == "http://localhost:8004/sse"
  { }

  /** A tool call with its arguments. */
  datatype ToolCall =
    | GetWeather(location: string)
    | GetAqi(location: string)
    | SafetyGuidelines(weatherReport: string, aqiReport: string)

  /** One content block of a tool result: its `text`, if it has that attribute, and its type's name. */
  datatype Block = Block(text: Option<string>, kind: string)

  /** What `call_tool` returns: a list of blocks, or a single object with its `text` (if any) and its `str()`. */
  datatype ToolResult = Blocks(blocks: seq<Block>) | Single(text: Option<string>, shown: string)

  /** A tool call either returns a result or raises an exception with this text. */
  datatype Outcome = Replied(result: ToolResult) | CallFailed(message: string)

  /** Every server the client can reach: the outcome of each tool call at each endpoint. */
  type Servers = (string, ToolCall) -> Outcome

  /** The texts of exactly those blocks that carry one, in order. */
  function TextsOf(blocks: seq<Block>): (r: seq<string>)
    ensures |r| <= |blocks|
    ensures forall t :: t in r <==> exists k :: 0 <= k < |blocks| && blocks[k].text == Some(t)
  {
    if blocks == [] then []
    else
      var rest := TextsOf(blocks[1..]);
      assert forall k :: 1 <= k < |blocks| ==> blocks[k] == blocks[1..][k - 1];
      if blocks[0].text.Some? then [blocks[0].text.value] + rest else rest
  }

  /** Filtering the blocks of a concatenation filters each part. */
  lemma {:induction false} TextsOfAppend(a: seq<Block>, b: seq<Block>)
    ensures TextsOf(a + b) == TextsOf(a) + TextsOf(b)
  {
    if a == [] {
      assert a + b == b;
    } else {
      assert (a + b)[0] == a[0] && (a + b)[1..] == a[1..] + b;
      TextsOfAppend(a[1..], b);
    }
  }

  /** `_extract_text`: the texts of a list joined by newlines, else the `text`, else `str()`. */
  function ExtractText(result: ToolResult): (r: string)
    ensures result.Single? && result.text.Some? ==> r == result.text.value
    ensures result.Single? && result.text.None? ==> r == result.shown
    ensures result.Blocks? ==> r == JoinLines(TextsOf(result.blocks))
  {
    match result
    case Blocks(blocks) => JoinLines(TextsOf(blocks))
    case Single(text, shown) => if text.Some? then text.value else shown
  }

  /** A list with one text block gives that text exactly, whatever it contains. */
  lemma ExtractTextOne(t: string, kind: string)
    ensures ExtractText(Blocks([Block(Some(t), kind)])) == t
  {
    assert [Block(Some(t), kind)][1..] == [];
  }

  /** A list without any text block gives the empty string. */
  lemma {:induction false} ExtractTextNone(blocks: seq<Block>)
    requires forall k :: 0 <= k < |blocks| ==> blocks[k].text.None?
    ensures ExtractText(Blocks(blocks)) == ""
  {
    if blocks != [] {
      assert forall k :: 1 <= k < |blocks| ==> blocks[k] == blocks[1..][k - 1];
      ExtractTextNone(blocks[1..]);
    }
  }

  /**
   * The texts of two lists in a row, each with some text, are extracted as the
   * first list's text, a newline and the second's, whatever the texts contain.
   */
  lemma ExtractTextAppend(a: seq<Block>, b: seq<Block>)
    requires TextsOf(a) != [] && TextsOf(b) != []
    ensures ExtractText(Blocks(a + b)) == ExtractText(Blocks(a)) + "\n" + ExtractText(Blocks(b))
  {
    TextsOfAppend(a, b);
    JoinLinesAppend(TextsOf(a), TextsOf(b));
  }

  /**
   * When at least one block has a text and no text spans lines, splitting the
   * extracted text at newlines gives back exactly the blocks' texts, in order.
   */
  lemma ExtractTextLines(blocks: seq<Block>)
    requires TextsOf(blocks) != []
    requires forall k :: 0 <= k < |blocks| && blocks[k].text.Some? ==> '\n' !in blocks[k].text.value
    ensures SplitLines(ExtractText(Blocks(blocks))) == TextsOf(blocks)
  {
    var texts := TextsOf(blocks);
    assert NoNewlines(texts) by {
      forall j | 0 <= j < |texts| ensures '\n' !in texts[j] {
        assert texts[j] in texts;
      }
    }
    SplitJoin(texts);
  }

  /**
   * The weather report the client keeps (line 50): the first block's `text` of
   * a list, `str()` of anything else. An empty list or a first block without
   * text raises.
   */
  function WeatherReportOf(raw: ToolResult): (r: Result<string, string>)
    ensures raw.Blocks? ==> (r.Ok? <==> raw.blocks != [] && raw.blocks[0].text.Some?)
    ensures raw.Blocks? && r.Ok? ==> r.value == raw.blocks[0].text.value
    ensures raw.Single? ==> r == Ok(raw.shown)
  {
    match raw
    case Blocks(blocks) =>
      if blocks == [] then Err("list index out of range")
      else if blocks[0].text.None? then Err("'" + blocks[0].kind + "' object has no attribute 'text'")
      else Ok(blocks[0].text.value)
    case Single(_, shown) => Ok(shown)
  }

  /** What the console shows, and the tool calls made, in order. */
  datatype Event =
    | Exiting
    | Fetching
    | Invoked(endpoint: string, call: ToolCall)
    | ShowWeather(report: string)
    | ShowAqi(location: string, report: string)
    | GettingAdvice
    | ShowAdvice(advice: string)
    | ShowError(message: string)

  /** The loop stops on a line that, stripped and lower-cased, reads "exit". */
  predicate IsExit(line: string)
  {
    Lower(Strip(line)) == "exit"
  }

  /** The exit words are the sixteen spellings of "exit" in any mix of cases, padded with any white space. */
  lemma ExitWords(line: string)
    ensures IsExit(line) <==>
      var w := Strip(line);
      |w| == 4 && w[0] in "eE" && w[1] in "xX" && w[2] in "iI" && w[3] in "tT"
  {
    var w := Strip(line);
    if |w| == 4 {
      assert Lower(w) == [LowerChar(w[0]), LowerChar(w[1]), LowerChar(w[2]), LowerChar(w[3])];
    }
  }

  /** The advice stage (lines 56-58): the guidelines tool gets both reports of this iteration. */
  function AdviceStage(agent: Agent, servers: Servers, weather: string, aqi: string): seq<Event>
  {
    var url := Endpoint(agent.llmServerUrl);
    var call := SafetyGuidelines(weather, aqi);
    [GettingAdvice, Invoked(url, call)]
    + match servers(url, call)
      case CallFailed(message) => [ShowError(message)]
      case Replied(result) => [ShowAdvice(ExtractText(result))]
  }

  /** The AQI stage (lines 53-54): the report is the extracted text of the result. */
  function AqiStage(agent: Agent, servers: Servers, location: string, weather: string): seq<Event>
  {
    var url := Endpoint(agent.aqiServerUrl);
    var call := GetAqi(location);
    [Invoked(url, call)]
    + match servers(url, call)
      case CallFailed(message) => [ShowError(message)]
      case Replied(result) =>
        var aqi := ExtractText(result);
        [ShowAqi(location, aqi)] + AdviceStage(agent, servers, weather, aqi)
  }

  /**
   * One iteration for a line that is not an exit (lines 46-60): the weather,
   * AQI and advice stages in order, and the first failure shown in place of
   * the rest.
   */
  function Step(agent: Agent, servers: Servers, location: string): seq<Event>
  {
    var url := Endpoint(agent.weatherUrl);
    var call := GetWeather(location);
    [Fetching, Invoked(url, call)]
    + match servers(url, call)
      case CallFailed(message) => [ShowError(message)]
      case Replied(raw) =>
        match WeatherReportOf(raw)
        case Err(message) => [ShowError(message)]
        case Ok(weather) => [ShowWeather(weather)] + AqiStage(agent, servers, location, weather)
  }

  /** The whole exchange for a sequence of input lines (lines 40-60). */
  function Session(agent: Agent, servers: Servers, lines: seq<string>): seq<Event>
  {
    if lines == [] then []
    else if IsExit(lines[0]) then [Exiting]
    else Step(agent, servers, Strip(lines[0])) + Session(agent, servers, lines[1..])
  }

  /** `main`'s loop over the lines the user types, stopping at the first exit. */
  method RunAssistant(agent: Agent, servers: Servers, lines: seq<string>) returns (events: seq<Event>)
    ensures events == Session(agent, servers, lines)
  {
    events := [];
    var i := 0;
    while i < |lines|
      invariant 0 <= i <= |lines|
      invariant events + Session(agent, servers, lines[i..]) == Session(agent, servers, lines)
    {
      var location := Strip(lines[i]);
      if Lower(location) == "exit" {
        events := events + [Exiting];
        break;
      }
      events := events + Step(agent, servers, location);
      i := i + 1;
      assert lines[i - 1..][1..] == lines[i..];
    }
  }

  /** The tool calls among the events, in order. */
  function Calls(events: seq<Event>): (r: seq<(string, ToolCall)>)
    ensures |r| <= |events|
  {
    if events == [] then []
    else
      var rest := Calls(events[1..]);
      if events[0].Invoked? then [(events[0].endpoint, events[0].call)] + rest else rest
  }

  /** Whether an iteration ends with advice or with an error; neither comes earlier. */
  predicate Concluding(e: Event)
  {
    e.ShowAdvice? || e.ShowError?
  }

  /** Events that may only come at the end of an iteration, or start one. */
  predicate Inner(events: seq<Event>)
  {
    forall k :: 0 <= k < |events| ==> !Concluding(events[k]) && events[k] != Fetching && events[k] != Exiting
  }

  lemma CallsCons(e: Event, rest: seq<Event>)
    ensures Calls([e] + rest) == (if e.Invoked? then [(e.endpoint, e.call)] else []) + Calls(rest)
  {
    assert ([e] + rest)[0] == e && ([e] + rest)[1..] == rest;
  }

  /** The advice stage announces itself, calls the guidelines tool once and ends the iteration. */
  lemma AdviceOrder(agent: Agent, servers: Servers, weather: string, aqi: string)
    ensures var events := AdviceStage(agent, servers, weather, aqi);
      && |events| == 3 && Inner(events[..2]) && Concluding(events[2])
      && Calls(events) == [(Endpoint(agent.llmServerUrl), SafetyGuidelines(weather, aqi))]
  {
    var url := Endpoint(agent.llmServerUrl);
    var call := SafetyGuidelines(weather, aqi);
    var events := AdviceStage(agent, servers, weather, aqi);
    var last := events[2];
    assert events == [GettingAdvice] + ([Invoked(url, call)] + ([last] + []));
    assert Calls([]) == [];
    CallsCons(last, []);
    CallsCons(Invoked(url, call), [last]);
    CallsCons(GettingAdvice, [Invoked(url, call), last]);
  }

  /**
   * The AQI stage calls the AQI tool, then, if that returns, shows the report
   * and passes it, with the weather report it was given, to the advice stage.
   */
  lemma AqiOrder(agent: Agent, servers: Servers, location: string, weather: string)
    ensures var events := AqiStage(agent, servers, location, weather);
      var calls := Calls(events);
      && |events| >= 2 && Inner(events[..|events| - 1]) && Concluding(events[|events| - 1])
      && 1 <= |calls| <= 2
      && calls[0] == (Endpoint(agent.aqiServerUrl), GetAqi(location))
      && (|calls| == 2 ==>
            && calls[1].0 == Endpoint(agent.llmServerUrl)
            && calls[1].1.SafetyGuidelines?
            && calls[1].1.weatherReport == weather
            && ShowAqi(location, calls[1].1.aqiReport) in events)
  {
    var url := Endpoint(agent.aqiServerUrl);
    var call := GetAqi(location);
    var events := AqiStage(agent, servers, location, weather);
    match servers(url, call)
    case CallFailed(message) =>
      assert events == [Invoked(url, call)] + ([ShowError(message)] + []);
      assert Calls([]) == [];
      CallsCons(ShowError(message), []);
      CallsCons(Invoked(url, call), [ShowError(message)]);
    case Replied(result) =>
      var aqi := ExtractText(result);
      var advice := AdviceStage(agent, servers, weather, aqi);
      assert events == [Invoked(url, call)] + ([ShowAqi(location, aqi)] + advice);
      AdviceOrder(agent, servers, weather, aqi);
      CallsCons(ShowAqi(location, aqi), advice);
      CallsCons(Invoked(url, call), [ShowAqi(location, aqi)] + advice);
      assert events[..|events| - 1] == [Invoked(url, call), ShowAqi(location, aqi)] + advice[..2];
  }

  /**
   * Each iteration starts by announcing the fetch and ends with the advice or
   * with the first error; nothing in between ends it, announces another fetch
   * or exits the loop.
   */
  lemma StepShape(agent: Agent, servers: Servers, location: string)
    ensures var events := Step(agent, servers, location);
      && |events| >= 3
      && events[0] == Fetching
      && Inner(events[1..|events| - 1])
      && Concluding(events[|events| - 1])
  {
    var url := Endpoint(agent.weatherUrl);
    var call := GetWeather(location);
    var events := Step(agent, servers, location);
    match servers(url, call)
    case CallFailed(message) =>
    case Replied(raw) =>
      match WeatherReportOf(raw)
      case Err(message) =>
      case Ok(weather) =>
        var aqiEvents := AqiStage(agent, servers, location, weather);
        AqiOrder(agent, servers, location, weather);
        assert events == [Fetching, Invoked(url, call), ShowWeather(weather)] + aqiEvents;
        assert events[1..|events| - 1] == [Invoked(url, call), ShowWeather(weather)] + aqiEvents[..|aqiEvents| - 1];
  }

  /** An iteration never shows the goodbye, and announces no second fetch. */
  lemma StepNeverExits(agent: Agent, servers: Servers, location: string)
    ensures var events := Step(agent, servers, location);
      Exiting !in events && Fetching !in events[1..]
  {
    var events := Step(agent, servers, location);
    StepShape(agent, servers, location);
    var middle := events[1..|events| - 1];
    assert events[1..] == middle + [events[|events| - 1]];
    assert events == [events[0]] + events[1..];
    assert Exiting !in middle && Fetching !in middle by {
      forall k | 0 <= k < |middle| ensures middle[k] != Exiting && middle[k] != Fetching { }
    }
  }

  /**
   * Each iteration calls the weather tool, then (if that worked) the AQI tool,
   * then (if that worked) the guidelines tool with the weather and AQI reports
   * shown in this same iteration, each at its server's SSE endpoint.
   */
  lemma StepOrder(agent: Agent, servers: Servers, location: string)
    ensures var events := Step(agent, servers, location);
      var calls := Calls(events);
      && 1 <= |calls| <= 3
      && calls[0] == (Endpoint(agent.weatherUrl), GetWeather(location))
      && (|calls| >= 2 ==> calls[1] == (Endpoint(agent.aqiServerUrl), GetAqi(location)))
      && (|calls| == 3 ==>
            && calls[2].0 == Endpoint(agent.llmServerUrl)
            && calls[2].1.SafetyGuidelines?
            && ShowWeather(calls[2].1.weatherReport) in events
            && ShowAqi(location, calls[2].1.aqiReport) in events)
  {
    var url := Endpoint(agent.weatherUrl);
    var call := GetWeather(location);
    var events := Step(agent, servers, location);
    if servers(url, call).Replied? && WeatherReportOf(servers(url, call).result).Ok? {
      var weather := WeatherReportOf(servers(url, call).result).value;
      WeatherThenAqi(agent, servers, location, weather);
      AqiOrder(agent, servers, location, weather);
    } else {
      WeatherFails(agent, servers, location);
    }
  }

  /** Without a weather report, the iteration makes no call after the weather call. */
  lemma WeatherFails(agent: Agent, servers: Servers, location: string)
    requires var outcome := servers(Endpoint(agent.weatherUrl), GetWeather(location));
      !(outcome.Replied? && WeatherReportOf(outcome.result).Ok?)
    ensures Calls(Step(agent, servers, location)) == [(Endpoint(agent.weatherUrl), GetWeather(location))]
  {
    var url := Endpoint(agent.weatherUrl);
    var call := GetWeather(location);
    var events := Step(agent, servers, location);
    var last := events[2];
    assert events == [Fetching] + ([Invoked(url, call)] + ([last] + []));
    assert Calls([]) == [];
    CallsCons(last, []);
    CallsCons(Invoked(url, call), [last]);
    CallsCons(Fetching, [Invoked(url, call), last]);
  }

  /** Once the weather report is in, the iteration's calls are the weather call and the AQI stage's. */
  lemma WeatherThenAqi(agent: Agent, servers: Servers, location: string, weather: string)
    requires servers(Endpoint(agent.weatherUrl), GetWeather(location)).Replied?
    requires WeatherReportOf(servers(Endpoint(agent.weatherUrl), GetWeather(location)).result) == Ok(weather)
    ensures var aqiEvents := AqiStage(agent, servers, location, weather);
      && Step(agent, servers, location) == [Fetching, Invoked(Endpoint(agent.weatherUrl), GetWeather(location)), ShowWeather(weather)] + aqiEvents
      && Calls(Step(agent, servers, location)) == [(Endpoint(agent.weatherUrl), GetWeather(location))] + Calls(aqiEvents)
  {
    var url := Endpoint(agent.weatherUrl);
    var call := GetWeather(location);
    var aqiEvents := AqiStage(agent, servers, location, weather);
    assert Step(agent, servers, location) == [Fetching] + ([Invoked(url, call)] + ([ShowWeather(weather)] + aqiEvents));
    CallsCons(ShowWeather(weather), aqiEvents);
    CallsCons(Invoked(url, call), [ShowWeather(weather)] + aqiEvents);
    CallsCons(Fetching, [Invoked(url, call), ShowWeather(weather)] + aqiEvents);
  }

  /** Lines that contain an exit. */
  predicate HasExit(lines: seq<string>)
  {
    lines != [] && (IsExit(lines[0]) || HasExit(lines[1..]))
  }

  /** With no exit among the first lines, their iterations come first, whatever follows. */
  lemma {:induction false} SessionAppend(agent: Agent, servers: Servers, a: seq<string>, b: seq<string>)
    requires !HasExit(a)
    ensures Session(agent, servers, a + b) == Session(agent, servers, a) + Session(agent, servers, b)
  {
    if a == [] {
      assert a + b == b;
    } else {
      assert !IsExit(a[0]);
      assert (a + b)[0] == a[0] && (a + b)[1..] == a[1..] + b;
      SessionAppend(agent, servers, a[1..], b);
    }
  }

  /**
   * The session runs one iteration for each line before the first exit, in
   * order, then says goodbye and reads nothing more: what follows that line
   * has no effect.
   */
  lemma StopsAtFirstExit(agent: Agent, servers: Servers, lines: seq<string>, k: nat, rest: seq<string>)
    requires k < |lines| && IsExit(lines[k]) && !HasExit(lines[..k])
    ensures Session(agent, servers, lines) == Session(agent, servers, lines[..k]) + [Exiting]
    ensures Session(agent, servers, lines[..k + 1] + rest) == Session(agent, servers, lines)
  {
    assert lines == lines[..k] + lines[k..];
    SessionAppend(agent, servers, lines[..k], lines[k..]);
    assert lines[..k + 1] + rest == lines[..k] + ([lines[k]] + rest);
    SessionAppend(agent, servers, lines[..k], [lines[k]] + rest);
  }

  /** The goodbye is shown exactly when some line is an exit, and it is then the last event. */
  lemma {:induction false} ExitShownIffExit(agent: Agent, servers: Servers, lines: seq<string>)
    ensures var events := Session(agent, servers, lines);
      (Exiting in events <==> HasExit(lines))
      && (HasExit(lines) ==> events[|events| - 1] == Exiting)
  {
    if lines != [] && !IsExit(lines[0]) {
      ExitShownIffExit(agent, servers, lines[1..]);
      StepNeverExits(agent, servers, Strip(lines[0]));
    } else if lines != [] {
      assert IsExit(lines[0]);
    }
  }

  /** How many times a fetch is announced. */
  function FetchCount(events: seq<Event>): nat
  {
    if events == [] then 0 else (if events[0] == Fetching then 1 else 0) + FetchCount(events[1..])
  }

  lemma {:induction false} FetchCountAppend(a: seq<Event>, b: seq<Event>)
    ensures FetchCount(a + b) == FetchCount(a) + FetchCount(b)
  {
    if a == [] {
      assert a + b == b;
    } else {
      assert (a + b)[0] == a[0] && (a + b)[1..] == a[1..] + b;
      FetchCountAppend(a[1..], b);
    }
  }

  /**
   * A failure in one iteration never ends the loop: with no exit line, every
   * line gets its own iteration, and each announces exactly one fetch.
   */
  lemma {:induction false} EveryLineHandled(agent: Agent, servers: Servers, lines: seq<string>)
    requires !HasExit(lines)
    ensures FetchCount(Session(agent, servers, lines)) == |lines|
  {
    if lines != [] {
      assert !IsExit(lines[0]);
      var step := Step(agent, servers, Strip(lines[0]));
      EveryLineHandled(agent, servers, lines[1..]);
      FetchCountAppend(step, Session(agent, servers, lines[1..]));
      StepFetchesOnce(agent, servers, Strip(lines[0]));
    }
  }

  /** An iteration announces exactly one fetch. */
  lemma StepFetchesOnce(agent: Agent, servers: Servers, location: string)
    ensures FetchCount(Step(agent, servers, location)) == 1
  {
    var events := Step(agent, servers, location);
    StepShape(agent, servers, location);
    StepNeverExits(agent, servers, location);
    assert FetchCount(events) == 1 + FetchCount(events[1..]);
    NoFetch(events[1..]);
  }

  lemma {:induction false} NoFetch(events: seq<Event>)
    requires Fetching !in events
    ensures FetchCount(events) == 0
  {
    if events != [] {
      assert events[1..][0..] == events[1..];
      assert forall e :: e in events[1..] ==> e in events;
      NoFetch(events[1..]);
    }
  }
}
