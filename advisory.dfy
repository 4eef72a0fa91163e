/**
 * The advice server of LLM_inference_server.py. At start-up it tries to load
 * a text-generation model and keeps no model if that fails; its one tool,
 * `safety_guidelines`, builds a prompt from the weather and AQI reports, asks
 * the model for a continuation and checks the shape of what comes back. The
 * model itself is a function from the prompt to its output.
 */
module Advisory {
  import opened Wrappers
  import opened Text

  /** One item of the model's output: its `generated_text`, if it has that key. */
  datatype Item = Item(generatedText: Option<string>)

  /** What one call of the model gives: a list of items, or an exception with its text. */
  datatype Generation = Produced(items: seq<Item>) | Raised(message: string)

  /** The outcome of loading the model: the loaded generator, or the loader's exception text. */
  datatype Load = Loaded(generate: string -> Generation) | LoadFailed(message: string)

  /** The module-level `generator`: a model, or None. */
  datatype Generator = NoModel | Model(generate: string -> Generation)

  /** The line printed when loading fails. */
  function LoadFailureNotice(message: string): string
  {
    "Failed to load the text generation model: " + message + " Please download it first using the CLI command( refer README)\n"
  }

  /**
   * Lines 7-16: a failed load leaves no model and prints one notice instead
   * of stopping the server; a successful load keeps the model and prints
   * nothing.
   */
  function InitGenerator(load: Load): (r: (Generator, seq<string>))
    ensures r.0.NoModel? <==> load.LoadFailed?
    ensures load.Loaded? ==> r.0 == Model(load.generate) && r.1 == []
    ensures load.LoadFailed? ==> r.1 == [LoadFailureNotice(load.message)]
  {
    match load
    case Loaded(generate) => (Model(generate), [])
    case LoadFailed(message) => (NoModel, [LoadFailureNotice(message)])
  }

  const NotInitialized := "The language model could not be initialized. Please check your model path and device setup."
  const NoValidOutput := "Failed to generate safety guidelines. The model returned no valid output."

  /** The lines of the prompt's triple-quoted f-string (lines 39-53) before the weather report. */
  const HeadLines := ["", "You are a health assistant. Given this weather and air quality:", "", "Weather Report:"]

  /** The lines between the two reports. */
  const MiddleLines := ["", "AQI Report:"]

  /** The lines after the AQI report: the four-item instruction list and a final newline. */
  const InstructionLines := [
    "",
    "Provide:",
    "1. Overall outdoor safety level. Can I go for parasailing based on the weather report?",
    "2. Health risks.",
    "3. Precautions.",
    "4. Special advice for sensitive groups.",
    ""]

  function Prompt(weather: string, aqi: string): string
  {
    JoinLines(HeadLines + [weather] + MiddleLines + [aqi] + InstructionLines)
  }

  const PromptHead := JoinLines(HeadLines) + "\n"
  const PromptMiddle := "\n" + JoinLines(MiddleLines) + "\n"
  const PromptTail := "\n" + JoinLines(InstructionLines)

  /** Two strings joined as lines between three non-empty blocks of lines sit between the blocks' texts. */
  lemma {:induction false} JoinAround(head: seq<string>, x: string, middle: seq<string>, y: string, tail: seq<string>)
    requires head != [] && middle != [] && tail != []
    ensures var p := JoinLines(head + [x] + middle + [y] + tail);
      && p == (JoinLines(head) + "\n") + x + ("\n" + JoinLines(middle) + "\n") + y + ("\n" + JoinLines(tail))
  {
    var a := head + [x];
    var b := a + middle;
    var c := b + [y];
    JoinLinesAppend(head, [x]);
    JoinLinesAppend(a, middle);
    JoinLinesAppend(b, [y]);
    JoinLinesAppend(c, tail);
  }

  /**
   * The prompt embeds the weather report and then the AQI report verbatim,
   * each after its heading, and ends with the fixed four-item instruction
   * list; both reports can be read back at their places.
   */
  lemma PromptParts(weather: string, aqi: string)
    ensures var p := Prompt(weather, aqi);
      && p == PromptHead + weather + PromptMiddle + aqi + PromptTail
      && p[|PromptHead|..|PromptHead| + |weather|] == weather
      && p[|PromptHead| + |weather| + |PromptMiddle|..|p| - |PromptTail|] == aqi
  {
    JoinAround(HeadLines, weather, MiddleLines, aqi, InstructionLines);
    ReadBack(PromptHead, weather, PromptMiddle, aqi, PromptTail);
  }

  /** In a concatenation of five strings, the second and fourth can be cut back out. */
  lemma ReadBack(h: string, x: string, m: string, y: string, t: string)
    ensures var p := h + x + m + y + t;
      p[|h|..|h| + |x|] == x && p[|h| + |x| + |m|..|p| - |t|] == y
  {
    var p := h + x + m + y + t;
    assert p == h + (x + (m + (y + t)));
    assert p[|h|..] == x + (m + (y + t));
    assert p[|h| + |x|..] == m + (y + t);
    assert p[|h| + |x| + |m|..] == y + t;
  }

  /** What the tool returns, and the prompts it gave the model, in order. */
  datatype Advice = Advice(text: string, prompts: seq<string>)

  /** `safety_guidelines(weather_report, aqi_report)` with the module's generator. */
  function SafetyGuidelines(generator: Generator, weather: string, aqi: string): (r: Advice)
    ensures generator.NoModel? <==> r.prompts == []
    ensures generator.NoModel? ==> r.text == NotInitialized
    ensures generator.Model? ==> r.prompts == [Prompt(weather, aqi)]
    ensures generator.Model? ==>
      match generator.generate(Prompt(weather, aqi))
      case Raised(message) => r.text == "Model pipeline error: " + message
      case Produced(items) =>
        if items == [] || items[0].generatedText.None? then r.text == NoValidOutput
        else r.text == Strip(items[0].generatedText.value)
  {
    match generator
    case NoModel => Advice(NotInitialized, [])
    case Model(generate) =>
      var prompt := Prompt(weather, aqi);
      var text :=
        match generate(prompt)
        case Raised(message) => "Model pipeline error: " + message
        case Produced(items) =>
          if items == [] || items[0].generatedText.None? then NoValidOutput
          else Strip(items[0].generatedText.value);
      Advice(text, [prompt])
  }

  /** Without a model, the tool answers the fixed notice for every pair of reports and never generates. */
  lemma FallbackWithoutModel(message: string, weather: string, aqi: string)
    ensures var generator := InitGenerator(LoadFailed(message)).0;
      SafetyGuidelines(generator, weather, aqi) == Advice(NotInitialized, [])
  {
  }

  /**
   * The advice is the first item's text with its surrounding white space
   * removed: padding on either side makes no difference, and a text that is
   * all white space gives an empty answer.
   */
  lemma AdviceIsStrippedText(generate: string -> Generation, weather: string, aqi: string,
                             before: string, t: string, after: string, rest: seq<Item>)
    requires AllSpace(before) && AllSpace(after)
    requires generate(Prompt(weather, aqi)) == Produced([Item(Some(before + t + after))] + rest)
    ensures var text := SafetyGuidelines(Model(generate), weather, aqi).text;
      && text == Strip(t)
      && (text == [] <==> AllSpace(t))
  {
    StripPadded(before, t, after);
  }
}
