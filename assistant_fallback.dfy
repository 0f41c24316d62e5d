/** The `weather-assistant` edge function: the canned reply it falls back on
    when the language-model call fails, and how the handler routes a request
    to a model answer, the fallback or a 500. Numbers in the weather record
    are taken as integers and rendered with `String(n)`. */
module AssistantFallback {
  import opened Js

  /** The fields of the client's weather record the fallback reads. */
  datatype FallbackWeather = FallbackWeather(
    location: string,
    temperature: int,
    description: string,
    humidity: int,
    windSpeed: int,
    precipitation: int)

  /** Which of the canned replies is given. */
  datatype FallbackKind =
    | AskLocation   // no weather record
    | UmbrellaYes
    | UmbrellaNo
    | Cool          // below 15 °C
    | Warm          // above 25 °C
    | Mild
    | Outdoor
    | Summary       // the default

  predicate AsksAboutRain(msg: string)
  {
    Includes(msg, "umbrella") || Includes(msg, "rain")
  }

  predicate AsksAboutClothing(msg: string)
  {
    Includes(msg, "jacket") || Includes(msg, "coat") || Includes(msg, "wear") || Includes(msg, "clothes")
  }

  predicate AsksAboutOutdoors(msg: string)
  {
    Includes(msg, "outside") || Includes(msg, "outdoor") || Includes(msg, "activity")
  }

  /** Whether an umbrella is recommended: precipitation is expected or the
      description, as given (not lower-cased), mentions rain. */
  predicate RainExpected(w: FallbackWeather)
  {
    w.precipitation > 0 || Includes(w.description, "rain")
  }

  /** The choice of reply: no record, then the first topic the lower-cased
      message mentions (rain, clothing, outdoors), else the summary. */
  function Choose(message: string, weather: Option<FallbackWeather>): (k: FallbackKind)
    ensures k == AskLocation <==> weather.None?
    ensures (k == UmbrellaYes || k == UmbrellaNo) <==> weather.Some? && AsksAboutRain(ToLower(message))
    ensures k == UmbrellaYes <==> weather.Some? && AsksAboutRain(ToLower(message)) && RainExpected(weather.value)
    ensures (k == Cool || k == Warm || k == Mild) <==>
            weather.Some? && !AsksAboutRain(ToLower(message)) && AsksAboutClothing(ToLower(message))
    ensures k == Outdoor <==>
            weather.Some? && !AsksAboutRain(ToLower(message)) && !AsksAboutClothing(ToLower(message))
            && AsksAboutOutdoors(ToLower(message))
    ensures k == Summary <==>
            weather.Some? && !AsksAboutRain(ToLower(message)) && !AsksAboutClothing(ToLower(message))
            && !AsksAboutOutdoors(ToLower(message))
  {
    var msg := ToLower(message);
    match weather
    case None => AskLocation
    case Some(w) =>
      if AsksAboutRain(msg) then
        (if RainExpected(w) then UmbrellaYes else UmbrellaNo)
      else if AsksAboutClothing(msg) then
        (if w.temperature < 15 then Cool else if w.temperature > 25 then Warm else Mild)
      else if AsksAboutOutdoors(msg) then Outdoor
      else Summary
  }

  /** The clothing answer follows three temperature bands: below 15, above
      25, and the rest. */
  lemma ClothingBands(message: string, w: FallbackWeather)
    requires !AsksAboutRain(ToLower(message)) && AsksAboutClothing(ToLower(message))
    ensures Choose(message, Some(w)) == Cool <==> w.temperature < 15
    ensures Choose(message, Some(w)) == Warm <==> w.temperature > 25
    ensures Choose(message, Some(w)) == Mild <==> 15 <= w.temperature <= 25
  {
  }

  /** Which reply a text is, read from its first characters. */
  function KindOf(r: string): Option<FallbackKind>
  {
    if |r| == 0 then None
    else if r[0] == 'Y' then Some(UmbrellaYes)
    else if r[0] == 'B' then Some(UmbrellaNo)
    else if r[0] == 'A' then Some(Mild)
    else if r[0] == 'I' then
      if |r| > 1 && r[1] == '\'' then Some(AskLocation)
      else if |r| > 5 && r[5] == 'q' then Some(Cool)
      else if |r| > 5 && r[5] == 'w' then Some(Warm)
      else None
    else if r[0] == 'C' && |r| > 8 then
      if r[8] == 'c' then Some(Outdoor)
      else if r[8] == 'w' then Some(Summary)
      else None
    else None
  }

  function AskLocationText(): (r: string)
    ensures KindOf(r) == Some(AskLocation)
  {
    Concat(["I'", "d be happy to help with weather advice! ",
            "Could you share your current location so I can provide more specific guidance?"])
  }

  function UmbrellaYesText(w: FallbackWeather): (r: string)
    ensures KindOf(r) == Some(UmbrellaYes)
  {
    Concat(["Y", "es, I'd recommend bringing an umbrella! There's ", NumText(w.precipitation),
            "mm of precipitation expected and the conditions are showing \"", w.description, "\"."])
  }

  function UmbrellaNoText(w: FallbackWeather): (r: string)
    ensures KindOf(r) == Some(UmbrellaNo)
  {
    Concat(["B", "ased on current conditions (", w.description, ") with ", NumText(w.precipitation),
            "mm precipitation expected, you probably won't need an umbrella today."])
  }

  function CoolText(w: FallbackWeather): (r: string)
    ensures KindOf(r) == Some(Cool)
  {
    Concat(["It's q", "uite cool at ", NumText(w.temperature), "°C with ", w.description,
            ". I'd recommend wearing a jacket or coat to stay comfortable."])
  }

  function WarmText(w: FallbackWeather): (r: string)
    ensures KindOf(r) == Some(Warm)
  {
    Concat(["It's w", "arm at ", NumText(w.temperature), "°C with ", w.description,
            ". Light, breathable clothing would be most comfortable."])
  }

  function MildText(w: FallbackWeather): (r: string)
    ensures KindOf(r) == Some(Mild)
  {
    Concat(["A", "t ", NumText(w.temperature), "°C with ", w.description,
            ", a light layer should be comfortable. You can always adjust based on how you feel!"])
  }

  function OutdoorText(w: FallbackWeather): (r: string)
    ensures KindOf(r) == Some(Outdoor)
  {
    Concat(["Current c", "onditions: ", NumText(w.temperature), "°C, ", w.description, ", humidity ",
            NumText(w.humidity), "%, wind ", NumText(w.windSpeed),
            " km/h. Great for most outdoor activities! Stay hydrated and dress appropriately for the temperature."])
  }

  /** The pieces of the default reply. */
  function SummaryPieces(w: FallbackWeather): seq<string>
  {
    ["Current w", "eather in ", w.location, ": ", NumText(w.temperature), "°C, ", w.description,
     ". Humidity is ", NumText(w.humidity), "% with ", NumText(w.windSpeed),
     " km/h winds. Feel free to ask me specific questions about clothing, activities, or safety!"]
  }

  function SummaryText(w: FallbackWeather): (r: string)
    ensures KindOf(r) == Some(Summary)
  {
    Concat(SummaryPieces(w))
  }

  /** The text of each reply. */
  function Render(k: FallbackKind, weather: Option<FallbackWeather>): (r: string)
    requires k != AskLocation ==> weather.Some?
    ensures KindOf(r) == Some(k)
  {
    if k == AskLocation then AskLocationText() else RenderWeather(k, weather.value)
  }

  /** The replies that describe a weather record. */
  function RenderWeather(k: FallbackKind, w: FallbackWeather): (r: string)
    requires k != AskLocation
    ensures KindOf(r) == Some(k)
  {
    if k == UmbrellaYes || k == UmbrellaNo || k == Cool then RenderFirst(k, w) else RenderSecond(k, w)
  }

  function RenderFirst(k: FallbackKind, w: FallbackWeather): (r: string)
    requires k == UmbrellaYes || k == UmbrellaNo || k == Cool
    ensures KindOf(r) == Some(k)
  {
    if k == UmbrellaYes then UmbrellaYesText(w)
    else if k == UmbrellaNo then UmbrellaNoText(w)
    else CoolText(w)
  }

  function RenderSecond(k: FallbackKind, w: FallbackWeather): (r: string)
    requires k == Warm || k == Mild || k == Outdoor || k == Summary
    ensures KindOf(r) == Some(k)
  {
    if k == Warm then WarmText(w)
    else if k == Mild then MildText(w)
    else if k == Outdoor then OutdoorText(w)
    else SummaryText(w)
  }

  /** `generateFallbackResponse`. */
  function FallbackResponse(message: string, weather: Option<FallbackWeather>): (r: string)
    ensures KindOf(r) == Some(Choose(message, weather))
  {
    Render(Choose(message, weather), weather)
  }

  /** Different choices give different texts, so the reply shows which rule
      produced it. */
  lemma RepliesDiffer(m1: string, w1: Option<FallbackWeather>, m2: string, w2: Option<FallbackWeather>)
    requires Choose(m1, w1) != Choose(m2, w2)
    ensures FallbackResponse(m1, w1) != FallbackResponse(m2, w2)
  {
  }

  /** The default reply names the location, the temperature, the description,
      the humidity and the wind speed. */
  lemma SummaryMentionsConditions(w: FallbackWeather)
    ensures var r := SummaryText(w);
            && Includes(r, w.location) && Includes(r, NumText(w.temperature))
            && Includes(r, w.description) && Includes(r, NumText(w.humidity))
            && Includes(r, NumText(w.windSpeed))
  {
    var pieces := SummaryPieces(w);
    ConcatIncludes(pieces, 2);
    ConcatIncludes(pieces, 4);
    ConcatIncludes(pieces, 6);
    ConcatIncludes(pieces, 8);
    ConcatIncludes(pieces, 10);
  }

  /** A recommended umbrella comes with the expected precipitation and the
      description it was based on. */
  lemma UmbrellaYesQuotesConditions(w: FallbackWeather)
    ensures Includes(UmbrellaYesText(w), NumText(w.precipitation)) && Includes(UmbrellaYesText(w), w.description)
  {
    var pieces := ["Y", "es, I'd recommend bringing an umbrella! There's ", NumText(w.precipitation),
                   "mm of precipitation expected and the conditions are showing \"", w.description, "\"."];
    ConcatIncludes(pieces, 2);
    ConcatIncludes(pieces, 4);
  }

  /** The rain test reads the description as given: a capitalised "Rain" with
      no precipitation does not bring the umbrella recommendation. */
  lemma CapitalisedRainIsMissed(message: string, w: FallbackWeather)
    requires AsksAboutRain(ToLower(message))
    requires w.precipitation <= 0 && 'r' !in w.description
    ensures Choose(message, Some(w)) == UmbrellaNo
  {
    AbsentLetter(w.description, "rain", 0);
  }

  /** What the request body supplies; a missing field is `None`. */
  datatype AssistantBody = AssistantBody(message: Option<string>, weather: Option<FallbackWeather>)

  /** The outcome of the language-model call: an HTTP status with the reply
      content (`None` when `choices[0].message.content` cannot be read), or a
      thrown network error. */
  datatype Upstream =
    | Answered(status: int, content: Option<string>)
    | Unreachable

  predicate Ok(status: int)
  {
    200 <= status <= 299
  }

  /** Whether the call yields a usable answer; every other outcome leads to
      the fallback (429 and 403 directly, the rest through the inner catch). */
  predicate Usable(u: Upstream)
  {
    u.Answered? && Ok(u.status) && u.content.Some?
  }

  /** What the handler sends back: the preflight answer, the model's answer,
      the fallback reply for the request's message and weather record, or a
      500 (`details` is `None` where it is a runtime error message). */
  datatype AssistantResponse =
    | Preflight
    | ModelAnswer(content: string)
    | FallbackAnswer(message: string, weather: Option<FallbackWeather>)
    | Failed(status: int, error: string, details: Option<string>)

  /** The `response` text a successful answer carries. */
  function ResponseText(r: AssistantResponse): string
    requires r.ModelAnswer? || r.FallbackAnswer?
  {
    if r.ModelAnswer? then r.content else FallbackResponse(r.message, r.weather)
  }

  const FailureText: string := "Failed to get response from weather assistant"
  const NoKeyText: string := "OpenAI API key not configured"

  /** The handler. `body` is `None` when the request body is not JSON;
      `keyConfigured` says whether the model API key is set. */
  function Handle(httpMethod: string, body: Option<AssistantBody>, keyConfigured: bool, upstream: Upstream): (r: AssistantResponse)
    ensures r.Preflight? <==> httpMethod == "OPTIONS"
    ensures r.Failed? ==> r.status == 500 && r.error == FailureText
    ensures httpMethod != "OPTIONS" && body.Some? && !keyConfigured ==> r == Failed(500, FailureText, Some(NoKeyText))
    ensures r.ModelAnswer? ==> keyConfigured && body.Some? && upstream.Answered? && upstream.content == Some(r.content)
    ensures r.FallbackAnswer? ==> keyConfigured && body == Some(AssistantBody(Some(r.message), r.weather))
  {
    if httpMethod == "OPTIONS" then Preflight
    else if body.None? then Failed(500, FailureText, None)
    else if !keyConfigured then Failed(500, FailureText, Some(NoKeyText))
    else if Usable(upstream) then ModelAnswer(upstream.content.value)
    else
      match body.value.message
      case None => Failed(500, FailureText, None)      // `toLowerCase` of undefined throws
      case Some(m) => FallbackAnswer(m, body.value.weather)
  }

  /** Whenever the model call fails in any way (a 429 or 403, another
      status, a thrown error, or an unreadable reply) the client still gets
      the fallback reply; exactly when the call succeeds its answer is passed
      through. */
  lemma FailuresFallBack(httpMethod: string, b: AssistantBody, upstream: Upstream)
    requires httpMethod != "OPTIONS" && b.message.Some?
    ensures !Usable(upstream) <==> Handle(httpMethod, Some(b), true, upstream) == FallbackAnswer(b.message.value, b.weather)
    ensures Usable(upstream) <==> Handle(httpMethod, Some(b), true, upstream).ModelAnswer?
  {
  }
}
