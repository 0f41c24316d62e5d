/** The rule-based weather assistant of the Express server (`POST /api/weather-assistant`):
    one reply per (message, weather record), chosen by keyword groups tested in a
    fixed order on the lower-cased message, then by threshold bands. */
module ServerAssistant {
  import opened Js

  /** The fields of the posted weather record the responder reads. Numbers are
      the integers the server's own weather endpoint produces (temperature and
      feelsLike are rounded there). */
  datatype WeatherData = WeatherData(
    location: string,
    temperature: int,
    feelsLike: int,
    description: string,
    humidity: int,
    windSpeed: int,
    pressure: int,
    aqi: Option<int>)

  /** The branches of the responder, one per keyword group, and the help text. */
  datatype Intent =
    | Clothing | Activity | Umbrella | AirQuality | Driving
    | Temperature | Wind | Humidity | General | Help

  /** The words each branch looks for in the lower-cased message. */
  function Keywords(i: Intent): seq<string>
  {
    match i
    case Clothing => ["wear", "clothes", "outfit", "dress"]
    case Activity => ["activity", "activities", "outdoor", "do"]
    case Umbrella => ["umbrella", "rain"]
    case AirQuality => ["air", "quality", "health"]
    case Driving => ["drive", "driving", "car"]
    case Temperature => ["temperature", "temp", "hot", "cold"]
    case Wind => ["wind"]
    case Humidity => ["humidity"]
    case General => ["weather"]
    case Help => []
  }

  /** `msg.includes(w1) || msg.includes(w2) || ...` */
  predicate IncludesAny(msg: string, words: seq<string>)
  {
    |words| > 0 && (Includes(msg, words[0]) || IncludesAny(msg, words[1..]))
  }

  /** The message mentions one of the branch's keywords. */
  predicate Mentions(msg: string, i: Intent)
  {
    IncludesAny(msg, Keywords(i))
  }

  /** The if/else-if chain of the handler: the first keyword group present wins. */
  function Classify(msg: string): (r: Intent)
    ensures r != Help ==> Mentions(msg, r)
  {
    if Mentions(msg, Clothing) then Clothing
    else if Mentions(msg, Activity) then Activity
    else if Mentions(msg, Umbrella) then Umbrella
    else if Mentions(msg, AirQuality) then AirQuality
    else if Mentions(msg, Driving) then Driving
    else if Mentions(msg, Temperature) then Temperature
    else if Mentions(msg, Wind) then Wind
    else if Mentions(msg, Humidity) then Humidity
    else if Mentions(msg, General) then General
    else Help
  }

  /** The order in which the keyword groups are tried. */
  const Priority: seq<Intent> :=
    [Clothing, Activity, Umbrella, AirQuality, Driving, Temperature, Wind, Humidity, General]

  /** Reference definition of "first match wins": scan `order` and stop at the
      first group the message mentions; `Help` when none does. */
  function FirstMatch(msg: string, order: seq<Intent>): (r: Intent)
    ensures r == Help || r in order
  {
    if order == [] then Help
    else if Mentions(msg, order[0]) then order[0]
    else FirstMatch(msg, order[1..])
  }

  /** One step of the scan over a suffix of `order`. */
  lemma FirstMatchStep(msg: string, order: seq<Intent>, k: nat)
    requires k < |order|
    ensures FirstMatch(msg, order[k..]) ==
            if Mentions(msg, order[k]) then order[k] else FirstMatch(msg, order[k + 1..])
  {
    assert order[k..][0] == order[k] && order[k..][1..] == order[k + 1..];
  }

  /** The handler's chain is the scan of `Priority`. */
  lemma ClassifyIsFirstMatch(msg: string)
    ensures Classify(msg) == FirstMatch(msg, Priority)
  {
    var p := Priority;
    assert p[9..] == [];
    FirstMatchStep(msg, p, 8);
    FirstMatchStep(msg, p, 7);
    FirstMatchStep(msg, p, 6);
    FirstMatchStep(msg, p, 5);
    FirstMatchStep(msg, p, 4);
    FirstMatchStep(msg, p, 3);
    FirstMatchStep(msg, p, 2);
    FirstMatchStep(msg, p, 1);
    FirstMatchStep(msg, p, 0);
    assert p[0..] == p;
  }

  /** The scan returns the entry at position k exactly when that group is
      mentioned and no earlier one is (entries distinct, `Help` not among them). */
  lemma FirstMatchAt(msg: string, order: seq<Intent>, k: nat)
    requires k < |order|
    requires forall a, b :: 0 <= a < b < |order| ==> order[a] != order[b]
    requires Help !in order
    ensures FirstMatch(msg, order) == order[k] <==>
            Mentions(msg, order[k]) && forall j :: 0 <= j < k ==> !Mentions(msg, order[j])
  {
    if Mentions(msg, order[k]) && forall j :: 0 <= j < k ==> !Mentions(msg, order[j]) {
      FirstMatchReaches(msg, order, k);
    }
    if FirstMatch(msg, order) == order[k] {
      FirstMatchStops(msg, order, k);
    }
  }

  /** When position k is the first mentioned group, the scan stops there. */
  lemma {:induction false} FirstMatchReaches(msg: string, order: seq<Intent>, k: nat)
    requires k < |order|
    requires Mentions(msg, order[k]) && forall j :: 0 <= j < k ==> !Mentions(msg, order[j])
    ensures FirstMatch(msg, order) == order[k]
    decreases k
  {
    if k > 0 {
      assert !Mentions(msg, order[0]);
      forall j | 0 <= j < k - 1 ensures !Mentions(msg, order[1..][j]) {
        assert order[1..][j] == order[j + 1];
      }
      FirstMatchReaches(msg, order[1..], k - 1);
    }
  }

  /** When the scan returns the entry at position k, no earlier group was
      mentioned (the entries being distinct and `Help` not among them). */
  lemma {:induction false} FirstMatchStops(msg: string, order: seq<Intent>, k: nat)
    requires k < |order|
    requires forall a, b :: 0 <= a < b < |order| ==> order[a] != order[b]
    requires Help !in order
    requires FirstMatch(msg, order) == order[k]
    ensures Mentions(msg, order[k]) && forall j :: 0 <= j < k ==> !Mentions(msg, order[j])
    decreases k
  {
    if k > 0 {
      assert order[0] != order[k];
      assert !Mentions(msg, order[0]);
      var tail := order[1..];
      forall a, b | 0 <= a < b < |tail| ensures tail[a] != tail[b] {
        assert tail[a] == order[a + 1] && tail[b] == order[b + 1];
      }
      assert tail[k - 1] == order[k];
      assert Help !in tail by {
        assert forall x :: x in tail ==> x in order;
      }
      FirstMatchStops(msg, tail, k - 1);
      forall j | 0 <= j < k ensures !Mentions(msg, order[j]) {
        if j > 0 {
          assert tail[j - 1] == order[j];
        }
      }
    }
  }

  /** The scan returns `Help` exactly when no group in `order` is mentioned. */
  lemma {:induction false} FirstMatchHelp(msg: string, order: seq<Intent>)
    requires Help !in order
    ensures FirstMatch(msg, order) == Help <==> forall j :: 0 <= j < |order| ==> !Mentions(msg, order[j])
  {
    if order != [] {
      FirstMatchHelp(msg, order[1..]);
      forall j | 0 < j < |order| ensures order[j] == order[1..][j - 1] { }
    }
  }

  /** First match wins: branch `Priority[k]` answers exactly when one of its
      keywords is in the message and no keyword of an earlier branch is. */
  lemma FirstMatchWins(msg: string, k: nat)
    requires k < |Priority|
    ensures Classify(msg) == Priority[k] <==>
            Mentions(msg, Priority[k]) && forall j :: 0 <= j < k ==> !Mentions(msg, Priority[j])
  {
    PriorityDistinct();
    var r := FirstMatch(msg, Priority);
    FirstMatchAt(msg, Priority, k);
    assert r == Priority[k] <==>
           Mentions(msg, Priority[k]) && forall j :: 0 <= j < k ==> !Mentions(msg, Priority[j]);
    ClassifyIsFirstMatch(msg);
  }

  /** The groups are tried once each, and the help text is not one of them. */
  lemma PriorityDistinct()
    ensures forall a, b :: 0 <= a < b < |Priority| ==> Priority[a] != Priority[b]
    ensures Help !in Priority
  {
  }

  /** The help text answers exactly when no keyword group is mentioned. */
  lemma HelpWhenNothingMatches(msg: string)
    ensures Classify(msg) == Help <==> forall j :: 0 <= j < |Priority| ==> !Mentions(msg, Priority[j])
  {
    PriorityDistinct();
    ClassifyIsFirstMatch(msg);
    FirstMatchHelp(msg, Priority);
  }

  /** A message that contains none of the words mentions none of them. */
  lemma {:induction false} IncludesNone(msg: string, words: seq<string>)
    requires forall k :: 0 <= k < |words| ==> !Includes(msg, words[k])
    ensures !IncludesAny(msg, words)
  {
    if words != [] {
      IncludesNone(msg, words[1..]);
    }
  }

  /** A message that contains one of the words mentions the group. */
  lemma {:induction false} IncludesSome(msg: string, words: seq<string>, k: nat)
    requires k < |words| && Includes(msg, words[k])
    ensures IncludesAny(msg, words)
    decreases k
  {
    if k > 0 {
      IncludesSome(msg, words[1..], k - 1);
    }
  }

  /** The sample question of the next lemma. */
  const LondonHumidity: string := "humidity in london"

  /** A message without the letters w, c, f and r mentions no clothing word. */
  lemma NoClothingLetters(m: string)
    requires 'w' !in m && 'c' !in m && 'f' !in m && 'r' !in m
    ensures !Mentions(m, Clothing)
  {
    AbsentLetter(m, "wear", 0);
    AbsentLetter(m, "clothes", 0);
    AbsentLetter(m, "outfit", 3);
    AbsentLetter(m, "dress", 1);
    IncludesNone(m, Keywords(Clothing));
  }

  /** "do" occurs in the sample question, inside "london". */
  lemma LondonHumidityHasDo()
    ensures Mentions(LondonHumidity, Activity)
  {
    var m := LondonHumidity;
    assert m[15..17] == "do";
    IncludesAt(m, "do", 15);
    IncludesSome(m, Keywords(Activity), 3);
  }

  /** "do" is matched inside other words: a humidity question naming London is
      answered with activity suggestions. */
  lemma LondonHumidityGetsActivities()
    ensures Classify(LondonHumidity) == Activity
  {
    NoClothingLetters(LondonHumidity);
    LondonHumidityHasDo();
    FirstMatchWins(LondonHumidity, 1);
  }

  // ---- Clothing branch ----

  /** The seven temperature bands of the clothing advice, coldest first. */
  datatype ClothingBand = VeryCold | Cold | Cool | Mild | Pleasant | Warm | Hot

  function BandRank(b: ClothingBand): nat
  {
    match b
    case VeryCold => 0 case Cold => 1 case Cool => 2 case Mild => 3
    case Pleasant => 4 case Warm => 5 case Hot => 6
  }

  /** The band chosen by the handler's `<=` chain. */
  function TempBand(t: int): ClothingBand
  {
    if t <= 0 then VeryCold
    else if t <= 10 then Cold
    else if t <= 15 then Cool
    else if t <= 20 then Mild
    else if t <= 25 then Pleasant
    else if t <= 30 then Warm
    else Hot
  }

  /** The upper bounds (inclusive) of the first six bands, in °C. */
  const BandCeilings: seq<int> := [0, 10, 15, 20, 25, 30]

  /** Reference definition of the bands as intervals: band k holds the
      temperatures above ceiling k-1 and at most ceiling k. */
  predicate InBand(t: int, b: ClothingBand)
  {
    var k := BandRank(b);
    (k == 0 || BandCeilings[k - 1] < t) && (k == 6 || t <= BandCeilings[k])
  }

  /** Every temperature falls in exactly one band, the one `TempBand` picks. */
  lemma TempBandIsInterval(t: int, b: ClothingBand)
    ensures TempBand(t) == b <==> InBand(t, b)
  {
  }

  /** A warmer temperature never gets a colder band. */
  lemma TempBandMonotone(t1: int, t2: int)
    requires t1 <= t2
    ensures BandRank(TempBand(t1)) <= BandRank(TempBand(t2))
  {
  }

  /** The one band line of the clothing reply. */
  function BandLine(b: ClothingBand, t: int): string
  {
    var T := NumText(t);
    match b
    case VeryCold => "🧥 **Very Cold (" + T + "°C)**: Heavy winter coat, thermal layers, warm hat, gloves, and insulated boots. Stay warm!"
    case Cold => "🧥 **Cold (" + T + "°C)**: Warm jacket or coat, long pants, closed shoes, and consider a scarf. Layer up!"
    case Cool => "🧥 **Cool (" + T + "°C)**: Light jacket or sweater, long pants, and comfortable shoes. Perfect for layering!"
    case Mild => "👕 **Mild (" + T + "°C)**: Light sweater or long-sleeve shirt, jeans or pants. Very comfortable weather!"
    case Pleasant => "👕 **Pleasant (" + T + "°C)**: T-shirt or light shirt, comfortable pants or shorts. Great weather!"
    case Warm => "👕 **Warm (" + T + "°C)**: Light, breathable clothing, shorts or light pants, sandals or breathable shoes."
    case Hot => "🌡️ **Hot (" + T + "°C)**: Very light, loose-fitting clothes, shorts, tank tops, sun hat, and stay hydrated!"
  }

  /** The optional lines appended after the band line, in the order they are tested. */
  datatype Extra = RainAlert | SnowAlert | WindyAlert | HumidAlert

  function ExtraRank(e: Extra): nat
  {
    match e
    case RainAlert => 0 case SnowAlert => 1 case WindyAlert => 2 case HumidAlert => 3
  }

  /** The condition under which each extra line is due (`desc` is lower-cased). */
  predicate ExtraDue(e: Extra, desc: string, windSpeed: int, humidity: int)
  {
    match e
    case RainAlert => Includes(desc, "rain") || Includes(desc, "drizzle")
    case SnowAlert => Includes(desc, "snow")
    case WindyAlert => windSpeed > 15
    case HumidAlert => humidity > 80
  }

  /** The four independent `if`s of the clothing branch. */
  function ClothingExtras(desc: string, windSpeed: int, humidity: int): seq<Extra>
  {
    (if Includes(desc, "rain") || Includes(desc, "drizzle") then [RainAlert] else [])
    + (if Includes(desc, "snow") then [SnowAlert] else [])
    + (if windSpeed > 15 then [WindyAlert] else [])
    + (if humidity > 80 then [HumidAlert] else [])
  }

  /** Each extra is present exactly when its condition holds, and the extras
      come in the fixed order rain, snow, wind, humidity, each at most once. */
  lemma ClothingExtrasExact(desc: string, windSpeed: int, humidity: int)
    ensures forall e :: e in ClothingExtras(desc, windSpeed, humidity) <==> ExtraDue(e, desc, windSpeed, humidity)
    ensures var xs := ClothingExtras(desc, windSpeed, humidity);
            forall a, b :: 0 <= a < b < |xs| ==> ExtraRank(xs[a]) < ExtraRank(xs[b])
  {
    ClothingExtrasMembers(desc, windSpeed, humidity);
    ClothingExtrasOrdered(desc, windSpeed, humidity);
  }

  /** An extra is present exactly when its condition holds. */
  lemma ClothingExtrasMembers(desc: string, windSpeed: int, humidity: int)
    ensures forall e :: e in ClothingExtras(desc, windSpeed, humidity) <==> ExtraDue(e, desc, windSpeed, humidity)
  {
  }

  /** The extras come in the fixed order rain, snow, wind, humidity. */
  lemma ClothingExtrasOrdered(desc: string, windSpeed: int, humidity: int)
    ensures var xs := ClothingExtras(desc, windSpeed, humidity);
            forall a, b :: 0 <= a < b < |xs| ==> ExtraRank(xs[a]) < ExtraRank(xs[b])
  {
  }

  function ExtraLine(e: Extra): string
  {
    match e
    case RainAlert => "\n☔ **Rain Alert**: Don't forget an umbrella or raincoat!"
    case SnowAlert => "\n❄️ **Snow Alert**: Wear waterproof boots and warm layers!"
    case WindyAlert => "\n💨 **Windy**: Consider a windbreaker or jacket to stay comfortable."
    case HumidAlert => "\n💧 **High Humidity**: Choose breathable, moisture-wicking fabrics."
  }

  function ExtrasText(xs: seq<Extra>): string
  {
    if xs == [] then "" else ExtraLine(xs[0]) + ExtrasText(xs[1..])
  }

  // ---- Activity, umbrella, driving, wind and humidity branches ----

  datatype ActivityAdvice = PerfectOutdoors | RainyDay | ColdDay | ModerateOutdoors

  function Activities(t: int, desc: string): ActivityAdvice
  {
    if 20 <= t <= 28 && !Includes(desc, "rain") && !Includes(desc, "storm") then PerfectOutdoors
    else if Includes(desc, "rain") then RainyDay
    else if t < 10 then ColdDay
    else ModerateOutdoors
  }

  /** Rainy-day activities are suggested exactly when it rains, whatever the
      temperature; the cold-weather list only when it is dry and below 10 °C;
      the outdoor list only between 20 and 28 °C with neither rain nor storm. */
  lemma ActivitiesFollowRain(t: int, desc: string)
    ensures Activities(t, desc) == RainyDay <==> Includes(desc, "rain")
    ensures Activities(t, desc) == ColdDay <==> !Includes(desc, "rain") && t < 10
    ensures Activities(t, desc) == PerfectOutdoors ==> 20 <= t <= 28 && !Includes(desc, "storm")
  {
  }

  function ActivityText(a: ActivityAdvice): string
  {
    match a
    case PerfectOutdoors => "Perfect weather for outdoor activities! 🌞\n• Walking or hiking\n• Picnics in the park\n• Outdoor sports\n• Cycling\n• Photography"
    case RainyDay => "Rainy day activities: 🌧️\n• Indoor museums or galleries\n• Shopping centers\n• Cozy cafes\n• Reading at home\n• Indoor fitness"
    case ColdDay => "Cold weather activities: ❄️\n• Indoor activities recommended\n• Hot drinks at cafes\n• Museums or libraries\n• Indoor sports\n• Cooking at home"
    case ModerateOutdoors => "Good for moderate outdoor activities: 🌤️\n• Light walking\n• Indoor/outdoor mix\n• Shopping\n• Casual outdoor dining"
  }

  /** Rain, drizzle or showers in the (lower-cased) description. */
  predicate Wet(desc: string)
  {
    Includes(desc, "rain") || Includes(desc, "drizzle") || Includes(desc, "shower")
  }

  function UmbrellaReply(desc: string, humidity: int, location: string): (r: string)
    ensures |r| > 0 && r[0] in Symbols(Umbrella)
  {
    if Wet(desc) then
      "☔" + (" **Yes, bring an umbrella!**" + " It's " + desc + " in " + location + ". Better to be prepared!")
    else if humidity > 85 then
      "🌫" + ("️ **Maybe bring an umbrella.**" + " High humidity (" + NumText(humidity) + "%) suggests possible rain later.")
    else
      "☀" + ("️ **No umbrella needed!**" + " Clear weather in " + location + " with " + desc + ".")
  }

  function DrivingText(desc: string, windSpeed: int): string
  {
    if Includes(desc, "rain") || Includes(desc, "drizzle") then
      "⚠️ **Caution**: Wet roads due to " + desc + ". Drive slowly and increase following distance."
    else if Includes(desc, "fog") || Includes(desc, "mist") then
      "⚠️ **Low Visibility**: Foggy conditions. Use headlights and drive carefully."
    else if Includes(desc, "snow") || Includes(desc, "ice") then
      "❄️ **Dangerous**: Icy/snowy conditions. Consider avoiding travel or use winter tires."
    else if windSpeed > 25 then
      "💨 **Windy**: Strong winds (" + NumText(windSpeed) + " m/s). Be careful with high-profile vehicles."
    else
      "✅ **Good**: Clear driving conditions with " + desc + "."
  }

  /** Band index of the wind answer: below 5, below 15, below 25, else. */
  function WindBand(windSpeed: int): nat
  {
    if windSpeed < 5 then 0 else if windSpeed < 15 then 1 else if windSpeed < 25 then 2 else 3
  }

  /** Band index of the humidity answer: below 30, below 60, below 80, else. */
  function HumidityBand(humidity: int): nat
  {
    if humidity < 30 then 0 else if humidity < 60 then 1 else if humidity < 80 then 2 else 3
  }

  /** Both bandings are monotone: more wind or more humidity never gives a milder answer. */
  lemma BandsMonotone(x: int, y: int)
    requires x <= y
    ensures WindBand(x) <= WindBand(y) && HumidityBand(x) <= HumidityBand(y)
  {
  }

  function WindText(windSpeed: int): string
  {
    match WindBand(windSpeed)
    case 0 => "Light breeze - very pleasant!"
    case 1 => "Moderate wind - comfortable for most activities."
    case 2 => "Strong wind - secure loose items and dress appropriately."
    case _ => "Very strong wind - be cautious outdoors!"
  }

  function HumidityText(humidity: int): string
  {
    match HumidityBand(humidity)
    case 0 => "Low humidity - you might feel dry. Stay hydrated!"
    case 1 => "Comfortable humidity levels."
    case 2 => "Moderate humidity - might feel a bit muggy."
    case _ => "High humidity - expect it to feel quite muggy and sticky."
  }

  /** `if (weatherData.aqi)`: present and non-zero. */
  predicate AqiTruthy(aqi: Option<int>)
  {
    aqi.Some? && aqi.value != 0
  }

  // ---- The responder ----

  const NeedDataReply: string :=
    "I need weather data to help you properly." + " Please load weather information for your location first!"

  function ClothingReply(w: WeatherData, desc: string): (r: string)
    ensures |r| > 0 && r[0] in Symbols(Clothing)
  {
    "👔" + (" **Clothing Recommendation for " + w.location + ":**\n\n"
    + BandLine(TempBand(w.temperature), w.temperature)
    + ExtrasText(ClothingExtras(desc, w.windSpeed, w.humidity)))
  }

  function AirQualityReply(w: WeatherData, desc: string): (r: string)
    ensures |r| > 0 && r[0] in Symbols(AirQuality)
  {
    "🌬" + ("️ **Air Quality Info for " + w.location + ":**\n\n"
    + (if AqiTruthy(w.aqi) then "Air Quality Index: " + NumText(w.aqi.value) + "\n" else "")
    + "Current conditions: " + desc + " with " + NumText(w.humidity) + "% humidity.\n"
    + (if w.humidity > 80 then "High humidity may affect those with respiratory conditions."
       else "Generally good conditions for outdoor activities."))
  }

  function TemperatureReply(w: WeatherData): (r: string)
    ensures |r| > 0 && r[0] in Symbols(Temperature)
  {
    "🌡" + ("️ **Temperature in " + w.location + "**: " + NumText(w.temperature)
    + "°C (feels like " + NumText(w.feelsLike) + "°C)\n\n"
    + (if w.temperature != w.feelsLike
       then "The \"feels like\" temperature is different due to humidity and wind conditions." else ""))
  }

  function GeneralReply(w: WeatherData): (r: string)
    ensures |r| > 0 && r[0] in Symbols(General)
  {
    "🌤" + ("️ **Current Weather in " + w.location + ":**\n\n"
    + "• Temperature: " + NumText(w.temperature) + "°C (feels like " + NumText(w.feelsLike) + "°C)\n"
    + "• Conditions: " + w.description + "\n"
    + "• Humidity: " + NumText(w.humidity) + "%\n"
    + "• Wind: " + NumText(w.windSpeed) + " m/s\n"
    + "• Pressure: " + NumText(w.pressure) + " hPa")
  }

  function HelpReply(w: WeatherData, desc: string): (r: string)
    ensures |r| > 0 && r[0] in Symbols(Help)
  {
    "🤖" + (" **Weather Assistant**:" + " I can help you with:\n\n"
    + "• **Clothing advice** - \"What should I wear?\"\n"
    + "• **Activity suggestions** - \"What can I do outside?\"\n"
    + "• **Rain/umbrella advice** - \"Should I bring an umbrella?\"\n"
    + "• **Driving conditions** - \"Is it safe to drive?\"\n"
    + "• **Current weather** - Ask about temperature, humidity, wind\n\n"
    + "Current conditions: " + desc + ", " + NumText(w.temperature) + "°C in " + w.location
    + ". What would you like to know?")
  }

  function ActivityReply(w: WeatherData, desc: string): (r: string)
    ensures |r| > 0 && r[0] in Symbols(Activity)
  {
    "🎯" + (" **Activity Suggestions for " + w.location + ":**\n\n" + ActivityText(Activities(w.temperature, desc)))
  }

  function DrivingReply(w: WeatherData, desc: string): (r: string)
    ensures |r| > 0 && r[0] in Symbols(Driving)
  {
    "🚗" + (" **Driving Conditions in " + w.location + ":**\n\n" + DrivingText(desc, w.windSpeed))
  }

  function WindReply(w: WeatherData): (r: string)
    ensures |r| > 0 && r[0] in Symbols(Wind)
  {
    "💨" + (" **Wind Conditions**: " + NumText(w.windSpeed) + " m/s in " + w.location + "\n\n" + WindText(w.windSpeed))
  }

  function HumidityReply(w: WeatherData): (r: string)
    ensures |r| > 0 && r[0] in Symbols(Humidity)
  {
    "💧" + (" **Humidity**: " + NumText(w.humidity) + "% in " + w.location + "\n\n" + HumidityText(w.humidity))
  }

  /** The leading symbol(s) of each branch's reply; the umbrella branch has
      one per verdict, the help text its own. */
  function Symbols(i: Intent): set<char>
  {
    match i
    case Clothing => {'\U{1F454}'}
    case Activity => {'\U{1F3AF}'}
    case Umbrella => {'\U{2614}', '\U{1F32B}', '\U{2600}'}
    case AirQuality => {'\U{1F32C}'}
    case Driving => {'\U{1F697}'}
    case Temperature => {'\U{1F321}'}
    case Wind => {'\U{1F4A8}'}
    case Humidity => {'\U{1F4A7}'}
    case General => {'\U{1F324}'}
    case Help => {'\U{1F916}'}
  }

  /** The reply of one branch; `desc` is the lower-cased description, except in
      the general-weather branch, which shows the description as posted. Every
      reply starts with one of its branch's own symbols. */
  function Reply(i: Intent, w: WeatherData): (r: string)
    ensures |r| > 0 && r[0] in Symbols(i)
  {
    var desc := ToLower(w.description);
    match i
    case Clothing => ClothingReply(w, desc)
    case Activity => ActivityReply(w, desc)
    case Umbrella => UmbrellaReply(desc, w.humidity, w.location)
    case AirQuality => AirQualityReply(w, desc)
    case Driving => DrivingReply(w, desc)
    case Temperature => TemperatureReply(w)
    case Wind => WindReply(w)
    case Humidity => HumidityReply(w)
    case General => GeneralReply(w)
    case Help => HelpReply(w, desc)
  }

  /** The handler's reply to `{ message, weatherData }`. */
  function Respond(message: string, weather: Option<WeatherData>): (r: string)
    ensures weather.None? ==> r == NeedDataReply
    ensures weather.Some? ==> |r| > 0 && r[0] in Symbols(Classify(ToLower(message)))
  {
    match weather
    case None => NeedDataReply
    case Some(w) => Reply(Classify(ToLower(message)), w)
  }

  /** Without a weather record the reply is the fixed request for data, whatever the message. */
  lemma NoWeatherNeedsData(message: string)
    ensures Respond(message, None) == NeedDataReply
  {
  }

  /** No symbol belongs to two branches. */
  lemma SymbolsDisjoint(i: Intent, j: Intent)
    requires i != j
    ensures Symbols(i) !! Symbols(j)
  {
  }

  /** Exactly one branch produces the reply: its leading symbol belongs to
      branch `j` exactly when `j` is the branch the lower-cased message selects. */
  lemma ReplyRevealsBranch(message: string, w: WeatherData, j: Intent)
    ensures var r := Respond(message, Some(w));
            |r| > 0 && (r[0] in Symbols(j) <==> j == Classify(ToLower(message)))
  {
    var i := Classify(ToLower(message));
    if j != i {
      SymbolsDisjoint(i, j);
    }
  }

  /** The no-data reply does not start with any branch's symbol. */
  lemma NeedDataIsNoBranch(j: Intent)
    ensures NeedDataReply[0] !in Symbols(j)
  {
  }

  /** The umbrella answer: yes exactly when the description mentions rain,
      drizzle or showers; otherwise maybe exactly when humidity is above 85;
      otherwise no. */
  lemma UmbrellaVerdict(message: string, w: WeatherData)
    requires Classify(ToLower(message)) == Umbrella
    ensures var r := Respond(message, Some(w));
            var desc := ToLower(w.description);
            && (r[0] == '\U{2614}' <==> Wet(desc))
            && (r[0] == '\U{1F32B}' <==> !Wet(desc) && w.humidity > 85)
            && (r[0] == '\U{2600}' <==> !Wet(desc) && w.humidity <= 85)
  {
  }

  /** The clothing reply is the header, exactly one band line (the band that
      contains the temperature) and then the due extras in their fixed order. */
  lemma ClothingReplyShape(message: string, w: WeatherData)
    requires Classify(ToLower(message)) == Clothing
    ensures exists b: ClothingBand, xs: seq<Extra> {:trigger BandLine(b, w.temperature), ExtrasText(xs)} ::
              && InBand(w.temperature, b)
              && (forall e :: e in xs <==> ExtraDue(e, ToLower(w.description), w.windSpeed, w.humidity))
              && (forall i, j :: 0 <= i < j < |xs| ==> ExtraRank(xs[i]) < ExtraRank(xs[j]))
              && Respond(message, Some(w)) ==
                 "👔" + (" **Clothing Recommendation for " + w.location + ":**\n\n"
                 + BandLine(b, w.temperature) + ExtrasText(xs))
  {
    var desc := ToLower(w.description);
    var b := TempBand(w.temperature);
    var xs := ClothingExtras(desc, w.windSpeed, w.humidity);
    TempBandIsInterval(w.temperature, b);
    ClothingExtrasExact(desc, w.windSpeed, w.humidity);
    assert Respond(message, Some(w)) == ClothingReply(w, desc);
  }
}
