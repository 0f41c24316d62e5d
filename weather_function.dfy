/** The helpers of the `weather` edge function: the icon table, the AQI
    wording, the suggestion list, the choice of upstream query from the
    request, and the UV estimate. */
module WeatherFunction {
  import opened Js

  // ---- Icons ----

  /** OpenWeather icon code -> the application's icon name. */
  const IconMap: map<string, string> := map[
    "01d" := "sunny", "01n" := "clear-night",
    "02d" := "partly-cloudy", "02n" := "partly-cloudy",
    "03d" := "cloudy", "03n" := "cloudy",
    "04d" := "cloudy", "04n" := "cloudy",
    "09d" := "rain", "09n" := "rain",
    "10d" := "rain", "10n" := "rain",
    "11d" := "thunderstorm", "11n" := "thunderstorm",
    "13d" := "snow", "13n" := "snow",
    "50d" := "fog", "50n" := "fog"]

  /** The icon names the table can produce. */
  const IconNames: set<string> :=
    {"sunny", "clear-night", "partly-cloudy", "cloudy", "rain", "thunderstorm", "snow", "fog"}

  /** `iconMap[code] || 'partly-cloudy'`. */
  function MapWeatherIcon(code: string): (r: string)
    ensures r in IconNames
    ensures code !in IconMap ==> r == "partly-cloudy"
    ensures code in IconMap ==> r == IconMap[code]
  {
    if code in IconMap then IconMap[code] else "partly-cloudy"
  }

  /** The two-digit condition groups of OpenWeather's icon codes. */
  const IconGroups: seq<string> := ["01", "02", "03", "04", "09", "10", "11", "13", "50"]

  /** Reference reading of the table by condition group: only the clear-sky
      group distinguishes day from night. */
  function IconByGroup(group: string, daytime: bool): string
  {
    if group == "01" then (if daytime then "sunny" else "clear-night")
    else if group == "02" then "partly-cloudy"
    else if group == "03" || group == "04" then "cloudy"
    else if group == "09" || group == "10" then "rain"
    else if group == "11" then "thunderstorm"
    else if group == "13" then "snow"
    else "fog"
  }

  /** The table agrees with the group reading for every listed daytime code. */
  lemma IconTableDay(k: nat)
    requires k < |IconGroups|
    ensures var code := IconGroups[k] + "d";
            code in IconMap && MapWeatherIcon(code) == IconByGroup(IconGroups[k], true)
  {
    var g := IconGroups[k];
    assert g + "d" == [g[0], g[1], 'd'];
  }

  /** The table agrees with the group reading for every listed night code. */
  lemma IconTableNight(k: nat)
    requires k < |IconGroups|
    ensures var code := IconGroups[k] + "n";
            code in IconMap && MapWeatherIcon(code) == IconByGroup(IconGroups[k], false)
  {
    var g := IconGroups[k];
    assert g + "n" == [g[0], g[1], 'n'];
  }

  /** The table agrees with the group reading for every listed code, day ('d')
      and night ('n'). */
  lemma IconTableByGroup(k: nat, daytime: bool)
    requires k < |IconGroups|
    ensures var code := IconGroups[k] + (if daytime then "d" else "n");
            code in IconMap && MapWeatherIcon(code) == IconByGroup(IconGroups[k], daytime)
  {
    if daytime {
      IconTableDay(k);
    } else {
      IconTableNight(k);
    }
  }

  /** Day and night icons differ only for a clear sky. */
  lemma DayNightDifferOnlyWhenClear(k: nat)
    requires k < |IconGroups|
    ensures IconByGroup(IconGroups[k], true) != IconByGroup(IconGroups[k], false) <==> k == 0
  {
  }

  // ---- Air quality wording ----

  /** The wording of the 1..5 OpenWeather air-quality index. */
  const AqiNames: seq<string> := ["Good", "Fair", "Moderate", "Poor", "Very Poor"]

  /** `getAQIDescription`: no value or 0 is 'No data', 1..5 are named,
      anything else is 'Unknown'. */
  function AqiDescription(aqi: Option<int>): (r: string)
    ensures r == "No data" <==> aqi == None || aqi == Some(0)
    ensures aqi.Some? && 1 <= aqi.value <= 5 ==> r == AqiNames[aqi.value - 1]
    ensures aqi.Some? && aqi.value != 0 && !(1 <= aqi.value <= 5) ==> r == "Unknown"
  {
    if aqi.None? || aqi.value == 0 then "No data"
    else match aqi.value
      case 1 => "Good"
      case 2 => "Fair"
      case 3 => "Moderate"
      case 4 => "Poor"
      case 5 => "Very Poor"
      case _ => "Unknown"
  }

  // ---- Suggestions ----

  /** What `generateWeatherSuggestions` reads from the upstream records:
      temperature in °C, humidity in %, wind in m/s, the main condition word
      and the air-quality index. */
  datatype Conditions = Conditions(temp: real, humidity: real, windMs: real, weatherMain: string, aqi: Option<int>)

  /** The sixteen suggestions the rules can make; `TipText` gives their wording. */
  datatype Tip =
    | BundleUp | IcyConditions | WarmJacket | LightJacket | SeekShade | Sunscreen
    | Umbrella | WaterproofShoes | SlipperyRoads | GlovesAndBoots
    | WindyItems | HumidWarmer | Mask | LimitOutdoor | Walk | OutdoorActivities

  function TipText(t: Tip): string
  {
    match t
    case BundleUp => "🧥 Bundle up! It's freezing outside"
    case IcyConditions => "❄️ Watch out for icy conditions"
    case WarmJacket => "🧥 Wear a warm jacket"
    case LightJacket => "👕 Light jacket recommended"
    case SeekShade => "☀️ Stay hydrated and seek shade"
    case Sunscreen => "👒 Wear sunscreen and a hat"
    case Umbrella => "☂️ Don't forget your umbrella!"
    case WaterproofShoes => "👟 Wear waterproof shoes"
    case SlipperyRoads => "❄️ Drive carefully - roads may be slippery"
    case GlovesAndBoots => "🧤 Wear gloves and warm boots"
    case WindyItems => "💨 It's quite windy - secure loose items"
    case HumidWarmer => "💧 High humidity - expect it to feel warmer"
    case Mask => "😷 Poor air quality - consider wearing a mask"
    case LimitOutdoor => "🏠 Limit outdoor activities"
    case Walk => "🚶‍♂️ Great weather for a walk!"
    case OutdoorActivities => "☀️ Perfect weather for outdoor activities"
  }

  /** The wording of a list of suggestions, in order. */
  function Texts(ts: seq<Tip>): (r: seq<string>)
    ensures |r| == |ts| && forall i :: 0 <= i < |ts| ==> r[i] == TipText(ts[i])
  {
    if ts == [] then [] else [TipText(ts[0])] + Texts(ts[1..])
  }

  /** Wind in km/h, as the rules compare it. */
  function WindKmh(c: Conditions): real
  {
    c.windMs * 3.6
  }

  predicate Raining(c: Conditions)
  {
    Includes(ToLower(c.weatherMain), "rain")
  }

  predicate Snowing(c: Conditions)
  {
    Includes(ToLower(c.weatherMain), "snow")
  }

  /** `aqi && aqi >= 4`. */
  predicate PoorAir(c: Conditions)
  {
    c.aqi.Some? && c.aqi.value != 0 && c.aqi.value >= 4
  }

  /** The temperature rule: at most one of its four cases applies. */
  function TempRule(t: real): seq<Tip>
  {
    if t < 0.0 then [BundleUp, IcyConditions]
    else if t < 10.0 then [WarmJacket]
    else if t < 20.0 then [LightJacket]
    else if t > 30.0 then [SeekShade, Sunscreen]
    else []
  }

  // The rules after the temperature rule, in the order they are tested.

  function RainRule(c: Conditions): seq<Tip>
  {
    if Raining(c) then [Umbrella, WaterproofShoes] else []
  }

  function SnowRule(c: Conditions): seq<Tip>
  {
    if Snowing(c) then [SlipperyRoads, GlovesAndBoots] else []
  }

  function WindRule(c: Conditions): seq<Tip>
  {
    if WindKmh(c) > 20.0 then [WindyItems] else []
  }

  function HumidityRule(c: Conditions): seq<Tip>
  {
    if c.humidity > 80.0 then [HumidWarmer] else []
  }

  function AirRule(c: Conditions): seq<Tip>
  {
    if PoorAir(c) then [Mask, LimitOutdoor] else []
  }

  function WalkRule(c: Conditions): seq<Tip>
  {
    if !Raining(c) && !Snowing(c) && 15.0 <= c.temp <= 25.0 && WindKmh(c) < 15.0 then [Walk] else []
  }

  function OutdoorRule(c: Conditions): seq<Tip>
  {
    if c.temp >= 20.0 && !Raining(c) then [OutdoorActivities] else []
  }

  /** The suggestions tested before the air-quality rule. */
  function BeforeAir(c: Conditions): seq<Tip>
  {
    TempRule(c.temp) + RainRule(c) + SnowRule(c) + WindRule(c) + HumidityRule(c)
  }

  /** Every suggestion whose rule applies, in rule order, before the cap. */
  function AllTips(c: Conditions): seq<Tip>
  {
    BeforeAir(c) + AirRule(c) + WalkRule(c) + OutdoorRule(c)
  }

  function Min(a: int, b: int): int
  {
    if a <= b then a else b
  }

  /** The suggestions shown: the first three of the rule-ordered list. */
  function Shown(c: Conditions): (r: seq<Tip>)
    ensures |r| <= 3 && |r| == Min(3, |AllTips(c)|)
    ensures forall i :: 0 <= i < |r| ==> r[i] == AllTips(c)[i]
  {
    var all := AllTips(c);
    if |all| <= 3 then all else all[..3]
  }

  /** `generateWeatherSuggestions`: the rules push onto a list, which is then
      cut to its first three entries. The pushes are grouped as the source's
      comments group them. */
  method GenerateWeatherSuggestions(c: Conditions) returns (s: seq<string>)
    ensures s == Texts(Shown(c))
  {
    var suggestions: seq<Tip> := [];
    suggestions := PushTemperatureTips(suggestions, c.temp);
    assert suggestions == TempRule(c.temp);
    suggestions := PushConditionTips(suggestions, c);
    suggestions := PushAirTips(suggestions, c);
    suggestions := PushActivityTips(suggestions, c);
    var capped := if |suggestions| <= 3 then suggestions else suggestions[..3];
    s := Texts(capped);
  }

  /** Temperature-based suggestions. */
  method PushTemperatureTips(suggestions: seq<Tip>, temp: real) returns (r: seq<Tip>)
    ensures r == suggestions + TempRule(temp)
  {
    r := suggestions;
    if temp < 0.0 {
      r := r + [BundleUp];
      r := r + [IcyConditions];
    } else if temp < 10.0 {
      r := r + [WarmJacket];
    } else if temp < 20.0 {
      r := r + [LightJacket];
    } else if temp > 30.0 {
      r := r + [SeekShade];
      r := r + [Sunscreen];
    }
  }

  /** Weather-condition suggestions: rain, snow, wind, humidity. */
  method PushConditionTips(suggestions: seq<Tip>, c: Conditions) returns (r: seq<Tip>)
    ensures r == suggestions + RainRule(c) + SnowRule(c) + WindRule(c) + HumidityRule(c)
  {
    var windSpeed := c.windMs * 3.6;
    var weatherMain := ToLower(c.weatherMain);
    var isRaining := Includes(weatherMain, "rain");
    var isSnowing := Includes(weatherMain, "snow");
    r := suggestions;
    if isRaining {
      r := r + [Umbrella];
      r := r + [WaterproofShoes];
    }
    if isSnowing {
      r := r + [SlipperyRoads];
      r := r + [GlovesAndBoots];
    }
    if windSpeed > 20.0 {
      r := r + [WindyItems];
    }
    if c.humidity > 80.0 {
      r := r + [HumidWarmer];
    }
  }

  /** Air-quality suggestions. */
  method PushAirTips(suggestions: seq<Tip>, c: Conditions) returns (r: seq<Tip>)
    ensures r == suggestions + AirRule(c)
  {
    r := suggestions;
    if c.aqi.Some? && c.aqi.value != 0 && c.aqi.value >= 4 {
      r := r + [Mask];
      r := r + [LimitOutdoor];
    }
  }

  /** Activity suggestions. */
  method PushActivityTips(suggestions: seq<Tip>, c: Conditions) returns (r: seq<Tip>)
    ensures r == suggestions + WalkRule(c) + OutdoorRule(c)
  {
    var temp := c.temp;
    var windSpeed := c.windMs * 3.6;
    var weatherMain := ToLower(c.weatherMain);
    var isRaining := Includes(weatherMain, "rain");
    var isSnowing := Includes(weatherMain, "snow");
    r := suggestions;
    if !isRaining && !isSnowing && temp >= 15.0 && temp <= 25.0 && windSpeed < 15.0 {
      r := r + [Walk];
    }
    if temp >= 20.0 && !isRaining {
      r := r + [OutdoorActivities];
    }
  }

  /** The temperature cases exclude one another: two suggestions below 0 °C or
      above 30 °C, one from 0 up to 20 °C, none from 20 to 30 °C inclusive. */
  lemma TemperatureRulesExclusive(t: real)
    ensures |TempRule(t)| == 2 <==> t < 0.0 || t > 30.0
    ensures |TempRule(t)| == 1 <==> 0.0 <= t < 20.0
    ensures TempRule(t) == [] <==> 20.0 <= t <= 30.0
  {
  }

  /** The rain pair comes right after the temperature suggestions. */
  lemma RainPairAt(c: Conditions)
    requires Raining(c)
    ensures var n := |TempRule(c.temp)|;
            AllTips(c)[n..n + 2] == [Umbrella, WaterproofShoes]
  {
  }

  /** The snow pair comes right after the temperature and rain suggestions. */
  lemma SnowPairAt(c: Conditions)
    requires Snowing(c)
    ensures var n := |TempRule(c.temp) + RainRule(c)|;
            AllTips(c)[n..n + 2] == [SlipperyRoads, GlovesAndBoots]
  {
  }

  /** The air-quality pair comes right after the temperature, rain, snow,
      wind and humidity suggestions. */
  lemma AirPairAt(c: Conditions)
    requires PoorAir(c)
    ensures var n := |BeforeAir(c)|;
            AllTips(c)[n..n + 2] == [Mask, LimitOutdoor]
  {
  }

  /** No rule before the air-quality rule suggests a mask. */
  lemma MaskNotBeforeAir(c: Conditions)
    ensures forall j :: 0 <= j < |BeforeAir(c)| ==> BeforeAir(c)[j] != Mask
  {
  }

  /** A mask in the full list sits right after the suggestions tested before
      the air-quality rule, and only when the air is poor. */
  lemma MaskOnlyFromAir(c: Conditions, i: int)
    requires 0 <= i < |AllTips(c)| && AllTips(c)[i] == Mask
    ensures PoorAir(c) && i == |BeforeAir(c)|
  {
    MaskNotBeforeAir(c);
  }

  /** The mask advice is shown exactly when the air is poor and fewer than
      three suggestions come before it. */
  lemma MaskShownWhen(c: Conditions)
    ensures Mask in Shown(c) <==> PoorAir(c) && |BeforeAir(c)| < 3
  {
    var before := BeforeAir(c);
    if Mask in Shown(c) {
      var i :| 0 <= i < |Shown(c)| && Shown(c)[i] == Mask;
      MaskOnlyFromAir(c, i);
    }
    if PoorAir(c) && |before| < 3 {
      assert AllTips(c)[|before|] == Mask;
      assert Shown(c)[|before|] == Mask;
    }
  }

  /** The temperature suggestions always survive the cap and come first. */
  lemma TemperatureSuggestionsFirst(c: Conditions)
    ensures |TempRule(c.temp)| <= |Shown(c)| && Shown(c)[..|TempRule(c.temp)|] == TempRule(c.temp)
  {
    var t := TempRule(c.temp);
    assert AllTips(c)[..|t|] == t;
  }

  /** On a freezing rainy day the cap drops the second rain suggestion and
      everything after it. */
  lemma FreezingRainKeepsThree(c: Conditions)
    requires c.temp < 0.0 && Raining(c)
    ensures Shown(c) == [BundleUp, IcyConditions, Umbrella]
  {
    var all := AllTips(c);
    assert all[..3] == [BundleUp, IcyConditions, Umbrella];
  }

  // ---- Choice of the upstream query ----

  /** The JSON body, already rendered as the handler renders it:
      `body.city?.toString()` and `String(body.lat)` / `String(body.lon)` when
      the field is present. */
  datatype JsonBody = JsonBody(city: Option<string>, lat: Option<string>, lon: Option<string>)

  /** The parts of the HTTP request the handler reads. `body` is `None` when the
      body does not parse as JSON. */
  datatype EdgeRequest = EdgeRequest(
    httpMethod: string,
    contentType: Option<string>,
    queryCity: Option<string>,
    queryLat: Option<string>,
    queryLon: Option<string>,
    body: Option<JsonBody>)

  /** Where the air-quality data comes from. */
  datatype AirSource = AirByCoordinates | AirAfterWeather | NoAir

  datatype EdgeRoute =
    | Preflight                                           // 'ok' to OPTIONS
    | EdgeByCity(city: string, air: AirSource)
    | EdgeByCoordinates(lat: string, lon: string, air: AirSource)
    | EdgeFailure(status: int, message: string)

  predicate Truthy(s: Option<string>)
  {
    s.Some? && s.value != ""
  }

  /** The body is consulted only for a non-GET request that carries none of
      the three query parameters and declares a JSON content type. */
  predicate ReadsBody(req: EdgeRequest)
  {
    && !Truthy(req.queryCity) && !Truthy(req.queryLat) && !Truthy(req.queryLon)
    && req.httpMethod != "GET"
    && Includes(if req.contentType.Some? then req.contentType.value else "", "application/json")
  }

  /** The effective city, latitude and longitude after the optional body merge. */
  function Inputs(req: EdgeRequest): (r: (Option<string>, Option<string>, Option<string>))
    ensures !ReadsBody(req) || req.body.None? ==> r == (req.queryCity, req.queryLat, req.queryLon)
  {
    if ReadsBody(req) && req.body.Some? then
      var b := req.body.value;
      ( if Truthy(b.city) then b.city else req.queryCity,
        if b.lat.Some? then b.lat else req.queryLat,
        if b.lon.Some? then b.lon else req.queryLon )
    else (req.queryCity, req.queryLat, req.queryLon)
  }

  /** The handler up to the upstream calls: preflight, the key check, the
      optional body merge, the city-first choice, and the air-quality source.
      Every thrown error becomes a 400. */
  function SelectQuery(req: EdgeRequest, apiKey: Option<string>): (r: EdgeRoute)
    ensures r.EdgeByCity? ==> Truthy(Some(r.city))
    ensures r.EdgeFailure? ==> r.status == 400
  {
    if req.httpMethod == "OPTIONS" then Preflight
    else if !Truthy(apiKey) then EdgeFailure(400, "OpenWeather API key not configured")
    else
      var (city, lat, lon) := Inputs(req);
      var air := if Truthy(lat) && Truthy(lon) then AirByCoordinates else NoAir;
      if Truthy(city) then EdgeByCity(city.value, if air == AirByCoordinates then air else AirAfterWeather)
      else if Truthy(lat) && Truthy(lon) then EdgeByCoordinates(lat.value, lon.value, air)
      else EdgeFailure(400, "Either city name or coordinates (lat, lon) are required")
  }

  /** The city takes priority over coordinates; coordinates are used only
      without a city; with neither the answer is the 400. */
  lemma CityFirst(req: EdgeRequest, apiKey: Option<string>)
    requires req.httpMethod != "OPTIONS" && Truthy(apiKey)
    ensures var (city, lat, lon) := Inputs(req);
            && (SelectQuery(req, apiKey).EdgeByCity? <==> Truthy(city))
            && (SelectQuery(req, apiKey).EdgeByCoordinates? <==> !Truthy(city) && Truthy(lat) && Truthy(lon))
            && (SelectQuery(req, apiKey).EdgeFailure? <==> !Truthy(city) && !(Truthy(lat) && Truthy(lon)))
  {
  }

  /** A request the handler does not read the body of is answered the same
      whatever its body holds. */
  lemma BodyIgnoredUnlessRead(req: EdgeRequest, other: Option<JsonBody>, apiKey: Option<string>)
    requires !ReadsBody(req)
    ensures SelectQuery(req, apiKey) == SelectQuery(req.(body := other), apiKey)
  {
    assert !ReadsBody(req.(body := other));
  }

  /** Query coordinates are strings, so "0" is a usable coordinate here. */
  lemma ZeroCoordinatesAccepted(req: EdgeRequest, apiKey: Option<string>)
    requires req.httpMethod != "OPTIONS" && Truthy(apiKey)
    requires req.queryCity == None && req.queryLat == Some("0") && req.queryLon == Some("0")
    ensures SelectQuery(req, apiKey) == EdgeByCoordinates("0", "0", AirByCoordinates)
  {
  }

  // ---- UV estimate ----

  /** `Math.round`: the nearest integer, halves rounded up. */
  function Round(x: real): (n: int)
    ensures x - 0.5 < n as real <= x + 0.5
  {
    (x + 0.5).Floor
  }

  /** The UV estimate: 0 outside 6:00-18:59; otherwise ten minus a tenth of
      the cloud cover (not below 0), scaled by 0.7 outside 10:00-14:59, rounded. */
  function UvIndex(hour: int, cloudiness: real): (r: int)
    ensures !(6 <= hour <= 18) ==> r == 0
    ensures 0 <= r
    ensures cloudiness >= 0.0 ==> r <= 10
  {
    if 6 <= hour <= 18 then
      var baseUv := if 10.0 - cloudiness / 10.0 > 0.0 then 10.0 - cloudiness / 10.0 else 0.0;
      var timeMultiplier := if 10 <= hour <= 14 then 1.0 else 0.7;
      Round(baseUv * timeMultiplier)
    else 0
  }

  /** `Round` never decreases when its argument grows. */
  lemma RoundMonotone(x: real, y: real)
    requires x <= y
    ensures Round(x) <= Round(y)
  {
  }

  /** More cloud never raises the estimate, and midday is never lower than
      another daytime hour. */
  lemma UvMonotone(hour: int, other: int, c1: real, c2: real)
    requires c1 <= c2
    ensures UvIndex(hour, c2) <= UvIndex(hour, c1)
    ensures 10 <= hour <= 14 && 6 <= other <= 18 ==> UvIndex(other, c1) <= UvIndex(hour, c1)
  {
    if 6 <= hour <= 18 {
      var b1 := if 10.0 - c1 / 10.0 > 0.0 then 10.0 - c1 / 10.0 else 0.0;
      var b2 := if 10.0 - c2 / 10.0 > 0.0 then 10.0 - c2 / 10.0 else 0.0;
      var m := if 10 <= hour <= 14 then 1.0 else 0.7;
      assert b2 * m <= b1 * m;
      RoundMonotone(b2 * m, b1 * m);
      if 10 <= hour <= 14 && 6 <= other <= 18 {
        var m2 := if 10 <= other <= 14 then 1.0 else 0.7;
        assert b1 * m2 <= b1 * 1.0;
        RoundMonotone(b1 * m2, b1 * 1.0);
      }
    }
  }
}
