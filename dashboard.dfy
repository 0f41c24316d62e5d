/** The dashboard page's own logic: the air-quality colour, the name shown
    in the greeting, how a weather payload replaces what is on screen, the
    city search box, and the picture chosen for an icon name. */
module Dashboard {
  import opened Js
  import WeatherFunction
  import Forecast

  // ---- Air-quality colour ----

  /** The six colour bands of `getAQIColor`, mildest first. */
  datatype AqiBand = Green | Yellow | Orange | Red | Purple | DarkRed

  /** The style class of a band. */
  function BandClass(b: AqiBand): string
  {
    match b
    case Green => "bg-green-500"
    case Yellow => "bg-yellow-500"
    case Orange => "bg-orange-500"
    case Red => "bg-red-500"
    case Purple => "bg-purple-500"
    case DarkRed => "bg-red-800"
  }

  /** Position of a band from mildest (0) to worst (5). */
  function Rank(b: AqiBand): nat
  {
    match b
    case Green => 0
    case Yellow => 1
    case Orange => 2
    case Red => 3
    case Purple => 4
    case DarkRed => 5
  }

  /** The upper ends of the first five bands. */
  const Bounds: seq<int> := [50, 100, 150, 200, 300]

  /** How many of `bounds` lie strictly below `aqi`. */
  function Passed(bounds: seq<int>, aqi: int): (n: nat)
    ensures n <= |bounds|
  {
    if bounds == [] then 0
    else (if bounds[0] < aqi then 1 else 0) + Passed(bounds[1..], aqi)
  }

  /** A larger value never passes fewer bounds. */
  lemma {:induction false} PassedMonotone(bounds: seq<int>, a: int, b: int)
    requires a <= b
    ensures Passed(bounds, a) <= Passed(bounds, b)
  {
    if bounds != [] {
      PassedMonotone(bounds[1..], a, b);
    }
  }

  /** `getAQIColor`: green up to 50, dark red above 300. */
  function AqiColor(aqi: int): (b: AqiBand)
    ensures b == Green <==> aqi <= 50
    ensures b == DarkRed <==> aqi > 300
  {
    if aqi <= 50 then Green
    else if aqi <= 100 then Yellow
    else if aqi <= 150 then Orange
    else if aqi <= 200 then Red
    else if aqi <= 300 then Purple
    else DarkRed
  }

  /** The bands as intervals: up to 50 green, to 100 yellow, to 150 orange,
      to 200 red, to 300 purple, above that dark red. */
  lemma AqiColorBands(aqi: int)
    ensures AqiColor(aqi) == Green <==> aqi <= 50
    ensures AqiColor(aqi) == Yellow <==> 50 < aqi <= 100
    ensures AqiColor(aqi) == Orange <==> 100 < aqi <= 150
    ensures AqiColor(aqi) == Red <==> 150 < aqi <= 200
    ensures AqiColor(aqi) == Purple <==> 200 < aqi <= 300
    ensures AqiColor(aqi) == DarkRed <==> 300 < aqi
  {
  }

  /** The band is the number of band limits the value is above. */
  lemma AqiColorCountsBounds(aqi: int)
    ensures Rank(AqiColor(aqi)) == Passed(Bounds, aqi)
  {
    var b1, b2, b3, b4 := [100, 150, 200, 300], [150, 200, 300], [200, 300], [300];
    assert Bounds[1..] == b1 && b1[1..] == b2 && b2[1..] == b3 && b3[1..] == b4 && b4[1..] == [];
    assert Passed(b4, aqi) == (if 300 < aqi then 1 else 0);
    assert Passed(b3, aqi) == (if 200 < aqi then 1 else 0) + Passed(b4, aqi);
    assert Passed(b2, aqi) == (if 150 < aqi then 1 else 0) + Passed(b3, aqi);
    assert Passed(b1, aqi) == (if 100 < aqi then 1 else 0) + Passed(b2, aqi);
    assert Passed(Bounds, aqi) == (if 50 < aqi then 1 else 0) + Passed(b1, aqi);
  }

  /** A worse air-quality value never gets a milder colour. */
  lemma AqiColorMonotone(a: int, b: int)
    requires a <= b
    ensures Rank(AqiColor(a)) <= Rank(AqiColor(b))
  {
    AqiColorCountsBounds(a);
    AqiColorCountsBounds(b);
    PassedMonotone(Bounds, a, b);
  }

  /** The weather edge function reports the air quality on OpenWeather's
      1..5 scale, while the colour bands are laid out for a 0..500 scale:
      every value of that scale, 'Very Poor' included, is coloured green. */
  lemma EdgeScaleIsAlwaysGreen(aqi: int)
    requires 1 <= aqi <= 5
    ensures AqiColor(aqi) == Green
    ensures WeatherFunction.AqiDescription(Some(aqi)) == WeatherFunction.AqiNames[aqi - 1]
  {
  }

  // ---- Greeting name ----

  /** The signed-in user as the page sees it: the name and e-mail may be
      absent. */
  datatype ProfileUser = ProfileUser(fullName: Option<string>, email: Option<string>)

  /** A string value that is present and not empty (JavaScript truthiness). */
  predicate Filled(s: Option<string>)
  {
    s.Some? && s.value != []
  }

  /** The greeting name: the full name when it is filled in, otherwise the
      part of the e-mail before the first '@' when that is not empty,
      otherwise 'User'. It is never empty. */
  function DisplayName(u: ProfileUser): (r: string)
    ensures r != []
    ensures Filled(u.fullName) ==> r == u.fullName.value
    ensures !Filled(u.fullName) && u.email.Some? && LocalPart(u.email.value) != [] ==>
              |r| <= |u.email.value| && r == u.email.value[..|r|] && '@' !in r
              && (|r| < |u.email.value| ==> u.email.value[|r|] == '@')
    ensures !Filled(u.fullName) && (u.email.None? || LocalPart(u.email.value) == []) ==> r == "User"
  {
    if Filled(u.fullName) then u.fullName.value
    else if u.email.Some? && LocalPart(u.email.value) != [] then LocalPart(u.email.value)
    else "User"
  }

  /** Without a full name, the greeting is taken from the e-mail exactly
      when the e-mail does not start with '@' (nor is empty). */
  lemma {:induction false} NameFromEmail(u: ProfileUser)
    requires !Filled(u.fullName) && u.email.Some?
    ensures LocalPart(u.email.value) != [] <==> u.email.value != [] && u.email.value[0] != '@'
    ensures u.email.value != [] && u.email.value[0] != '@' ==> DisplayName(u) == LocalPart(u.email.value)
  {
    var e := u.email.value;
    if e != [] && e[0] != '@' {
      assert LocalPart(e) == [e[0]] + Before(e[1..], '@');
    }
  }

  /** `fetchUserProfile`: with no signed-in user the greeting is left as it
      was; otherwise it becomes the display name. */
  function ProfileName(user: Option<ProfileUser>, current: string): (r: string)
    ensures user.None? ==> r == current
    ensures user.Some? ==> r == DisplayName(user.value)
  {
    if user.None? then current else DisplayName(user.value)
  }

  // ---- Weather on screen ----

  /** The current conditions the page shows. The remaining display fields
      (country, coordinates, feels-like, pressure, visibility, UV,
      cloudiness, precipitation, suggestions) are copied unchanged and are
      not modelled. */
  datatype Current = Current(
    location: string, temperature: int, description: string, icon: string,
    aqi: Option<int>, sunrise: string, sunset: string)

  /** The `current` part of a payload; sunrise and sunset may be missing. */
  datatype CurrentPayload = CurrentPayload(
    location: string, temperature: int, description: string, icon: string,
    aqi: Option<int>, sunrise: Option<string>, sunset: Option<string>)

  /** A payload: each part may be absent. */
  datatype Payload = Payload(
    current: Option<CurrentPayload>,
    forecast: Option<seq<Forecast.DailyForecast>>,
    hourly: Option<seq<Forecast.HourlyForecast>>)

  /** What is on screen: the current conditions (none before the first
      load) and the two forecast lists. */
  datatype Screen = Screen(
    weather: Option<Current>,
    forecast: seq<Forecast.DailyForecast>,
    hourly: seq<Forecast.HourlyForecast>)

  /** `value || fallback` on an optional string. */
  function OrElse(value: Option<string>, fallback: string): (r: string)
    ensures Filled(value) ==> r == value.value
    ensures !Filled(value) ==> r == fallback
  {
    if Filled(value) then value.value else fallback
  }

  /** The current conditions shown for a payload: sunrise and sunset fall
      back to '06:00' and '18:00' when missing or empty, the rest is copied. */
  function Shown(c: CurrentPayload): (r: Current)
    ensures r.sunrise == OrElse(c.sunrise, "06:00") && r.sunset == OrElse(c.sunset, "18:00")
    ensures r.sunrise != [] && r.sunset != []
    ensures r.location == c.location && r.temperature == c.temperature
    ensures r.description == c.description && r.icon == c.icon && r.aqi == c.aqi
  {
    Current(c.location, c.temperature, c.description, c.icon, c.aqi,
            OrElse(c.sunrise, "06:00"), OrElse(c.sunset, "18:00"))
  }

  /** `updateWeatherData`: each part of the screen is replaced only when the
      payload carries it; an empty forecast list counts as carried. */
  function UpdateWeatherData(s: Screen, p: Payload): (r: Screen)
    ensures r.weather == (if p.current.Some? then Some(Shown(p.current.value)) else s.weather)
    ensures r.forecast == (if p.forecast.Some? then p.forecast.value else s.forecast)
    ensures r.hourly == (if p.hourly.Some? then p.hourly.value else s.hourly)
  {
    Screen(
      if p.current.Some? then Some(Shown(p.current.value)) else s.weather,
      if p.forecast.Some? then p.forecast.value else s.forecast,
      if p.hourly.Some? then p.hourly.value else s.hourly)
  }

  /** Shown conditions always carry a sunrise and a sunset. */
  predicate SunTimesSet(s: Screen)
  {
    s.weather.Some? ==> s.weather.value.sunrise != [] && s.weather.value.sunset != []
  }

  /** Updating keeps sunrise and sunset filled in. */
  lemma UpdateKeepsSunTimes(s: Screen, p: Payload)
    requires SunTimesSet(s)
    ensures SunTimesSet(UpdateWeatherData(s, p))
  {
  }

  /** Applying the same payload twice is the same as applying it once, and
      an empty payload changes nothing. */
  lemma UpdateIdempotent(s: Screen, p: Payload)
    ensures UpdateWeatherData(UpdateWeatherData(s, p), p) == UpdateWeatherData(s, p)
    ensures UpdateWeatherData(s, Payload(None, None, None)) == s
  {
  }

  /** A later payload wins over an earlier one for every part it carries. */
  lemma LaterPayloadWins(s: Screen, p: Payload, q: Payload)
    requires q.current.Some? && q.forecast.Some? && q.hourly.Some?
    ensures UpdateWeatherData(UpdateWeatherData(s, p), q) == UpdateWeatherData(s, q)
  {
  }

  // ---- City search ----

  /** The weather server's answer to a city search: its fields, or a
      failure (a non-OK status or a network error). */
  datatype SearchReply =
    | Found(location: string, temperature: int, description: string, icon: string)
    | SearchFailed

  /** The payload a found city becomes: only current conditions, with no
      air quality, sunrise or sunset. */
  function SearchPayload(location: string, temperature: int, description: string, icon: string): (p: Payload)
    ensures p.current.Some? && p.forecast.None? && p.hourly.None?
    ensures p.current.value.sunrise.None? && p.current.value.sunset.None?
  {
    Payload(Some(CurrentPayload(location, temperature, description, icon, None, None, None)), None, None)
  }

  /** After one submission of the search form: the city sent (none when
      nothing was sent), the screen, and the search box. */
  datatype SearchOutcome = SearchOutcome(sent: Option<string>, screen: Screen, box: string)

  /** `handleSearch`: a blank box sends nothing and leaves the box as it is;
      otherwise the trimmed text is sent, a found city replaces the current
      conditions, and the box is cleared whatever the answer. */
  function Search(box: string, reply: SearchReply, s: Screen): (o: SearchOutcome)
    ensures IsBlank(box) ==> o == SearchOutcome(None, s, box)
    ensures !IsBlank(box) ==> o.sent == Some(Trim(box)) && o.box == []
    ensures !IsBlank(box) && reply.SearchFailed? ==> o.screen == s
  {
    TrimProperties(box);
    if Trim(box) == [] then SearchOutcome(None, s, box)
    else
      var screen := match reply
        case Found(location, temperature, description, icon) =>
          UpdateWeatherData(s, SearchPayload(location, temperature, description, icon))
        case SearchFailed => s;
      SearchOutcome(Some(Trim(box)), screen, [])
  }

  /** The city sent is never empty, neither starts nor ends with
      whitespace, and is a piece of what was typed. */
  lemma SentCityIsTrimmed(box: string, reply: SearchReply, s: Screen)
    ensures var o := Search(box, reply, s);
            o.sent.Some? ==>
              o.sent.value != [] && !IsSpace(o.sent.value[0]) && !IsSpace(o.sent.value[|o.sent.value| - 1])
              && exists i, j :: 0 <= i <= j <= |box| && o.sent.value == box[i..j]
  {
    TrimProperties(box);
  }

  /** A search keeps the forecast lists and shows the default sunrise and
      sunset for the city it finds. */
  lemma SearchShowsDefaultSunTimes(box: string, reply: SearchReply, s: Screen)
    requires !IsBlank(box) && reply.Found?
    ensures var o := Search(box, reply, s);
            o.screen.forecast == s.forecast && o.screen.hourly == s.hourly
            && o.screen.weather.Some?
            && o.screen.weather.value.sunrise == "06:00" && o.screen.weather.value.sunset == "18:00"
            && o.screen.weather.value.location == reply.location
            && o.screen.weather.value.aqi.None?
    ensures var o := Search(box, reply, s);
            o.screen.weather == Some(Shown(CurrentPayload(reply.location, reply.temperature, reply.description,
                                                          reply.icon, None, None, None)))
  {
  }

  // ---- Icon pictures ----

  /** The pictures `getWeatherIcon` draws. */
  datatype Glyph = Sun | Moon | CloudGlyph | CloudRain | CloudLightning | Snowflake | Waves

  datatype Motion = Still | Pulse | Bounce | Spin

  /** A picture, its colour class and its animation; the size class passed
      by the caller is not modelled. */
  datatype IconView = IconView(glyph: Glyph, tone: string, motion: Motion)

  /** The picture for names the page does not know: a still yellow sun. */
  const DefaultIcon: IconView := IconView(Sun, "text-yellow-500", Still)

  /** `getWeatherIcon`: each icon name the weather edge function produces
      has its own picture; any other name gets the default sun. */
  function WeatherIcon(iconType: string): (v: IconView)
    ensures iconType !in WeatherFunction.IconNames ==> v == DefaultIcon
    ensures iconType in WeatherFunction.IconNames ==> v != DefaultIcon
    ensures v.glyph == Sun <==> iconType == "sunny" || iconType !in WeatherFunction.IconNames
  {
    if iconType == "sunny" then IconView(Sun, "text-yellow-500", Pulse)
    else if iconType == "clear-night" then IconView(Moon, "text-blue-300", Still)
    else if iconType == "partly-cloudy" then IconView(CloudGlyph, "text-gray-500", Still)
    else if iconType == "cloudy" then IconView(CloudGlyph, "text-gray-600", Still)
    else if iconType == "rain" then IconView(CloudRain, "text-blue-500", Bounce)
    else if iconType == "thunderstorm" then IconView(CloudLightning, "text-purple-600", Pulse)
    else if iconType == "snow" then IconView(Snowflake, "text-blue-200", Spin)
    else if iconType == "fog" then IconView(Waves, "text-gray-400", Still)
    else DefaultIcon
  }

  /** Different known names get different pictures. */
  lemma KnownIconsDistinct(a: string, b: string)
    requires a in WeatherFunction.IconNames && b in WeatherFunction.IconNames && a != b
    ensures WeatherIcon(a) != WeatherIcon(b)
  {
  }

  /** Every name the edge function's icon table yields has its own picture. */
  lemma MappedIconsAreDrawn(code: string)
    ensures WeatherIcon(WeatherFunction.MapWeatherIcon(code)) != DefaultIcon
  {
  }

  /** OpenWeather's icon codes are not icon names. */
  lemma RawCodeIsNotName(code: string)
    requires code in WeatherFunction.IconMap
    ensures code !in WeatherFunction.IconNames
  {
  }

  /** The weather server passes OpenWeather's raw icon code (such as '10d')
      through, and the search shows it as is: every such code is drawn as
      the default sun. */
  lemma RawCodesFallBackToSun(box: string, location: string, temperature: int, description: string,
                              code: string, s: Screen)
    requires !IsBlank(box) && code in WeatherFunction.IconMap
    ensures var o := Search(box, Found(location, temperature, description, code), s);
            o.screen.weather.Some? && WeatherIcon(o.screen.weather.value.icon) == DefaultIcon
  {
    RawCodeIsNotName(code);
  }
}
