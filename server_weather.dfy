/** Input selection of the Express weather endpoint (`POST /api/weather`):
    which upstream query a request body leads to, or which error it gets.
    Only JavaScript truthiness decides: a coordinate of 0 counts as missing. */
module ServerWeather {
  import opened Js

  /** The fields of the request body the endpoint reads. `getApiKey` is its
      truthiness; a missing or empty `city` is `None` or `Some("")`; a missing
      coordinate is `None`. */
  datatype WeatherBody = WeatherBody(
    city: Option<string>,
    lat: Option<real>,
    lon: Option<real>,
    getApiKey: bool)

  /** What the endpoint does with the body. */
  datatype WeatherRoute =
    | ApiKeyReply(apiKey: Option<string>)      // the key itself is sent back
    | ByCoordinates(lat: real, lon: real)      // upstream query by lat/lon
    | ByCity(city: string)                     // upstream query by city name
    | Failure(status: int, error: string)

  /** `if (x)` on a string value. */
  predicate TextTruthy(s: Option<string>)
  {
    s.Some? && s.value != ""
  }

  /** `if (x)` on a number value: present and non-zero. */
  predicate NumTruthy(x: Option<real>)
  {
    x.Some? && x.value != 0.0
  }

  /** The handler's checks in their order: the key request, the configured key,
      the coordinates, the city, else the 400. */
  function Route(body: WeatherBody, apiKey: Option<string>): (r: WeatherRoute)
    ensures r.ByCoordinates? ==> body.lat == Some(r.lat) && body.lon == Some(r.lon)
    ensures r.ByCity? ==> body.city == Some(r.city) && r.city != ""
    ensures r.Failure? ==> r.status == 400 || r.status == 500
  {
    if body.getApiKey then ApiKeyReply(apiKey)
    else if !TextTruthy(apiKey) then Failure(500, "OpenWeather API key not configured")
    else if NumTruthy(body.lat) && NumTruthy(body.lon) then ByCoordinates(body.lat.value, body.lon.value)
    else if TextTruthy(body.city) then ByCity(body.city.value)
    else Failure(400, "Either city or coordinates required")
  }

  /** A truthy `getApiKey` short-circuits everything else: the reply is the key,
      whatever the other fields are. */
  lemma ApiKeyShortCircuits(b1: WeatherBody, b2: WeatherBody, apiKey: Option<string>)
    requires b1.getApiKey && b2.getApiKey
    ensures Route(b1, apiKey) == Route(b2, apiKey) == ApiKeyReply(apiKey)
  {
  }

  /** When both coordinates are truthy they win over the city, and the city is
      used only when they are not. */
  lemma CoordinatesWin(body: WeatherBody, apiKey: Option<string>)
    requires !body.getApiKey && TextTruthy(apiKey)
    ensures Route(body, apiKey).ByCoordinates? <==> NumTruthy(body.lat) && NumTruthy(body.lon)
    ensures Route(body, apiKey).ByCity? <==>
            !(NumTruthy(body.lat) && NumTruthy(body.lon)) && TextTruthy(body.city)
  {
  }

  /** With neither a usable city nor both coordinates the answer is the 400. */
  lemma NeitherIsBadRequest(body: WeatherBody, apiKey: Option<string>)
    requires !body.getApiKey && TextTruthy(apiKey)
    ensures Route(body, apiKey) == Failure(400, "Either city or coordinates required") <==>
            !(NumTruthy(body.lat) && NumTruthy(body.lon)) && !TextTruthy(body.city)
  {
  }

  /** Coordinates on the equator or the prime meridian count as missing: such a
      request without a city is refused although both coordinates were sent. */
  lemma EquatorIsRefused(lon: real, apiKey: Option<string>)
    requires TextTruthy(apiKey)
    ensures Route(WeatherBody(None, Some(0.0), Some(lon), false), apiKey).Failure?
  {
  }
}
