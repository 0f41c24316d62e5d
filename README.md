# Simplified weather app — a Dafny model of its core

The application is a weather dashboard with:
- an Express server that fetches current conditions, answers weather questions by keyword rules, and signs users up and in against a user collection;
- two edge functions: `weather`, which builds forecasts, suggestions and a UV estimate, and `weather-assistant`, which asks a language model and falls back on canned replies;
- a browser database client with a session store, auth listeners and a query builder;
- the dashboard page and its weather-alerts card.

This project models the decision logic of those pieces in Dafny and proves what they promise. Network calls, the database, the clock and browser storage become parameters or fields. The modules are:

| file | module | models |
|---|---|---|
| js.dfy | `Js` | The JavaScript primitives the code relies on: `includes`, ASCII `toLowerCase`, `String(n)`, `trim` (with ECMAScript's full set of white space and line terminators), `split('@')[0]`, truthiness. |
| server_assistant.dfy | `ServerAssistant` | The Express assistant responder: keyword groups tried in order, then threshold bands. |
| server_weather.dfy | `ServerWeather` | Input selection of `POST /api/weather`. |
| auth_store.dfy | `AuthStore` | Signup and signin over a map from e-mail to user (class `UserStore`). |
| weather_function.dfy | `WeatherFunction` | The `weather` edge function's helpers: the icon table, AQI wording, the suggestion rules, the request/query choice, and the UV estimate. |
| forecast.dfy | `Forecast` | The hourly and daily forecast loops, proved against filter/selection functions. |
| assistant_fallback.dfy | `AssistantFallback` | `generateFallbackResponse` and the routing of the `weather-assistant` handler. |
| query_builder.dfy | `QueryBuilder` | The client's `TableQuery` builder (a class) and the parameter order of `execute`. |
| auth_client.dfy | `AuthClient` | The client's `DatabaseClient` (a class): session restore, listener registry, sign-in, sign-out, update guard. |
| weather_alerts.dfy | `WeatherAlerts` | Alert generation, notification, dismissal, severity colours and icons. |
| dashboard.dfy | `Dashboard` | The AQI colour, the greeting name, the payload update, the search box guard, and the icon fallback. |

Where the code and its documentation differ, the model follows the code. There are two such cases, plus one mismatch in code that is never called:
- The server's signin reply carries a `token` and no `session`, so the client stores an unparsable `undefined` session. See `AuthClient.SessionlessSignIn`.
- The wind alert's 50 km/h threshold is applied to the m/s value of server/index.js:66. A wind of 14–50 m/s is above 50 km/h yet raises no alert (`WeatherAlerts.MetresPerSecondUnderAlerted`).
- A latent mismatch, in uncalled code: `getAQIColor` bands a 0–500 scale, while the edge function's AQI is OpenWeather's 1–5 index. Every 1–5 value would be coloured green (`Dashboard.EdgeScaleIsAlwaysGreen`). No such value reaches the page today: `getAQIColor` has no caller, and the page's weather comes from the Express server, whose reply carries no AQI.

## Model

| member | source | states |
|---|---|---|
| ServerAssistant.Respond | server/index.js:108-263 | Without weather data the reply is the fixed request for data; otherwise it starts with a symbol of the branch the lower-cased message selects. |
| ServerAssistant.Classify | server/index.js:129-256 | The chosen branch, unless it is the help text, is one whose keywords the message mentions. |
| ServerAssistant.Reply | server/index.js:129-256 | Every branch's reply is non-empty and starts with one of that branch's own symbols. |
| ServerAssistant.ClassifyIsFirstMatch | server/index.js:129-256 | The handler's if/else-if chain equals a scan of the keyword groups in their fixed order, stopping at the first group the message mentions. |
| ServerAssistant.FirstMatchWins | server/index.js:129-256 | Branch k answers exactly when one of its words occurs in the lower-cased message and no earlier group's word does. |
| ServerAssistant.FirstMatchAt | server/index.js:129-256 | For any list of distinct groups, the scan stops at group k exactly when k is mentioned and no earlier group is. |
| ServerAssistant.FirstMatchReaches | server/index.js:129-256 | A mentioned group with no mentioned group before it is the one the scan stops at. |
| ServerAssistant.FirstMatchStops | server/index.js:129-256 | When the scan stops at a group, that group is mentioned and no earlier one is. |
| ServerAssistant.PriorityDistinct | server/index.js:129-256 | The keyword groups are tested in an order without repeats, and the help reply is not one of them. |
| ServerAssistant.HelpWhenNothingMatches | server/index.js:248-256 | The help text answers exactly when no keyword group is mentioned. |
| ServerAssistant.LondonHumidityGetsActivities | server/index.js:163 | "do" is matched inside other words: a humidity question naming London gets activity suggestions. |
| ServerAssistant.NoWeatherNeedsData | server/index.js:112-116 | Without a weather record the reply is the fixed request for data, whatever the message. |
| ServerAssistant.TempBandIsInterval | server/index.js:132-146 | The clothing band chosen is the one interval (≤0, ≤10, ≤15, ≤20, ≤25, ≤30, above) containing the temperature. |
| ServerAssistant.TempBandMonotone | server/index.js:132-146 | A warmer temperature never gets a colder clothing band. |
| ServerAssistant.ClothingExtrasExact | server/index.js:149-160 | Each extra clothing line (rain/drizzle, snow, wind > 15, humidity > 80) appears exactly when its condition holds, in the tested order. |
| ServerAssistant.ClothingExtrasMembers | server/index.js:149-160 | An extra clothing line is present exactly when its condition holds. |
| ServerAssistant.ClothingExtrasOrdered | server/index.js:149-160 | The extra lines come in the order rain, snow, wind, humidity. |
| ServerAssistant.ActivitiesFollowRain | server/index.js:166-174 | Rainy-day activities exactly when the description mentions rain; cold-day ones exactly when it does not and it is below 10 °C; "perfect" only between 20 and 28 °C without storm. |
| ServerAssistant.BandsMonotone | server/index.js:225-236 | More wind or humidity never gives a milder wind or humidity answer. |
| ServerAssistant.SymbolsDisjoint | server/index.js:129-256 | The leading symbols of different branches are disjoint. |
| ServerAssistant.ReplyRevealsBranch | server/index.js:129-256 | A reply's leading symbol belongs to branch j exactly when j is the branch the message selects. |
| ServerAssistant.NeedDataIsNoBranch | server/index.js:114 | The no-data reply starts with no branch's symbol. |
| ServerAssistant.UmbrellaVerdict | server/index.js:177-184 | Umbrella replies: yes exactly when the description says rain, drizzle or shower; maybe exactly when not and humidity > 85; no otherwise. |
| ServerAssistant.ClothingReplyShape | server/index.js:129-160 | The clothing reply is the header, the one band line for the temperature, and the due extras in their fixed order. |
| ServerWeather.Route | server/index.js:28-47 | A coordinate query carries the body's coordinates, a city query the non-empty city; failures are 400 or 500. |
| ServerWeather.ApiKeyShortCircuits | server/index.js:31-33 | A truthy `getApiKey` returns the key whatever the other fields are. |
| ServerWeather.CoordinatesWin | server/index.js:41-44 | Both coordinates truthy ⇒ coordinate query; the city is used exactly when they are not and it is non-empty. |
| ServerWeather.NeitherIsBadRequest | server/index.js:45-47 | The 400 is returned exactly when there is neither a usable city nor both coordinates. |
| ServerWeather.EquatorIsRefused | server/index.js:41-47 | A latitude of 0 counts as missing, so such a request without a city is refused. |
| AuthStore.Token | server/index.js:321 | The token is `dev-token-` followed by the user id. |
| AuthStore.TokenNamesUser | server/index.js:321 | Different ids give different tokens. |
| AuthStore.UserStore.constructor | server/index.js:81-92 | The store starts empty and valid. |
| AuthStore.UserStore.Signup | server/index.js:268-303 | Missing fields give the 400; an existing e-mail gives "User already exists" and no change; otherwise exactly one user is added with the next id and role 'user', and signin with those credentials then succeeds; the store stays valid. |
| AuthStore.UserStore.Signin | server/index.js:306-338 | Success exactly when the e-mail is stored with that password; the reply is the public user and its token; otherwise 400 or 401 with their texts. |
| AuthStore.UserStore.TokenIdentifiesAccount | server/index.js:314-333 | Two successful signins with the same token are for the same e-mail. |
| WeatherFunction.MapWeatherIcon | supabase/functions/weather/index.ts:215-238 | Every result is one of the eight icon names; unknown codes give 'partly-cloudy'. |
| WeatherFunction.IconTableByGroup | supabase/functions/weather/index.ts:216-236 | For every condition group, day and night, the table agrees with the group reading. |
| WeatherFunction.IconTableDay | supabase/functions/weather/index.ts:216-236 | Every daytime code of a listed group is in the table and maps as the group reading says. |
| WeatherFunction.IconTableNight | supabase/functions/weather/index.ts:216-236 | Every night code of a listed group is in the table and maps as the group reading says. |
| WeatherFunction.DayNightDifferOnlyWhenClear | supabase/functions/weather/index.ts:216-236 | Day and night icons differ only for a clear sky. |
| WeatherFunction.AqiDescription | supabase/functions/weather/index.ts:241-251 | 'No data' exactly for a missing or zero index; 1..5 are named in order; anything else is 'Unknown'. |
| WeatherFunction.GenerateWeatherSuggestions | supabase/functions/weather/index.ts:254-312 | The suggestions are the texts of the first three rule outputs, in rule order. |
| WeatherFunction.TemperatureRulesExclusive | supabase/functions/weather/index.ts:265-275 | Two temperature tips exactly below 0 or above 30 °C, one from 0 to below 20, none from 20 to 30. |
| WeatherFunction.RainPairAt | supabase/functions/weather/index.ts:278-281 | On a rainy day the umbrella and waterproof-shoes tips come right after the temperature tips. |
| WeatherFunction.SnowPairAt | supabase/functions/weather/index.ts:283-286 | On a snowy day the slippery-roads and gloves tips come right after the temperature and rain tips. |
| WeatherFunction.AirPairAt | supabase/functions/weather/index.ts:297-300 | With an AQI of 4 or more the mask and limit-outdoor tips come right after the temperature, rain, snow, wind and humidity tips. |
| WeatherFunction.MaskNotBeforeAir | supabase/functions/weather/index.ts:264-295 | No rule tested before the air-quality rule suggests a mask. |
| WeatherFunction.MaskOnlyFromAir | supabase/functions/weather/index.ts:264-309 | A mask tip appears only when the AQI is at least 4, and right after the earlier rules' tips. |
| WeatherFunction.MaskShownWhen | supabase/functions/weather/index.ts:297-300 | The mask advice survives the cap of three exactly when the AQI is at least 4 and fewer than three tips precede it. |
| WeatherFunction.TemperatureSuggestionsFirst | supabase/functions/weather/index.ts:265-311 | The temperature tips always survive the cap and come first. |
| WeatherFunction.FreezingRainKeepsThree | supabase/functions/weather/index.ts:265-311 | Below freezing in the rain the shown tips are bundle-up, icy conditions and umbrella. |
| WeatherFunction.SelectQuery | supabase/functions/weather/index.ts:10-60 | A city query always has a non-empty city; every failure is a 400. |
| WeatherFunction.CityFirst | supabase/functions/weather/index.ts:44-52 | The city wins over coordinates; coordinates are used exactly without a city; with neither the request fails. |
| WeatherFunction.BodyIgnoredUnlessRead | supabase/functions/weather/index.ts:27-39 | A request whose body is not read gets the same answer whatever the body holds. |
| WeatherFunction.ZeroCoordinatesAccepted | supabase/functions/weather/index.ts:47-57 | Coordinates arrive as strings, so "0" is usable here, unlike on the Express server. |
| WeatherFunction.UvIndex | supabase/functions/weather/index.ts:142-151 | 0 outside 6:00–18:59; otherwise between 0 and 10 for non-negative cloud cover. |
| WeatherFunction.UvMonotone | supabase/functions/weather/index.ts:145-151 | More cloud never raises the estimate, and midday is never lower than another daytime hour. |
| Forecast.Upcoming | supabase/functions/weather/index.ts:99-117 | The filter keeps no more items than it is given. |
| Forecast.UpcomingMembers | supabase/functions/weather/index.ts:102 | An item is kept exactly when it is in the list and after now. |
| Forecast.HourlyForecasts | supabase/functions/weather/index.ts:99-117 | The loop yields the hourly entries of the items among the first eight that are later than now. |
| Forecast.HourlyBounds | supabase/functions/weather/index.ts:99-117 | At most eight entries, all after now, and every later slot among the first eight is kept. |
| Forecast.FirstIndices | supabase/functions/weather/index.ts:120-121 | The positions of the first item of each date are in range and strictly increasing. |
| Forecast.FirstIndicesMembers | supabase/functions/weather/index.ts:120-121 | A position is chosen exactly when no earlier item has its date. |
| Forecast.FirstIndicesDates | supabase/functions/weather/index.ts:120-122 | The chosen positions carry every date seen so far. |
| Forecast.FirstIndicesDistinct | supabase/functions/weather/index.ts:120-122 | Different chosen positions carry different dates. |
| Forecast.FirstIndicesCount | supabase/functions/weather/index.ts:120-123 | There is one first position per distinct date. |
| Forecast.DailyStepUse | supabase/functions/weather/index.ts:121-136 | An unseen date while fewer than seven entries exist adds the item's entry with its rank label and records its date, keeping the loop's invariant. |
| Forecast.DailyStepSkip | supabase/functions/weather/index.ts:121 | A seen date, or a full list, leaves the loop's state unchanged and the invariant kept. |
| Forecast.DailyForecasts | supabase/functions/weather/index.ts:120-139 | The loop yields the daily entries for the first seven first-of-date positions. |
| Forecast.DailyProperties | supabase/functions/weather/index.ts:120-139 | At most seven entries, one per date, each from its date's first item, in order; fewer than seven means every date is covered. |
| Forecast.DailyLabels | supabase/functions/weather/index.ts:124-126 | The first entry is 'Today', the second 'Tomorrow', the rest carry their weekday. |
| AssistantFallback.Choose | supabase/functions/weather-assistant/index.ts:111-143 | Ask for a location exactly without weather; umbrella answers exactly for rain questions, yes exactly when rain is expected; then clothing, outdoor, summary in first-match order. |
| AssistantFallback.ClothingBands | supabase/functions/weather-assistant/index.ts:128-135 | Clothing replies: cool below 15 °C, warm above 25 °C, mild otherwise. |
| AssistantFallback.FallbackResponse | supabase/functions/weather-assistant/index.ts:111-143 | The reply text is the one of the chosen kind. |
| AssistantFallback.RepliesDiffer | supabase/functions/weather-assistant/index.ts:111-143 | Replies of different kinds are different texts. |
| AssistantFallback.SummaryMentionsConditions | supabase/functions/weather-assistant/index.ts:142 | The summary quotes the location, temperature, description, humidity and wind. |
| AssistantFallback.UmbrellaYesQuotesConditions | supabase/functions/weather-assistant/index.ts:123 | The umbrella "yes" reply quotes the precipitation and the description. |
| AssistantFallback.CapitalisedRainIsMissed | supabase/functions/weather-assistant/index.ts:122 | The description is not lower-cased: "Rain" without precipitation gets the no-umbrella reply. |
| AssistantFallback.Handle | supabase/functions/weather-assistant/index.ts:11-109 | Preflight exactly for OPTIONS; a missing key is a 500 with its detail; a model answer is passed through verbatim; the fallback answers the request's own message and weather. |
| AssistantFallback.FailuresFallBack | supabase/functions/weather-assistant/index.ts:64-98 | The fallback answers exactly when the model call fails in any way; the model answer is passed on exactly when the call succeeds. |
| QueryBuilder.ConditionParams | src/integrations/supabase/client.ts:270-274 | One parameter per condition, in the order `eq` was called. |
| QueryBuilder.ParamsLayout | src/integrations/supabase/client.ts:265-286 | The parameters are the conditions in call order, then orderBy/order when set, then limit last when set and non-zero. |
| QueryBuilder.Shape | src/integrations/supabase/client.ts:288-300 | A limit of exactly 1 gives the first row or null; other limits give all rows; a refusal gives its error or "Database query failed". |
| QueryBuilder.TableQuery.constructor | src/integrations/supabase/client.ts:227-239 | A new query selects '*' with no conditions, limit or order. |
| QueryBuilder.TableQuery.Select | src/integrations/supabase/client.ts:240-243 | Sets the fields only, and returns the same query. |
| QueryBuilder.TableQuery.Eq | src/integrations/supabase/client.ts:245-248 | Appends one condition after the earlier ones, and returns the same query. |
| QueryBuilder.TableQuery.Limit | src/integrations/supabase/client.ts:250-253 | Sets the limit only. |
| QueryBuilder.TableQuery.Order | src/integrations/supabase/client.ts:255-258 | Sets the ordering, ascending unless `ascending: false`. |
| QueryBuilder.TableQuery.Single | src/integrations/supabase/client.ts:260-263 | Sets the limit to 1. |
| QueryBuilder.TableQuery.Params | src/integrations/supabase/client.ts:267-286 | The loop builds exactly the parameter list of the layout. |
| QueryBuilder.TableQuery.Execute | src/integrations/supabase/client.ts:265-302 | The parameters sent and the result shaped from the endpoint's answer. |
| QueryBuilder.SingleRow | src/integrations/supabase/client.ts:260-296 | `single()` sends only `limit=1` and yields the first row or null. |
| QueryBuilder.ChainedQuery | src/integrations/supabase/client.ts:245-286 | `eq(a).order(f).eq(b).limit(n)` sends a, b, orderBy, order, limit in that order. |
| AuthClient.Restored | src/integrations/supabase/client.ts:35-50 | A session is restored exactly when a parsable stored session has not expired. |
| AuthClient.RemoveFirstAbsent | src/integrations/supabase/client.ts:63-67 | Unsubscribing a callback that is not registered changes nothing. |
| AuthClient.RemoveFirstCount | src/integrations/supabase/client.ts:63-67 | Unsubscribing removes exactly one registration of the callback and keeps all others. |
| AuthClient.SecondUnsubscribeIsNoOp | src/integrations/supabase/client.ts:63-67 | For a callback registered once, a second unsubscribe changes nothing. |
| AuthClient.Broadcast | src/integrations/supabase/client.ts:128 | One call per listener, in registration order, with the event and session. |
| AuthClient.DatabaseClient.constructor | src/integrations/supabase/client.ts:33-51 | The session and user are the restored ones; an expired or unparsable entry is removed from storage. |
| AuthClient.DatabaseClient.GetSession | src/integrations/supabase/client.ts:74-76 | Returns the current session. |
| AuthClient.DatabaseClient.OnAuthStateChange | src/integrations/supabase/client.ts:55-58 | Registers the callback last and calls it once with INITIAL_SESSION and the current session. |
| AuthClient.DatabaseClient.Unsubscribe | src/integrations/supabase/client.ts:63-67 | Removes the first registration of the callback (indexOf plus splice), nothing else. |
| AuthClient.DatabaseClient.Notify | src/integrations/supabase/client.ts:128 | The `forEach` calls every listener once, in order. |
| AuthClient.DatabaseClient.SignIn | src/integrations/supabase/client.ts:103-134 | On success it sets user and session, stores the session, and notifies SIGNED_IN; on failure it returns the error text ("Invalid credentials" by default) and changes nothing. |
| AuthClient.DatabaseClient.SignOut | src/integrations/supabase/client.ts:141-151 | Clears user, session and storage, and notifies SIGNED_OUT with no session. |
| AuthClient.DatabaseClient.UpdateUser | src/integrations/supabase/client.ts:158-191 | Without a user it returns "Not authenticated" and changes nothing; on success it replaces the user, the session's user and the stored copy; failures give the error or "Update failed". |
| AuthClient.IndexOf | src/integrations/supabase/client.ts:64 | The first position of the callback, or -1 exactly when it is absent. |
| AuthClient.RemoveFirstSplice | src/integrations/supabase/client.ts:64-66 | Splicing at the first position equals removing the first occurrence. |
| AuthClient.SessionlessSignIn | src/integrations/supabase/client.ts:117-125 | With the server's signin reply, which has no session, a reload restores no session. |
| WeatherAlerts.AlertsFor | src/components/WeatherAlerts.tsx:42-107 | At most four alerts, and none exactly when every reading is within its thresholds. |
| WeatherAlerts.DescriptionQuotesDetail | src/components/WeatherAlerts.tsx:50-99 | Every alert text quotes its reading. |
| WeatherAlerts.TemperatureThresholds | src/components/WeatherAlerts.tsx:46-66 | Extreme cold exactly below -10 °C, extreme heat exactly above 40 °C. |
| WeatherAlerts.OtherThresholds | src/components/WeatherAlerts.tsx:69-105 | High wind exactly above 50, poor air exactly at AQI 4 or more, high UV exactly above 8. |
| WeatherAlerts.OrderedAndDistinct | src/components/WeatherAlerts.tsx:42-107 | Alerts come in section order with distinct ids, at most four. |
| WeatherAlerts.GenerateAlerts | src/components/WeatherAlerts.tsx:42-113 | The alerts are the sections' alerts; a notification is sent exactly when notifications are on and some alert is extreme or high, and it is the first alert. |
| WeatherAlerts.AnySevere | src/components/WeatherAlerts.tsx:110 | True exactly when some alert is extreme or high. |
| WeatherAlerts.NotifiedAlertIsSevere | src/components/WeatherAlerts.tsx:110-111 | When some alert is severe, the first alert (the one notified) is severe. |
| WeatherAlerts.MetresPerSecondUnderAlerted | src/components/WeatherAlerts.tsx:69 | A wind of 14 to 50 m/s exceeds 50 km/h but raises no wind alert. |
| WeatherAlerts.Dismiss | src/components/WeatherAlerts.tsx:139-141 | No remaining alert has the dismissed id, and the list never grows. |
| WeatherAlerts.DismissMembers | src/components/WeatherAlerts.tsx:139-141 | Dismissal keeps exactly the alerts with a different id. |
| WeatherAlerts.DismissAbsent | src/components/WeatherAlerts.tsx:139-141 | Dismissing an id no alert has changes nothing. |
| WeatherAlerts.DismissAppend | src/components/WeatherAlerts.tsx:139-141 | Dismissal keeps the order: it distributes over concatenation. |
| WeatherAlerts.IdTextInjective | src/components/WeatherAlerts.tsx:139-140 | Different alert ids have different texts, so the id filter compares alerts, not wordings. |
| WeatherAlerts.SeverityColor | src/components/WeatherAlerts.tsx:143-151 | 'destructive' exactly for extreme and high, 'secondary' exactly for moderate, 'outline' otherwise. |
| WeatherAlerts.AlertIcon | src/components/WeatherAlerts.tsx:153-161 | The info icon exactly for a type other than thunderstorm, rain, wind and temperature. |
| WeatherAlerts.GeneratedBadges | src/components/WeatherAlerts.tsx:143-161 | Every generated alert's badge is 'destructive' exactly when the alert is severe. |
| WeatherAlerts.Badge | src/components/WeatherAlerts.tsx:143-161 | An alert with its section's severity and type gets 'destructive' exactly when severe, 'secondary' exactly for high UV, and its section's icon. |
| WeatherAlerts.Generated | src/components/WeatherAlerts.tsx:47-104 | Each generated alert has the severity and type of its section. |
| Dashboard.AqiColor | src/pages/Dashboard.tsx:314-321 | Green exactly up to 50, dark red exactly above 300. |
| Dashboard.AqiColorBands | src/pages/Dashboard.tsx:314-321 | The six bands as intervals: ≤50, ≤100, ≤150, ≤200, ≤300, above. |
| Dashboard.AqiColorCountsBounds | src/pages/Dashboard.tsx:314-321 | The band's rank is the number of band limits the value exceeds. |
| Dashboard.PassedMonotone | src/pages/Dashboard.tsx:314-321 | A larger value never exceeds fewer limits. |
| Dashboard.AqiColorMonotone | src/pages/Dashboard.tsx:314-321 | A worse air-quality value never gets a milder colour. |
| Dashboard.EdgeScaleIsAlwaysGreen | src/pages/Dashboard.tsx:314-315 | Every value of the edge function's 1–5 scale, 'Very Poor' included, is coloured green. |
| Dashboard.DisplayName | src/pages/Dashboard.tsx:116-125 | The full name when filled in, else the e-mail text before the first '@' when non-empty, else 'User'; never empty. |
| Dashboard.NameFromEmail | src/pages/Dashboard.tsx:119-120 | Without a full name, the name comes from the e-mail exactly when the e-mail is non-empty and does not start with '@'. |
| Dashboard.ProfileName | src/pages/Dashboard.tsx:111-126 | With no signed-in user the greeting is unchanged. |
| Dashboard.Shown | src/pages/Dashboard.tsx:199-222 | Sunrise and sunset fall back to '06:00' and '18:00' and are never empty; the other fields are copied. |
| Dashboard.UpdateWeatherData | src/pages/Dashboard.tsx:198-232 | Each of current, forecast and hourly is replaced exactly when the payload carries it. |
| Dashboard.UpdateKeepsSunTimes | src/pages/Dashboard.tsx:214-215 | Updating keeps sunrise and sunset filled in. |
| Dashboard.UpdateIdempotent | src/pages/Dashboard.tsx:198-232 | The same payload twice equals once; an empty payload changes nothing. |
| Dashboard.LaterPayloadWins | src/pages/Dashboard.tsx:198-232 | A full later payload overrides everything an earlier one set. |
| Dashboard.Search | src/pages/Dashboard.tsx:234-289 | A blank box sends nothing and is kept; otherwise the trimmed text is sent and the box is cleared whatever the answer; a failure leaves the screen unchanged. |
| Dashboard.SentCityIsTrimmed | src/pages/Dashboard.tsx:236-243 | The city sent is non-empty, has no surrounding whitespace, and is part of what was typed. |
| Dashboard.SearchShowsDefaultSunTimes | src/pages/Dashboard.tsx:253-272 | A found city keeps the forecast lists and shows the answer's location, temperature, description and icon, with sunrise '06:00', sunset '18:00' and no air quality. |
| Dashboard.WeatherIcon | src/pages/Dashboard.tsx:291-312 | Unknown names get the default sun; each known name gets a picture other than the default. |
| Dashboard.KnownIconsDistinct | src/pages/Dashboard.tsx:292-308 | Different known names get different pictures. |
| Dashboard.MappedIconsAreDrawn | src/pages/Dashboard.tsx:291-312 | Every name the edge function's icon table yields has its own picture. |
| Dashboard.RawCodeIsNotName | src/pages/Dashboard.tsx:291-312 | No OpenWeather icon code is one of the icon names the page draws. |
| Dashboard.RawCodesFallBackToSun | src/pages/Dashboard.tsx:268 | A searched city's raw OpenWeather icon code (server/index.js:71) is always drawn as the default sun. |

## Left out

- HTTP, CORS, environment lookups, Express/Deno bootstrap and the upstream calls to OpenWeather, OpenAI and Mapbox: the upstream answers are parameters (`Upstream`, `DbResponse`, `SigninResponse`, `UpdateResponse`, `SearchReply`).
- Browser storage is the `stored` field of `DatabaseClient`; the `typeof window` checks are taken as always true.
- Listener side effects: callbacks are opaque identities, and each call is recorded in the `notifications` field.
- Floating point: numbers interpolated into replies and alerts are integers. The server already rounds temperatures. Fractional wind speeds and precipitation are not rendered.
- The date, weekday and clock texts (`toDateString`, `toLocaleDateString`, `toLocaleTimeString`) are strings carried by each forecast item, not computed from timestamps.
- Alert timestamps, `isActive` and the browser Notification API: the notified alert is returned instead of displayed.
- The React state setters, toasts, loading flags and rendering; the size class passed to `getWeatherIcon`.
- Dashboard display fields other than location, temperature, description, icon, AQI, sunrise and sunset are copied unchanged and not modelled.
- `insert`, `upsert` and `then` of `TableQuery`, `from`, `signUp`, `functions.invoke`, and the fixed "not implemented" replies of `signInWithOAuth` and `resetPasswordForEmail` are not part of this model.
- `getAQIColor` has no caller in the page; it is modelled as written.
- The MongoDB driver: the user collection is a map, and ids are a counter.
- Password hashing does not exist in the source; passwords are compared as stored.
- `ToLower` is ASCII-only: the lower-casing of non-ASCII letters is not modelled.
- `String(value)` of non-string condition values in `eq` is taken as already applied.
- WeatherAlerts.Dismiss: takes an alert id rather than an arbitrary text; its only caller passes a displayed alert's own id (src/components/WeatherAlerts.tsx:239), and `IdTextInjective` shows comparing ids is comparing their texts.
- MapWeatherIcon: codes naming `Object.prototype` members (`"constructor"`, `"toString"`, `"__proto__"`, …) are taken as unknown codes and give 'partly-cloudy'; the source's object lookup returns the inherited member instead. Its callers (supabase/functions/weather/index.ts:111, 133, 191) pass only OpenWeather icon codes.
- UpdateUser: the session object is updated in place (src/integrations/supabase/client.ts:181); sessions handed out earlier, by `getSession`, to listeners or in a sign-in result, change with it in the source but not in the model, where sessions are values.
- Respond: a request without `message` or without `weatherData.description` makes `toLowerCase` throw (server/index.js:118, 124), and the catch (259-262) answers 500 "Failed to process weather assistant request". The model takes both as present strings and does not model that path.
- The `created_at` field of the users that signup and signin return (server/index.js:296, 330) is left out of `PublicUser`: the clock is not modelled.
- Signin/Signup: the request fields are taken as strings. An object-valued field, such as an e-mail that is a MongoDB query operator (`{"$ne": null}`), would reach `findOne` (server/index.js:276, 314) as a query and match some stored user; that is not modelled. Likewise `ServerWeather.Route` takes the coordinates as numbers, so a JSON string such as `"0"`, which is truthy at server/index.js:41, is not modelled.
- FallbackResponse: the weather record's `description` is taken as a present string. A record without one makes `description.includes` throw (supabase/functions/weather-assistant/index.ts:122) for an umbrella or rain question without precipitation, and the outer catch (99-107) answers 500 "Failed to get response from weather assistant" instead of the fallback. `FailuresFallBack` holds only for records that have a description.
