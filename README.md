# WeatherBot core in Dafny

This is a model of the core of WeatherBot, a Telegram bot that answers in Russian. It covers:

- **The weather library** (`weather_app.py`):
  - the coordinate-keyed file cache with its 10-minute lifetime;
  - the four cached fetches: current weather, hourly forecast, air pollution and 5-day forecast;
  - the city lookup;
  - the air-quality analysis against the six pollutant threshold tables.
- **The bot** (`bot.py`):
  - the `user_data` records;
  - the routing of messages and button presses to their handlers;
  - the next-step handlers that wait for a city or for two cities;
  - every handler's effect on `user_data`, the cache and the upstream requests, and what it answers, built on the corrected cache read and the corrected session updates of the Findings (the code as written raises in those cases; see "Left out");
  - the 5-day forecast menu and day view;
  - the city comparison;
  - the extended view;
  - one pass of the two-hourly notification worker.

## How the model is built

The outside world is a value of type `Gateway.World`. It holds:

- the clock reading, in microseconds;
- the geocoding answer for each city;
- the HTTP result for each request;
- the local calendar date of a timestamp;
- whether a send to a user succeeds.

Every fetch returns its result, the new cache and the requests it made, in order. Each handler is a function returning an `Outcome`.

The imperative parts are classes:

- `Cache.CacheDir` holds the cache files.
- `Bot.BotState` holds `user_data`, its saved copy and the pending next-step handlers of each chat.

Each of their methods is proved equal to the function that specifies it. The loops of the source keep their loops:

- the air-quality analysis (`AirQuality.Analyze`, `AirQuality.BandLevel`);
- the day bucketing (`Forecast.GroupByDay`);
- the run of pending handlers;
- the notification cycle.

The HTTP result of each request is a field of the world, so the model assumes an HTTP client that offers `get_with_retries`. The `http_client.py` that ships beside the code defines only `get`, `post` and `get_simple`. With it, every fetch raises AttributeError inside its `try` and answers with that error, and nothing is ever cached. The oracle's `Raised` result covers this case (`Gateway.ShippedClientNeverCaches`).

Payloads are JSON values (`JsonValues.Json`); numbers are exact reals. The cache key is modelled down to its text, the `{lat:.4f}_{lon:.4f}_{endpoint}` string. This includes the half-to-even rounding of the fourth decimal and the sign of a value that rounds to zero. MD5 is treated as injective on these strings.

### Behaviour of the code worth knowing

- **Comparison input.** The code only checks that there are exactly two comma-separated parts; it does not check that both names are non-empty. So `"Moscow,"` passes the check, and its empty second city is answered with the "give a city or coordinates" error (`Compare.TrailingCommaAccepted`).
- **Corrupt cache entries.** The cache read raises for a file that is not UTF-8, for a file that is valid JSON but not an object, and for an unparsable `fetched_at` (finding 1). The read sits outside the fetch's `try`, and the file is never rewritten, so every later fetch of that key raises too (`Gateway.CachedFetchAsWritten`, `Gateway.CorruptEntryBlocksEveryFetch`). The rest of the model uses the corrected read.
- **Payloads that are not dicts.** The handlers test `"error" in weather` outside any `try`. A 200 body that is a number, a boolean or null makes that test raise; a list holding "error" or a string containing it passes the test and then raises at `weather['error']` (`JsonValues.ErrorTest`, `Bot.WeatherReply`).
- **Zero coordinates.** `get_current_weather` tests coordinates for truthiness. So a location with latitude or longitude exactly 0 is treated as missing (`Gateway.ZeroCoordinateCountsAsMissing`).

## Model

| member | source | states |
|---|---|---|
| Cache.Round4 | weather_app.py:24 | the fourth-decimal rounding of `:.4f`: within half a unit, and ties go to the even neighbour |
| Cache.Fixed4 | weather_app.py:24 | the `:.4f` text of a coordinate contains no `_`, so the key's three parts cannot run into each other |
| Cache.KeyStringMatches | weather_app.py:22-25 | two coordinate/endpoint triples give the same key exactly when both coordinates round alike and the endpoints are equal |
| Cache.KeyStringInjective | weather_app.py:22-25 | equal keys imply equal rounding of both coordinates and the same endpoint |
| Cache.TagInjective | weather_app.py:87-166 | the endpoint names 'weather', 'hourly', 'air_pollution' and bot.py's 'forecast5d' are distinct, so the endpoints never share a file |
| Cache.NearbyPointsShareKey | weather_app.py:22-25 | two points less than 0.00005° apart can share one cache entry |
| Cache.SignSurvivesRounding | weather_app.py:24 | -0.00001 and 0.00001 both round to zero, yet they give different keys (`-0.0000` against `0.0000`) |
| Cache.LoadAsWritten | weather_app.py:43-58 | the load as written: a hit exactly for a live record; it raises exactly for a file that is not UTF-8, a JSON file that is not an object, or an unparsable `fetched_at`; a miss exactly for a missing file, unparsable JSON, a missing `fetched_at`, a stale stamp or missing data |
| Cache.CorruptStampEscapes | weather_app.py:48-56 | all three corrupt shapes escape the `except` clause, and a document that raises once raises at every later time |
| Cache.ReadEntry | weather_app.py:48-58 | the corrected load: the data exactly when the entry is live, absent otherwise |
| Cache.ReadEntryRefinesLoad | weather_app.py:48-58 | wherever the load as written does not raise, the corrected load returns what it returns |
| Cache.WrittenEntryLifetime | weather_app.py:17-54 | an entry written at t is served while now - t < 10 minutes and is absent from t + 10 minutes on |
| Cache.CacheDir.Save | weather_app.py:27-41 | the file for the rounded key is overwritten with the data stamped now; every other file is unchanged |
| Cache.CacheDir.Load | weather_app.py:43-58 | the cached data exactly when the key's file holds a live record |
| Cache.SaveThenLoad | weather_app.py:27-58 | a save followed by a load of the same key within the lifetime returns the saved data; other keys are untouched |
| Gateway.ComponentsOf | weather_app.py:175 | `['list'][0]['components']` succeeds exactly on a body whose 'list' is a non-empty list whose first item is an object holding 'components' |
| Gateway.Interpret | weather_app.py:93-102 | the payload exactly for a truthy 200 response with a parsable body; a non-200 status gives the "request error" text; an exception gives the endpoint's error prefix |
| Gateway.CachedFetch | weather_app.py:86-102 | no request exactly when the cache serves the key; otherwise exactly one request; the cache changes only at that key, to the fetched result stamped now |
| Gateway.CacheHitSkipsUpstream | weather_app.py:87-89 | a live, truthy cached entry is returned without a request and the cache is unchanged |
| Gateway.CacheMissAsksUpstream | weather_app.py:91-102 | on a miss exactly one request is made; a usable answer is stored under the key and returned; any other answer returns the error dict of its text and stores nothing |
| Gateway.ShippedClientNeverCaches | weather_app.py:93-102 | with an HTTP client whose every call raises the AttributeError of the missing `get_with_retries`, a fetch never writes the cache and a miss answers with that error |
| Gateway.CachedFetchAsWritten | weather_app.py:86-89 | the fetch as written raises exactly when the as-written cache read raises; otherwise it is the corrected fetch |
| Gateway.CorruptEntryBlocksEveryFetch | weather_app.py:86-89 | once a fetch raises on a corrupt file, every fetch of the same key raises, at any later time and for any request |
| Gateway.EmptyCachedDictIsMiss | weather_app.py:87-89 | a live cached `{}` is falsy, so upstream is asked again |
| Gateway.StaleEntryRefetched | weather_app.py:53 | an entry 10 minutes old or older is fetched again |
| Gateway.RepeatWithinTtlServedFromCache | weather_app.py:86-102 | after a successful truthy fetch, a repeat for a point with the same rounding, less than 10 minutes later, makes no request and returns the same data |
| Gateway.WeatherByCity | weather_app.py:105-126 | the city is geocoded first; an unknown city gives "city not found" with no other request; otherwise at most one more request, by name; a cache hit at the found point returns the cached value unchanged; a miss returns and stores the usable answer, or returns its error dict and stores nothing |
| Gateway.CurrentWeather | weather_app.py:74-83 | a non-empty city wins, and the result is `WeatherByCity`'s fetch for it; otherwise two non-zero coordinates, and the result is `WeatherByCoordinates`'s fetch; otherwise the "give a city or coordinates" error with no request |
| Gateway.ZeroCoordinateCountsAsMissing | weather_app.py:79-83 | a latitude of exactly 0 gives that error without any request |
| Gateway.WeatherByCoordinates | weather_app.py:86-102 | no request exactly when the cache serves the point's 'weather' entry; otherwise the one request for the point; the cache changes at most at that key, to the returned value |
| Gateway.HourlyWeather | weather_app.py:144-161 | the same rule for the 'hourly' entry and the hourly request |
| Gateway.AirPollutionData | weather_app.py:164-181 | the same rule for the 'air_pollution' entry and the air request |
| Gateway.FiveDayForecast | bot.py:151-165 | the same rule for the 'forecast5d' entry and the forecast request |
| Gateway.FetchThrough | weather_app.py:86-102 | the imperative cached fetch on the cache directory equals `CachedFetch` |
| Gateway.GetWeatherByCoordinates | weather_app.py:86-102 | result, cache and requests equal the coordinate weather fetch |
| Gateway.GetHourlyWeather | weather_app.py:144-161 | result, cache and requests equal the hourly fetch |
| Gateway.GetAirPollution | weather_app.py:164-181 | result, cache and requests equal the air-pollution fetch, which caches the components only |
| Gateway.Get5DayForecast | bot.py:151-168 | result, cache and requests equal the 5-day forecast fetch |
| Gateway.GetWeatherByCity | weather_app.py:105-126 | result, cache and requests equal `WeatherByCity` |
| Gateway.GetCurrentWeather | weather_app.py:74-83 | result, cache and requests equal `CurrentWeather` |
| AirQuality.LevelOf | weather_app.py:220-225 | the level of the first band holding the value; 1 when no band holds it |
| AirQuality.TableContiguous | weather_app.py:197-202 | a table with limits 0 < a < b < c < d covers [0, ∞) with bands that meet end to end |
| AirQuality.TablesContiguous | weather_app.py:196-203 | all six threshold tables are contiguous with five bands |
| AirQuality.ThresholdContiguous | weather_app.py:196-203 | each of the six threshold tables, by position, is contiguous with five bands |
| AirQuality.LevelIsContainingBand | weather_app.py:222-225 | in a contiguous table, the level is the position of the band holding the value |
| AirQuality.CoveringBand | weather_app.py:197-202 | every non-negative value lies in some band |
| AirQuality.LevelInRange | weather_app.py:220-225 | levels lie in 1..5; a negative value keeps the default level 1 |
| AirQuality.LevelMonotone | weather_app.py:220-225 | a larger concentration never gets a lower level |
| AirQuality.Readings | weather_app.py:217-231 | each reading belongs to a present pollutant and carries its numeric value |
| AirQuality.ReadingsRaiseExactly | weather_app.py:217-223 | the loop raises exactly when some table pollutant is present with a value that is not a number |
| AirQuality.ReadingsRatedByTable | weather_app.py:217-227 | every reading has the level `LevelOf` gives by the bands of the table pollutant with its key |
| AirQuality.ReadingsSingle | weather_app.py:217-227 | one pollutant is skipped when absent, raises when not a number, and otherwise gives one reading at its band's level |
| AirQuality.ReadingsAppend | weather_app.py:217-231 | the readings of two tables in a row are the readings of each, in table order; either raising makes both raise |
| AirQuality.MaxLevel | weather_app.py:215-227 | the overall level is at least 1, at least every reading's level, and is 1 or one of them |
| AirQuality.ReadingLevelsInRange | weather_app.py:217-233 | with contiguous five-band tables, every reading and the overall level lie in 1..5 |
| AirQuality.EveryPresentPollutantRated | weather_app.py:217-231 | every table pollutant present in the data has a reading whose level is its band's |
| AirQuality.WarningFor | weather_app.py:244-248 | a high warning exactly at level ≥ 4, a moderate one exactly at 3, none at ≤ 2 |
| AirQuality.Analysis | weather_app.py:183-253 | an "error" key is passed through; it raises exactly when a table pollutant is not a number; otherwise the readings are `Readings` of the table, the overall level is their `MaxLevel`, in 1..5; the warning matches the level; the extended listing is exactly the input components outside the tables, with their input values |
| AirQuality.BandLevel | weather_app.py:220-225 | the band loop with `break` computes `LevelOf` |
| AirQuality.ScanTable | weather_app.py:214-231 | the loop over a table yields exactly `Readings`, and `max_level` is their `MaxLevel` |
| AirQuality.Analyze | weather_app.py:183-253 | the analysis of a dict computes `Analysis` |
| AirQuality.ReadingsNoneExtends | weather_app.py:217-223 | once one table pollutant fails to compare, the whole analysis raises |
| AirQuality.OverallLevelInRange | weather_app.py:233 | `quality_levels[max_level]` never misses: the overall level is in 1..5 |
| Sessions.Welcome | bot.py:52-60 | a record with no location and notifications off is created for a new user; a known user is unchanged |
| Sessions.WelcomeIdempotent | bot.py:55-60 | a second /start changes nothing |
| Sessions.SetLocationAsWritten | bot.py:83-84 | the location assignment as written: a KeyError exactly for a user without a record |
| Sessions.SetNotificationsAsWritten | bot.py:266-275 | the toggle as written: a KeyError exactly for a user without a record |
| Sessions.SetLocation | bot.py:83-84 | the corrected update: the location is set, the notification flag kept (off for a new user), every other record unchanged |
| Sessions.SetNotifications | bot.py:266-275 | the corrected toggle: the flag is set, the location kept, every other record unchanged |
| Sessions.CorrectedUpdatesAgree | bot.py:83-275 | for a known user the corrected updates are exactly the ones written |
| Sessions.UnknownUserRaises | bot.py:251-272 | an unknown user is shown notifications "off", yet their toggle or location share raises |
| Sessions.Subscribers | bot.py:426-427 | a user is notified exactly when their notifications are on and a location is stored |
| Sessions.SubscribeAfterToggle | bot.py:264-277 | turning notifications on subscribes the user exactly when a location is stored; turning them off unsubscribes; no one else changes |
| Sessions.SubscribeAfterLocation | bot.py:77-84 | sharing a location subscribes the user exactly when their notifications are on |
| Sessions.WelcomeKeepsSubscribers | bot.py:52-60 | /start never changes who is subscribed |
| Forecast.DecodeItems | bot.py:174-175 | every item's `dt` is read, in order, and decoding fails exactly when one is missing or not a number |
| Forecast.DecodeForecast | bot.py:174-175 | a 'list' that is a list is decoded item by item; a payload without 'list' cannot be walked; an empty dict or string yields no items; every other 'list' raises |
| Forecast.ItemsOn | bot.py:208-213 | the items of one date: all dated that day, every item of that date included, empty exactly when no item has that date |
| Forecast.ItemsOnAppend | bot.py:208-213 | selecting from `a + b` gives the selection from `a` followed by the selection from `b`: the input order is kept |
| Forecast.ItemsOnSingle | bot.py:208-213 | a single item is selected exactly when it is dated that day |
| Forecast.FirstDated | bot.py:172-178 | the position of the first item of a date: no earlier item has that date, and the item there has it |
| Forecast.Days | bot.py:172-178 | the dates met, each once, in order of first appearance: exactly the dates with items |
| Forecast.DaysInFirstAppearanceOrder | bot.py:172-178 | every listed date has an item, and the dates are listed in the order in which their first items appear |
| Forecast.GroupByDay | bot.py:172-178 | the bucketing loop: the keys are the dates in order of first appearance, each bucket holds exactly that date's items in order |
| Forecast.BucketsPartitionItems | bot.py:172-178 | the bucket sizes add up to the number of items, so every item is in exactly one bucket |
| Forecast.DayButtons | bot.py:182-186 | the first min(5, n) dates of `Days`: at most five distinct buttons, each for a date that has items |
| Forecast.DayDetails | bot.py:208-217 | "no data" exactly when no item has the date; it raises exactly when one of the first eight items of that date lacks its temperature or description; otherwise the first min(8, n) items of that date, each with both |
| Forecast.DayTagRoundTrip | bot.py:186-199 | `'day_' + d`, with 'day_' removed again, gives back d for every date without `_` |
| Compare.ParseCities | bot.py:288-291 | the input is accepted exactly when it holds one comma |
| Compare.ParseTwoCities | bot.py:288 | `x,y` is read as the stripped x and y |
| Compare.ParsedTextShape | bot.py:288-291 | every accepted text is two comma-free parts joined by one comma, and the cities are those parts stripped |
| Compare.OneCityRejected | bot.py:289-291 | a text without a comma is rejected |
| Compare.TrailingCommaAccepted | bot.py:288-291 | `x,` is accepted with an empty second city |
| Compare.Difference | bot.py:319 | `abs(t1 - t2)`: non-negative, one of the two differences, and zero exactly for equal temperatures |
| Compare.DifferenceSymmetric | bot.py:319 | the difference does not depend on the order of the cities |
| Compare.DifferenceIsSpread | bot.py:319 | the smaller temperature plus the difference is the larger one |
| Compare.FormatComparison | bot.py:310-333 | it compares exactly when both payloads have every field read, otherwise the error is caught; the difference shown is `Difference` of the two temperatures: ≥ 0 and 0 exactly for equal temperatures |
| Compare.ComparisonSymmetric | bot.py:310-333 | swapping the cities swaps the columns and keeps the difference |
| Bot.RouteMessage | bot.py:51-335 | the first registered handler that matches wins: /start, then a shared location, then each keyboard label to its own handler; any other message is unhandled |
| Bot.StartCommandShapes | bot.py:51 | "/start" followed by more text is the command exactly when a blank or "@" follows the word |
| Bot.RouteCallback | bot.py:195-359 | a button reaches the day handler exactly when its data starts with "day_" |
| JsonValues.ErrorTest | bot.py:88 | `"error" in value`: a key test on a dict, membership on a list, a substring test on a string; it raises on anything else |
| Bot.DayButtonRoutesToItsDay | bot.py:186-199 | a day button's data is routed back to its own date |
| Bot.ForecastMenuReply | bot.py:170-193 | a menu exactly when the items decode and every item of a shown date has a temperature (otherwise the average raises); the menu is `DayButtons` of the decoded items, at most five; a payload without 'list' raises |
| Bot.WeatherReply | bot.py:88-92 | an error dict shows its error; a payload that passes the test is shown; it raises exactly when the test raises, or passes for a value that is not an error dict |
| Bot.LocationWeather | bot.py:86-92 | a zero coordinate gives the "give a city or coordinates" error without a request; otherwise the reply is `WeatherReply` of `WeatherByCoordinates` at the point, with its cache and requests |
| Bot.WeatherNowStep | bot.py:100-109 | the stripped text is the city and the reply is `WeatherReply` of `WeatherByCity` for it, geocoding first; an empty text gives the error without a request; a non-text message raises |
| Bot.CompareStep | bot.py:285-308 | a wrong part count is reported without requests; otherwise both cities are fetched in order; the first city's error wins, then the second's; a payload whose "error" test raises, or passes without it being an error dict, is the caught "❌ Ошибка" reply, for either city; with no error the reply is the formatted comparison of the two payloads |
| Bot.AirSection | bot.py:411-413 | the air section is omitted exactly when the air data is a dict carrying "error"; any other dict shows `AirQuality.Analysis(air, extended=True)`, or raises where that analysis raises; a value that is not a dict raises |
| Bot.ExtendedReply | bot.py:381-418 | a weather error is reported; a payload whose "error" test raises, or a list or string holding "error", makes the handler raise; any other payload is shown exactly when its title, its displayed fields and the air section can be read, and otherwise gets the caught error; a shown view holds the weather, the `Title` and the `AirSection` |
| Bot.ExtendedView | bot.py:376-418 | the weather, then the air data, both through the cache; the reply is `ExtendedReply` of the two fetched payloads, so a weather error is what is answered |
| Bot.ExtendedCityStep | bot.py:365-374 | the stripped text is geocoded first; an unknown city gives its notice after that single request; a found city gives `ExtendedView` at the geocoded point, titled with the city, after the geocoding request |
| Bot.RunSteps | bot.py:94-98 | every pending handler of a chat answers the message, one reply each |
| Bot.RunStepsSnoc | bot.py:94-98 | the last pending handler runs on the cache the earlier handlers left, and its reply and requests come last |
| Bot.RunStepsSingle | bot.py:94-98 | a single pending handler yields exactly its own outcome |
| Bot.RunStepsAppend | bot.py:94-98 | running two lists of pending handlers one after the other is running their concatenation: replies and requests in sequence, the second on the cache the first left |
| Bot.ForecastView | bot.py:133-149 | without a stored location, a notice and no request; otherwise at most one forecast request for the stored point; an error is reported, and any other payload gets `ForecastMenuReply` |
| Bot.DayPage | bot.py:195-228 | without a location, a notice; a payload that does not decode raises; otherwise the "data not found" notice, the raise and the shown day are exactly `DayDetails`' three cases, so a shown day is the date's first items, at most eight, in order |
| Bot.BackView | bot.py:230-243 | without a location, a notice; otherwise the reply is `ForecastMenuReply` of the fetched payload, with no error check, so an error payload raises |
| Bot.ByLocationView | bot.py:345-356 | without a location, an alert and no request; otherwise the extended view of the stored point |
| Bot.Cycle | bot.py:420-443 | the users targeted are `order` filtered to the subscribers, in order; a user is reached only if targeted and the send succeeds (the exact condition is `CycleSendsExactly`) |
| Bot.Keep | bot.py:426-427 | the users of `order` in a set, in order: exactly the members of both |
| Bot.CycleSentGrows | bot.py:426-441 | a cycle over a prefix of the users has sent to a prefix of the users the whole cycle sends to |
| Bot.CycleSends | bot.py:426-441 | a subscriber whose fetched weather passes the error test and whose send succeeds is among those sent to |
| Bot.CycleSentLater | bot.py:426-441 | whoever the cycle sends to beyond a prefix of the users comes after that prefix |
| Bot.CycleSendsExactly | bot.py:426-441 | with each user listed once, a subscriber is sent to exactly when their fetched weather passes `"error" not in weather` and the send succeeds |
| Bot.DeliveryDoesNotSteerCycle | bot.py:438-441 | failed sends change neither whom the cycle targets nor its requests nor the cache |
| Bot.CycleReachesSubscribers | bot.py:426-427 | a cycle over all users targets exactly the subscribers |
| Bot.BotState.constructor | bot.py:20-37 | start-up: the users loaded from the file and nothing pending |
| Bot.BotState.SendWelcome | bot.py:52-60 | `user_data` becomes `Welcome` of the old one; it is saved only when a record was added |
| Bot.BotState.HandleLocation | bot.py:77-92 | the location is stored and saved, then the weather at the point is shown, as `LocationWeather` |
| Bot.BotState.Ask | bot.py:94-98 | the step is appended to the chat's pending handlers |
| Bot.BotState.GetWeatherNow | bot.py:100-109 | reply, cache and requests equal `WeatherNowStep` |
| Bot.BotState.CompareCities | bot.py:285-308 | reply, cache and requests equal `CompareStep` |
| Bot.BotState.ShowExtendedData | bot.py:376-418 | reply, cache and requests equal `ExtendedView` |
| Bot.BotState.ExtendedByCity | bot.py:365-374 | reply, cache and requests equal `ExtendedCityStep` |
| Bot.BotState.RunPending | bot.py:94-109 | the loop over the pending handlers equals `RunSteps` |
| Bot.BotState.ShowForecast | bot.py:133-149 | reply, cache and requests equal `ForecastView` |
| Bot.BotState.ShowDayDetails | bot.py:195-228 | reply, cache and requests equal `DayPage` |
| Bot.BotState.BackToForecast | bot.py:230-243 | reply, cache and requests equal `BackView` |
| Bot.BotState.ExtendedByLocation | bot.py:345-356 | reply, cache and requests equal `ByLocationView` |
| Bot.BotState.ToggleNotifications | bot.py:263-277 | the flag is set as the button says and saved |
| Bot.BotState.OnMessage | bot.py:51-109 | pending handlers take the message and are cleared; otherwise the first matching handler (/start, location, the five buttons) runs with its effect, and a button prompt replaces the pending handlers; `user_data`, its saved copy and the cache change only where that handler changes them |
| Bot.BotState.OnCallback | bot.py:195-363 | the first matching button handler runs with its effect; pending handlers are kept |
| Bot.BotState.NotificationCycle | bot.py:420-443 | the loop over the users equals `Cycle`: same users reached, same cache, same requests |

## Left out

- **Telegram transport.** Message texts, HTML layout, emoji and keyboards are left out, as are `answer_callback_query`, message editing and deletion. A reply records only what it shows.
- **Free-text formatting.** format_current_weather, the averaged temperatures of the forecast menu and the `:.1f` rounding are left out. What is kept is that the fields these read must be present.
- **MD5.** The key hash is treated as injective on the key strings.
- **Floating point.** Coordinates and values are exact reals. `:.4f` is applied to the exact value, not to the nearest binary double. `-0.0` is not modelled.
- **Dict order.** JSON objects are maps. The order of the extended component listing is lost. The worker's order of users is a parameter.
- **Exception texts.** Exception texts are approximated by the endpoint's prefix and a message.
- **Geocoding and HTTP.** get_coordinates is an oracle that finds a city or not. Its own request failures, which raise in the source, are not modelled. The HTTP result of a request is an oracle, which assumes a client offering `get_with_retries`. The shipped http_client.py has no such function; the oracle's `Raised` result stands for the AttributeError every call then raises.
- **File writes.** Write failures of the cache files and of user_data.json are left out. A malformed user_data.json at start-up is left out. The saved copy of `user_data` is a field.
- **Time.** Each handler reads the clock once. Local dates and times are an oracle. The two-hour sleep and the worker thread are left out. How the worker's outer `try` ends a cycle early is not modelled (see the Cycle line below).
- **Concurrency.** Telebot's handler threads are not modelled. The chat id is taken to be the user id, as it is in private chats.
- **Command parsing.** Only /start with the text "/start", optionally followed by a blank or "@bot name", is recognised.
- **Other code.** print_weather_info, the command-line main of weather_app.py, test_api.py and country_info.py are not part of this model.
- **Whitespace.** `strip()` is modelled with ASCII whitespace only.
- **Corrupt cache files in the handlers.** Every handler that fetches runs the corrected cache read: the weather, comparison, extended, forecast, day and back handlers and the worker. As written, the weather, extended, forecast, day and back handlers raise on a corrupt file at the key they read, and send nothing. compare_cities makes both fetches inside its `try` (bot.py:287-308), so there a corrupt file gets the caught "❌ Ошибка: …" reply. The worker has already sent to the users before the one whose key is corrupt; its outer `try` (bot.py:424-443) then ends the cycle for the users after it.
- CachedFetch (`Gateway.CachedFetch`): uses the corrected cache read, so a corrupt cache file reads as a miss; as written, the load at weather_app.py:87 raises out of the fetch (see `Gateway.CachedFetchAsWritten`).
- CacheMissAsksUpstream (`Gateway.CacheMissAsksUpstream`): about the corrected fetch; as written, a corrupt file at the key raises before upstream is asked.
- FetchThrough (`Gateway.FetchThrough`): the corrected fetch on the cache directory; it does not raise on a corrupt file.
- GetWeatherByCoordinates (`Gateway.GetWeatherByCoordinates`): the corrected fetch; as written, a corrupt file raises out of weather_app.py:87.
- GetHourlyWeather (`Gateway.GetHourlyWeather`): the corrected fetch; as written, a corrupt file raises out of weather_app.py:146.
- GetAirPollution (`Gateway.GetAirPollution`): the corrected fetch; as written, a corrupt file raises out of weather_app.py:166.
- Get5DayForecast (`Gateway.Get5DayForecast`): the corrected fetch; as written, a corrupt file raises out of bot.py:153.
- GetWeatherByCity (`Gateway.GetWeatherByCity`): the corrected fetch; as written, a corrupt file raises out of weather_app.py:111.
- GetCurrentWeather (`Gateway.GetCurrentWeather`): built on the corrected fetches; as written, a corrupt file at the key raises.
- Load (`Cache.CacheDir.Load`): the corrected read; it does not model the exceptions of `Cache.LoadAsWritten`.
- HandleLocation (`Bot.BotState.HandleLocation`): uses the corrected location update; as written, an unknown user raises KeyError at bot.py:83 before anything is saved or sent.
- ToggleNotifications (`Bot.BotState.ToggleNotifications`): uses the corrected toggle; as written, an unknown user raises KeyError at bot.py:269 or 272 before the save.
- OnMessage (`Bot.BotState.OnMessage`): its location branch uses the corrected update and every fetch the corrected cache read, so it does not capture the KeyError of bot.py:83 or a raise on a corrupt cache file.
- OnCallback (`Bot.BotState.OnCallback`): its notification branch uses the corrected toggle and every fetch the corrected cache read, so it does not capture the KeyError of bot.py:269-272 or a raise on a corrupt cache file.
- Cycle (`Bot.Cycle`): a payload that makes `"error" not in weather` raise (a number, a boolean, null) counts as not sent for that user, but the rest of the cycle is not abandoned as the worker's outer `try` at bot.py:424-443 abandons it; nor does a corrupt cache file abort the cycle.
- NotificationCycle (`Bot.BotState.NotificationCycle`): equal to `Bot.Cycle`, with the same gap.

## Findings

| source | as written | input that shows it | evidently intended | confidence | as-written member | corrected member |
|---|---|---|---|---|---|---|
| weather_app.py:48-56 | only FileNotFoundError, JSONDecodeError and KeyError are caught around the cache read | a cache file holding `[]`, `{"fetched_at": "yesterday", "data": {}}` or bytes that are not UTF-8: TypeError, ValueError or UnicodeDecodeError escapes every fetch of that key | a corrupt entry reads as a miss | not executed; high | Cache.LoadAsWritten, Cache.CorruptStampEscapes, Gateway.CachedFetchAsWritten | Cache.ReadEntry |
| bot.py:83 | `user_data[user_id]['location'] = …` indexes the record directly | a user without a record (no /start since user_data.json was lost) shares a location: KeyError, no reply | create the default record as /start does; other handlers do accept unknown users (bot.py:138, 251) | not executed; medium | Sessions.SetLocationAsWritten, Sessions.UnknownUserRaises | Sessions.SetLocation |
| bot.py:269-272 | `user_data[user_id]['notifications'] = …` indexes the record directly | the same user presses "turn on" in the menu that bot.py:251 showed them as "off": KeyError | create the default record, then set the flag | not executed; medium | Sessions.SetNotificationsAsWritten, Sessions.UnknownUserRaises | Sessions.SetNotifications |
