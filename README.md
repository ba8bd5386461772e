# National Weather Service client — a Dafny model

This project models the core of a Python client for the National Weather
Service web API (`api.weather.gov`) and proves properties of that model. The
core has three parts:

- **The client** (`python/nws_api.py`):
  - the in-memory TTL response cache `NWSCache`;
  - the cache-first `_make_request`, which builds the cache key, answers from
    the cache, and otherwise asks the transport once and classifies its outcome
    into a closed set of errors;
  - the argument validation of `get_points` and `get_zones`;
  - the endpoint and query-parameter builders of the public accessors;
  - the two-step `get_forecast`.
- **The response parsers** (`python/nws_utils.py`): `parse_forecast`,
  `parse_observation` and `parse_alert`, from decoded JSON to domain records.
- **The domain records** (`python/weather_models.py`) and their derived
  accessors `Temperature.celsius`, `Temperature.fahrenheit`, `Forecast.today`
  and `Forecast.tonight`.

Modules, one per concern:

| module | file | contents |
|---|---|---|
| `Wrappers` | `wrappers.dfy` | `Option`, `Result`, and `MapResult`/`CollectResults` for the `for … append` loops that stop at the first exception |
| `Strings` | `strings.dfy` | `str.lower`, `str.isdigit` filtering, `lstrip`, `split(sep)[-1]`, `replace`, integer rendering |
| `JsonValues` | `json.dfy` | decoded JSON values, Python truthiness, `dict.get` |
| `WeatherModels` | `weather_models.dfy` | the records, the temperature conversions, `today`/`tonight` |
| `NwsUtils` | `nws_utils.dfy` | the three parsers |
| `NwsCache` | `nws_cache.dfy` | `class Cache` over a `map` field, and the functions that specify it |
| `NwsApi` | `nws_api.dfy` | `class WeatherApi`, the request, validation and parameter functions |

Things the client reads from outside become inputs:

- **The clock.** Every cache operation takes `now: real`. `MakeRequest` takes
  two readings, because the source calls `time.time()` once in `get` and again
  in `set`: `now` for the lookup and `doneAt` for the store.
  `parse_observation`'s `datetime.now()` is a `now: DateTime` parameter.
- **The transport.** `session.get` becomes an `Outcome` value:
  - a response, with its status, its decoded body (`None` when the body is
    not JSON) and its text;
  - a timeout;
  - any other transport failure.
  The field `WeatherApi.requests` counts transport calls, so "no request was
  made" can be stated.
- **Library renderings and parsing.** `datetime.fromisoformat` is an abstract
  partial function `iso`. `json.dumps`, `:.4f` and `strftime` are the abstract
  function fields `dumps`, `fixed4` and `stamp` of `Config`.
- **Exceptions.** A raised exception becomes a `Failure`:
  - `ApiError` carries an `ErrorKind` for the client's error classes;
  - `ParseError` says why a document does not parse.
  The Python `TypeError`/`AttributeError` that `get_forecast` raises on a
  malformed points response is the kind `Internal`.

## Model

| member | source | states |
|---|---|---|
| Wrappers.MapResult | python/nws_utils.py:26-58 | the loop succeeds iff every element succeeds; it then has one result per element, in order, each the element's own result |
| Wrappers.MapResultFirstFailure | python/nws_utils.py:27-58 | when a prefix succeeds and the next element fails, the whole loop fails with that element's error |
| Wrappers.MapResultFailureExtends | python/nws_utils.py:27-58 | once a prefix fails, every longer input fails with the same error |
| Wrappers.MapResultSingleton | python/nws_utils.py:27-58 | a one-element input maps to that element's result |
| Wrappers.CollectResults | python/nws_utils.py:151-159 | the `for … append` loop computes `MapResult` exactly |
| Strings.Lower | python/weather_models.py:20 | `lower()`: same length, each character lower-cased (ASCII) |
| Strings.ContainsSubIff | python/weather_models.py:81 | the substring test holds iff the pattern occurs at some position |
| Strings.Digits | python/nws_utils.py:38 | `filter(str.isdigit, s)` keeps only digits and is never longer than its input |
| Strings.DigitsAppend | python/nws_utils.py:38 | the digits of a concatenation are the concatenated digits |
| Strings.DigitsEmptyIff | python/nws_utils.py:38 | no digits are left iff the text has no digit character |
| Strings.DecimalValueAppend | python/nws_utils.py:38 | `int()` of concatenated digit strings is `a * 10^len(b) + b` |
| Strings.NatToStringRoundTrip | python/nws_api.py:179 | the decimal rendering of a number reads back as that number |
| Strings.LStrip | python/nws_api.py:152 | `lstrip(c)` removes exactly the leading run of `c` and keeps the rest as a suffix |
| Strings.LStripLeading | python/nws_api.py:152 | one more leading `c` does not change `lstrip(c)` |
| Strings.LastSegment | python/nws_utils.py:82 | `split(sep)[-1]` is a separator-free suffix preceded by the separator unless it is the whole text |
| Strings.LastSegmentUnique | python/nws_utils.py:153 | any suffix with those properties is `split(sep)[-1]` |
| Strings.LastSegmentAfter | python/nws_utils.py:153 | `split(sep)[-1]` of `prefix + sep + tail` is `tail` when `tail` has no separator |
| Strings.ReplaceAll | python/nws_api.py:236 | `replace(pat, "")` never lengthens the text |
| Strings.ReplaceAbsent | python/nws_api.py:236 | replacing a pattern that does not occur changes nothing |
| Strings.ReplaceLeading | python/nws_api.py:236 | an occurrence at the front is replaced and scanning resumes after it |
| Strings.ReplaceEmptyByEmpty | python/nws_api.py:236 | replacing the empty string by the empty string changes nothing |
| Strings.ReplaceIsSinglePass | python/nws_api.py:236 | `replace` makes one pass: `"aabb".replace("ab", "")` is `"ab"`, which still contains the pattern |
| WeatherModels.UnitIsLetter | python/weather_models.py:20 | `unit.lower() == "f"` holds exactly for "f" and "F" (likewise "c"/"C") |
| WeatherModels.Celsius | python/weather_models.py:17-22 | a Fahrenheit value converts to the Celsius value that maps back to it under `value * 9/5 + 32`; any other unit keeps its value, missing or not |
| WeatherModels.Fahrenheit | python/weather_models.py:24-29 | a Celsius value converts to the Fahrenheit value that maps back to it under `(value - 32) * 5/9`; any other unit keeps its value, missing or not |
| WeatherModels.ConversionsAreInverse | python/weather_models.py:17-29 | F→C→F and C→F→C give back the value; any other unit, or a missing value in it, is returned unchanged; a conversion has a value |
| WeatherModels.ConversionExamples | python/weather_models.py:17-29 | 32 F is 0 C, 68 F is 20 C, 0 C is 32 F, 20 C is 68 F, and same-unit values are unchanged |
| WeatherModels.Today | python/weather_models.py:70-75 | `today` is absent iff there are no periods, otherwise the first period |
| WeatherModels.IsNightName | python/weather_models.py:81 | `"night" in name.lower()` holds iff "night" occurs at some position of the lower-cased name |
| WeatherModels.FirstNightIndex | python/weather_models.py:80-83 | the first index whose name contains "night" case-insensitively; absent iff no name does |
| WeatherModels.Tonight | python/weather_models.py:77-83 | `tonight` is absent iff no name contains "night"; otherwise it is an element of the periods that does, and no earlier one does |
| WeatherModels.NightAt | python/weather_models.py:81 | a lower-cased "night" at any position makes a night name |
| WeatherModels.NightNameExamples | python/weather_models.py:81 | "Tonight" is a night name and "Today" is not |
| WeatherModels.TodayTonightExample | python/weather_models.py:70-83 | for periods "Today" and "Tonight", `today` is the first and `tonight` the second; an empty forecast has neither |
| NwsUtils.NestedValue | python/nws_utils.py:92 | `d.get(k, {}).get("value")` is absent iff the key is missing, or the group is an object whose `value` is missing or null; otherwise it is the group's numeric `value` |
| NwsUtils.UnitOf | python/nws_utils.py:82 | the unit is a colon-free suffix of `unitCode` (or of its default) |
| NwsUtils.ParseTimestamp | python/nws_utils.py:28 | succeeds iff the text is non-empty and `fromisoformat` accepts it with "Z" replaced by "+00:00" |
| NwsUtils.WindSpeed | python/nws_utils.py:37-38 | `int(''.join(filter(str.isdigit, s)))` fails iff the text has no digit |
| NwsUtils.WindSpeedOfNumber | python/nws_utils.py:38 | a number followed by digit-free text reads back as that number |
| NwsUtils.WindSpeedRange | python/nws_utils.py:38 | "lo to hi mph" reads as the digits of lo followed by those of hi, not as lo |
| NwsUtils.WindSpeedExamples | python/nws_utils.py:36-38 | the default "0 mph" is 0, "10 mph" is 10, "calm" fails |
| NwsUtils.WindSpeedRangeExample | python/nws_utils.py:37-38 | "10 to 15 mph" is 1015 |
| NwsUtils.PeriodTimes | python/nws_utils.py:28-29 | a result means both `startTime` and `endTime` (default "") are strings that parse, and holds the two parses |
| NwsUtils.PeriodTemperature | python/nws_utils.py:31-34 | succeeds iff `temperature` (default 0) is a number or null and `temperatureUnit` (default "F") a string, and holds both, null as no value |
| NwsUtils.PeriodWind | python/nws_utils.py:36-44 | succeeds iff `windDirection` and `windSpeed` are strings and the speed has a digit; the wind is in "mph" with that direction and speed |
| NwsUtils.PeriodTexts | python/nws_utils.py:47-53 | succeeds iff `name`, `shortForecast` and `detailedForecast` (default "") are strings, and holds them |
| NwsUtils.ParsePeriod | python/nws_utils.py:26-58 | a non-object period fails; a parsed period's wind is in "mph" with a compass direction |
| NwsUtils.PeriodParser | python/nws_utils.py:27 | the function value applies `ParsePeriod` to every element |
| NwsUtils.UpdatedOf | python/nws_utils.py:21-23 | `updated` is absent iff its raw value is missing or falsy, else the parse of that string |
| NwsUtils.ForecastOf | python/nws_utils.py:10-20 | a document, or its `properties`, that is not an object fails with that reason |
| NwsUtils.ParseForecast | python/nws_utils.py:10-60 | the period loop computes exactly the forecast function |
| NwsUtils.ForecastPeriodsInOrder | python/nws_utils.py:26-58 | a parsed forecast has one period per element of `periods`, in order, each that element's parse |
| NwsUtils.ForecastFailsAtFirstBadPeriod | python/nws_utils.py:27-29 | the first element that does not parse makes the forecast fail with its error |
| NwsUtils.ForecastDefaults | python/nws_utils.py:20-27 | no `properties`, no `periods`, or an empty `updated` give an empty forecast with no update time |
| NwsUtils.PeriodFieldsOf | python/nws_utils.py:28-55 | a parsed period holds, group by group, the values its keys hold or their defaults, and the nested precipitation `value` |
| NwsUtils.PeriodDefaults | python/nws_utils.py:31-55 | missing keys give temperature 0, unit "F", wind speed 0, direction "", name "", no icon, no precipitation probability; a probability is present only when its key is |
| NwsUtils.PeriodFromFields | python/nws_utils.py:28-56 | a period whose fields have the expected kinds parses to exactly those field values |
| NwsUtils.ExamplePeriodFields | python/nws_utils.py:28-55 | the example period's fields as `.get` reads them, with their defaults |
| NwsUtils.ExamplePeriodParses | python/nws_utils.py:26-58 | the example period parses to 75 F and a 10 mph wind from "S", every other field at its default |
| NwsUtils.OnePeriodForecast | python/nws_utils.py:10-60 | a document with that one period parses to a forecast with exactly that period and no update time |
| NwsUtils.TimestampOr | python/nws_utils.py:75-76 | a missing or falsy timestamp is the clock's `now`; otherwise it is the parsed string |
| NwsUtils.MeasuredTemperature | python/nws_utils.py:78-90 | a temperature or dewpoint is present iff its key is; with the key it succeeds iff the group is an object whose `value` (default 0) is a number or null and whose unit reads; it holds that value (null as no value) and the unit |
| NwsUtils.MeasuredWind | python/nws_utils.py:94-100 | wind is present iff both `windSpeed` and `windDirection` are; with both it succeeds iff both groups are objects whose values are numbers or null and the speed's unit reads; it holds the speed, a direction in degrees, and the speed's unit |
| NwsUtils.MeasuredPrecipitation | python/nws_utils.py:106-112 | precipitation is present iff its key is; with the key it succeeds iff the group is an object whose `value` is a number or null and whose unit reads; it holds no type, that value and the unit |
| NwsUtils.UnitAfterLastColon | python/nws_utils.py:82 | a unit code keeps the text after its last colon |
| NwsUtils.UnitWithoutColon | python/nws_utils.py:82 | a unit code without a colon is kept whole |
| NwsUtils.DefaultUnit | python/nws_utils.py:82 | without `unitCode` a group takes the unit of its default `wmoUnit:` code |
| NwsUtils.DefaultTemperatureUnit | python/nws_utils.py:82-89 | a temperature or dewpoint group without `unitCode` is in "degC" |
| NwsUtils.DefaultWindUnit | python/nws_utils.py:99 | a wind speed group without `unitCode` is in "km_h-1" |
| NwsUtils.DefaultPrecipitationUnit | python/nws_utils.py:111 | a precipitation group without `unitCode` is in "mm" |
| NwsUtils.ParseObservation | python/nws_utils.py:62-73 | a document, or its `properties`, that is not an object fails with that reason |
| NwsUtils.ObservationFields | python/nws_utils.py:72-125 | each group is present iff its key is (wind: iff both keys are) and is what `MeasuredTemperature`, `MeasuredWind` or `MeasuredPrecipitation` reads, null values included; humidity, pressure and visibility are the nested values; station and text come from their keys with defaults; a missing timestamp is `now` |
| NwsUtils.ObservationFromFields | python/nws_utils.py:72-125 | conversely, any document whose `properties` read field by field as those of an observation (station, timestamp or `now`, each measurement group, the nested values and the text) parses to that observation |
| NwsUtils.NullReadingsKept | python/nws_utils.py:78-112 | a group sent with `"value": null` stays present in the observation, holding no value (wind direction: degrees with no value) |
| NwsUtils.NullTemperatureExample | python/nws_utils.py:62-125 | `{"properties": {"temperature": {"value": null}}}` parses to a present "degC" temperature with no value, everything else at its default |
| NwsUtils.ObservationOptionality | python/nws_utils.py:78-112 | with only station, timestamp and text, every measurement is absent, never zero |
| NwsUtils.EmptyObservation | python/nws_utils.py:72-125 | an empty document is an empty station at `now` with text "" and nothing measured |
| NwsUtils.RequiredTime | python/nws_utils.py:140-142 | a missing required timestamp fails; a parsed one is the parse of its string |
| NwsUtils.OptionalTime | python/nws_utils.py:144-148 | `onset`/`ends` are absent iff their raw value is missing or falsy |
| NwsUtils.ZoneId | python/nws_utils.py:153 | a zone id is the slash-free tail of the zone URL, preceded by '/' unless it is the whole URL |
| NwsUtils.CountyCode | python/nws_utils.py:158-159 | a SAME code is copied verbatim |
| NwsUtils.AlertOf | python/nws_utils.py:127-138 | a document, or its `properties`, that is not an object fails with that reason |
| NwsUtils.AssembleAlert | python/nws_utils.py:161-181 | the alert's text fields are their keys' strings with default "" (`response_type` from `response`), `headline` and `instruction` are optional (null kept as no value), and the timestamps and lists are as given |
| NwsUtils.ParseAlert | python/nws_utils.py:127-181 | the zone and county loops compute exactly the alert function |
| NwsUtils.AlertFields | python/nws_utils.py:137-181 | zones follow `affectedZones` one for one and in order as last path segments; counties are `geocode.SAME` verbatim; the three required timestamps were present and parsed; `onset`/`ends` are absent iff falsy |
| NwsUtils.AlertNeedsTimestamps | python/nws_utils.py:140-142 | without `sent`, `effective` or `expires` an alert does not parse |
| NwsUtils.ZoneIdExample | python/nws_utils.py:153 | ".../zones/forecast/ABC123" gives "ABC123" |
| NwsUtils.AlertZoneCountyExample | python/nws_utils.py:151-159 | one zone URL and one SAME code give `["ABC123"]` and `["12345"]` |
| NwsCache.Lookup | python/nws_api.py:34-43 | `get` returns a value iff the key is present with an expiry after `now`, and that value is the stored one |
| NwsCache.AfterGet | python/nws_api.py:34-43 | `get` deletes the key iff it is present and expired; every other entry is kept as it was |
| NwsCache.Live | python/nws_api.py:54-59 | the sweep keeps exactly the entries whose expiry is after `now`, with their values and expiries |
| NwsCache.Cache.constructor | python/nws_api.py:31-32 | a new cache is empty |
| NwsCache.Cache.Get | python/nws_api.py:34-43 | returns `Lookup` of the old dictionary and leaves `AfterGet` of it |
| NwsCache.Cache.Set | python/nws_api.py:45-48 | overwrites only its key, with expiry `now + ttl` |
| NwsCache.Cache.Clear | python/nws_api.py:50-52 | the dictionary is empty |
| NwsCache.Cache.CleanExpired | python/nws_api.py:54-59 | collecting the expired keys and deleting them one by one leaves `Live` of the old dictionary |
| NwsCache.SetThenGet | python/nws_api.py:36-48 | after `set(k, v, ttl)` at t0, `get(k)` at t returns v iff `t0 + ttl > t`; a ttl of 0 or less misses even at t0 |
| NwsCache.SetIsolated | python/nws_api.py:45-48 | `set` changes what no other key reads, live or swept |
| NwsCache.ExpiredGetEvicts | python/nws_api.py:37-42 | `get` on an expired key removes exactly that key, so the dictionary shrinks by one, and it changes no later sweep |
| NwsCache.GetUnchanged | python/nws_api.py:34-43 | `get` on a missing or live key leaves the dictionary unchanged |
| NwsCache.GetKeepsLive | python/nws_api.py:34-43 | a lazy eviction never changes what is live or what `get` answers |
| NwsCache.CleanIdempotent | python/nws_api.py:54-59 | sweeping twice at the same time equals sweeping once |
| NwsCache.CleanPreservesLookups | python/nws_api.py:54-59 | sweeping does not change what `get` answers at the same time |
| NwsCache.LiveShrinksOverTime | python/nws_api.py:54-59 | a later sweep keeps a subset of the keys an earlier one keeps |
| NwsCache.ClearedMisses | python/nws_api.py:50-52 | after `clear`, every key misses |
| NwsApi.DefaultConfig | python/nws_api.py:21-26 | the default base URL is "https://api.weather.gov", the expiry 600 seconds and the timeout 10 seconds |
| NwsApi.DefaultSettings | python/nws_api.py:25-26 | under the defaults a timeout reports "timed out after 10 seconds" and a response is kept for 600 seconds |
| NwsApi.Url | python/nws_api.py:152 | the URL is the base URL, one '/', and the endpoint without its leading slashes |
| NwsApi.CacheKey | python/nws_api.py:153 | the key is the request's URL followed by ':' and the serialized parameters |
| NwsApi.ParamsOrEmpty | python/nws_api.py:153 | `params or {}`: no parameters serialize as an empty dict |
| NwsApi.LeadingSlashIgnored | python/nws_api.py:152-153 | a leading '/' on the endpoint changes neither the URL nor the cache key |
| NwsApi.NoParamsIsEmptyParams | python/nws_api.py:153 | `None` and `{}` params give the same cache key |
| NwsApi.Classify | python/nws_api.py:169-186 | success iff status 200 with a JSON body (that body); NotFound iff 404; RateLimited iff 429; Timeout iff the transport timed out; Generic iff any other status, a non-JSON 200 body or another transport failure |
| NwsApi.Serve | python/nws_api.py:155-173 | the cache step makes at most one transport call |
| NwsApi.ServeContract | python/nws_api.py:155-173 | no transport call iff a truthy live entry answers, and then the cache is unchanged; otherwise the transport's answer is the answer; a failure writes nothing beyond `get`'s eviction; a success is stored until the given expiry |
| NwsApi.ServeHit | python/nws_api.py:156-159 | a truthy live cache entry is the answer, with no transport call and only `get`'s eviction applied |
| NwsApi.ServeMiss | python/nws_api.py:156-173 | without a truthy live entry, the transport's answer is the answer after one call, and only a successful answer is stored |
| NwsApi.Fetch | python/nws_api.py:152-173 | one request makes at most one transport call |
| NwsApi.FetchContract | python/nws_api.py:155-173 | no transport call iff a truthy live entry answers, and then the cache is unchanged; otherwise the outcome's classification is the answer; a failure writes nothing; a success stores the body until `doneAt + cache_expiry` |
| NwsApi.Perform | python/nws_api.py:201-209 | a request that failed validation answers with that error, touching neither cache nor transport |
| NwsApi.OnlySuccessWrites | python/nws_api.py:169-186 | any change to the cache beyond the lazy eviction comes from a status-200 JSON response after a transport call |
| NwsApi.FalsyHitIsMiss | python/nws_api.py:156-159 | a falsy cached value (such as `{}`) is a miss: the transport is asked |
| NwsApi.SecondRequestHits | python/nws_api.py:155-173 | after a request that was sent and answered with a truthy response, repeating it before that stored response expires answers the same without a transport call (a falsy stored response such as `{}` is a miss, see `FalsyHitIsMiss`) |
| NwsApi.FetchEmpty | python/nws_api.py:155-175 | on an empty cache a request is always sent once and its classified outcome is the answer |
| NwsApi.StatusExamples | python/nws_api.py:169-186 | on an empty cache, 404, 429, a timeout, 500 and a non-JSON 200 give NotFound, RateLimited, Timeout, Generic and Generic; a JSON 200 gives its body |
| NwsApi.Candidate | python/nws_api.py:294-305 | `if arg: params[k] = arg` stores a value iff the argument is given and non-empty |
| NwsApi.StampCandidate | python/nws_api.py:360-363 | a date filter is stored iff given, as its `strftime` text |
| NwsApi.ParamOfAppend | python/nws_api.py:293-309 | a key of dicts written one after the other is found in the first, else in the second |
| NwsApi.PresentAbsent | python/nws_api.py:293-309 | a key no insertion uses is absent from the built dict |
| NwsApi.PresentStep | python/nws_api.py:293-309 | each conditional insertion appends its key/value pair when present, nothing otherwise |
| NwsApi.PresentLookup | python/nws_api.py:293-309 | with distinct keys, each key of the built dict holds its argument iff that argument is present |
| NwsApi.AlertParamsLookup | python/nws_api.py:293-309 | each alert filter is sent iff truthy, with its value; `active` is "true" iff set |
| NwsApi.ProductParamsLookup | python/nws_api.py:473-480 | `limit` is always sent, and first; location, start and end only when given |
| NwsApi.ObservationParamsLookup | python/nws_api.py:358-363 | start and end are sent iff given, as their `strftime` text |
| NwsApi.SingleParamLookup | python/nws_api.py:421-423 | the one filter of `get_stations`/`get_zones` is sent iff truthy, otherwise the dict is empty |
| NwsApi.DefaultAlertParams | python/nws_api.py:293-309 | default `get_alerts` sends exactly `{"active": "true"}` |
| NwsApi.FilteredAlertParams | python/nws_api.py:293-309 | given filters appear in insertion order and absent ones are left out |
| NwsApi.DefaultParamExamples | python/nws_api.py:473-480 | default `get_products` sends exactly `{"limit": 50}`; default observations send `{}` |
| NwsApi.RequestOf | python/nws_api.py:188-531 | every failure is a Validation error; `get_points` fails iff a coordinate is outside its inclusive range; `get_zones` fails iff the type is not forecast, county or fire; every other accessor succeeds |
| NwsApi.ValidationFailsFirst | python/nws_api.py:203-206 | out-of-range coordinates and unknown zone types fail with Validation without touching cache or transport |
| NwsApi.CoordinateBounds | python/nws_api.py:203-206 | the range corners are accepted; 91, -91, 181 and -181 are rejected, as is zone type "invalid_type" |
| NwsApi.GridEndpointExamples | python/nws_api.py:265 | grid LWX 97,71 gives "gridpoints/LWX/97,71/forecast", and ".../forecast/hourly" when hourly |
| NwsApi.ObservationEndpointExample | python/nws_api.py:357-365 | observations of station KDCA without a time range go to "stations/KDCA/observations" with an empty parameter dict |
| NwsApi.ZoneEndpointExample | python/nws_api.py:417-424 | forecast zones of area DC go to "zones/forecast" with the single parameter area=DC |
| NwsApi.IconEndpointExample | python/nws_api.py:530-531 | icon "sunny" of set "forecast" goes to "icons/forecast/sunny" without parameters |
| NwsApi.ForecastUrlOf | python/nws_api.py:227-233 | a found URL is the non-empty string under the chosen key of `properties`; a missing or falsy one is NotFound |
| NwsApi.ForecastEndpoint | python/nws_api.py:236 | removing the base URL never lengthens the forecast URL, and a URL that does not contain a non-empty base is requested as it is |
| NwsApi.ForecastUrlRoundTrip | python/nws_api.py:236-237 | a forecast URL `base + "/" + rest`, for a non-empty base, a `rest` that does not start with '/', and no occurrence of the base in `"/" + rest`, comes back as the same URL after `replace(base, "")` and the request's URL construction (a `rest` led by '/' would lose that slash to `lstrip`) |
| NwsApi.ForecastFetch | python/nws_api.py:211-237 | `get_forecast` makes at most two transport calls |
| NwsApi.ForecastUrlMissing | python/nws_api.py:227-233 | for any points object, if the `forecast` (or `forecastHourly` when hourly) URL in its `properties` is missing or falsy, the forecast fails with NotFound after only the points request |
| NwsApi.ForecastUrlFollowed | python/nws_api.py:227-237 | for any points object, the URL is read from `forecastHourly` exactly when hourly, and is then requested with the base URL removed, after the points request |
| NwsApi.WeatherApi.constructor | python/nws_api.py:95-115 | a new client has an empty fresh cache and has made no request |
| NwsApi.WeatherApi.MakeRequest | python/nws_api.py:135-186 | answer, new cache and transport-call count are those of `Fetch` |
| NwsApi.WeatherApi.ServeKey | python/nws_api.py:155-186 | answer, new cache and transport-call count are those of `Serve` for the computed key, with the classified outcome as the transport's answer |
| NwsApi.WeatherApi.Refresh | python/nws_api.py:161-186 | the miss path: one more transport call, the classified answer, and the cache changed only by storing a successful answer until completion time plus expiry |
| NwsApi.WeatherApi.Insert | python/nws_api.py:294-295 | one conditional insertion appends its pair iff the value is present |
| NwsApi.WeatherApi.BuildAlertParams | python/nws_api.py:293-309 | the insertions of `get_alerts` build exactly `AlertParams` |
| NwsApi.WeatherApi.BuildProductParams | python/nws_api.py:473-480 | the insertions of `get_products` build exactly `ProductParams` |
| NwsApi.WeatherApi.BuildObservationParams | python/nws_api.py:358-363 | the insertions of `get_station_observations` build exactly `ObservationParams` |
| NwsApi.WeatherApi.BuildSingleParam | python/nws_api.py:334-336 | the insertion of `get_stations`/`get_zones` builds exactly `SingleParam` |
| NwsApi.WeatherApi.BuildRequest | python/nws_api.py:188-531 | builds exactly `RequestOf` |
| NwsApi.WeatherApi.Get | python/nws_api.py:188-531 | an accessor's answer, new cache and call count are those of `Perform` of its request |
| NwsApi.WeatherApi.GetForecast | python/nws_api.py:211-237 | answer, new cache and call count are those of `ForecastFetch` |
| NwsApi.WeatherApi.GetHourlyForecast | python/nws_api.py:239-250 | `get_forecast` with `hourly` set |
| NwsApi.WeatherApi.ClearCache | python/nws_api.py:533-535 | the cache is empty |
| NwsApi.WeatherApi.CleanCache | python/nws_api.py:537-539 | the cache is `Live` of the old one |

## Left out

- The HTTP session, its headers (the user agent, `Accept`) and the retry
  adapter (python/nws_api.py:117-133) are library plumbing. The transport is
  the `Outcome` it delivers. With the adapter mounted, a 429 or 5xx that
  persists through the retries arrives as a transport failure (a retry error),
  which the model classifies like the source: as a generic failure.
- Logging and the environment-variable lookup of the settings
  (python/nws_api.py:12-26) are glue. The defaults are constants, and the
  settings are the fields of `Config`. The `user_agent` field is not kept.
- `time.time()` and `datetime.now()` are parameters (`now`, `doneAt`).
- `datetime.fromisoformat`, `strftime`, the `:.4f` rendering of coordinates
  and `json.dumps` are abstract functions with no properties beyond being
  functions.
- The float unit converters `celsius_to_fahrenheit` … `mph_to_kph`
  (python/nws_utils.py:203-273) are floating-point arithmetic and are not part
  of this model. `celsius` and `fahrenheit` are on exact reals.
- `get_coordinates_from_address` (python/nws_utils.py:183-201) is a stub that
  always returns `None`.
- `lower()` and `isdigit()` are ASCII-only here. Python also lower-cases and
  recognises non-ASCII letters and digits.
- Python ints and floats inside JSON are one exact `real`. A period's wind
  speed is stored as a real of the parsed integer.
- Typed records: the records have typed fields, where the Python dataclasses
  accept any value. `null` is kept as "no value" in every numeric field (the
  period `temperature`, each measurement `value`, humidity, pressure,
  visibility and the precipitation probability) and in the optional text
  fields (`icon`, `textDescription`, `headline`, `instruction`). Every other
  JSON value of an unexpected type that the source would store or iterate is
  a `ParseError` in the model. The complete list:
  - a non-number (other than `null`) in one of those numeric fields;
  - a non-string (`null` included) in a text field stored as is: the period
    `name`, `shortForecast`, `detailedForecast`, `temperatureUnit` and
    `windDirection`; the observation `station`; the alert `id`, `event`,
    `description`, `severity`, `certainty`, `urgency`, `status`,
    `messageType`, `category` and `response`;
  - a non-string other than `null` in one of the optional text fields;
  - a non-string element of `SAME`;
  - a string or object where a list is iterated (`periods`, `affectedZones`,
    `SAME`): the source iterates its characters or keys;
  - a non-string period `windSpeed` that the source can still iterate: a
    list of strings or an object, whose digit elements or keys
    `filter(str.isdigit, …)` joins (`["1", "5"]` reads as 15).
  Where the source itself raises, the model fails as well: a non-object
  document, `properties`, measurement group or `geocode`; a non-string
  timestamp, `unitCode` or zone URL; a number or `null` as `windSpeed`, or an
  iterable `windSpeed` with a non-string element.
- WeatherModels.Celsius, WeatherModels.Fahrenheit: converting requires a
  value. With a `None` value in the converting unit the source raises
  `TypeError`; the model does not define that call.
- The parsers: a falsy non-string `updated` (such as `0`) is `None` in the
  model, where the source keeps that value.
- NwsUtils.WindSpeed: follows the code, which concatenates every digit of the
  text ("10 to 15 mph" is 1015). It is not the first integer of the text, as a
  reader of the field name might expect.
- NwsApi.Classify: a body that is not JSON gives "Invalid JSON response", per
  the source's explicit branch. With newer versions of the HTTP library, that
  decode error is also a transport error, and the earlier branch reports it as
  "Request failed: …". Both are the generic kind.
- NwsApi.Fetch: its properties are stated in the lemma `FetchContract`, not in
  its own `ensures`.
- NwsApi.ForecastFetch: its properties are stated in `ForecastUrlMissing` and `ForecastUrlFollowed`, not
  in its own `ensures`.
- `str.replace` with an empty pattern is modelled (it inserts the replacement
  around every character). The only property proved for it is the
  empty-by-empty case, which matters when the base URL is empty.
