# Weatherly in Dafny

Weatherly is a React weather dashboard over the OpenWeather APIs. This project models the logic it contains besides rendering and transport:

- **The provider client** (`src/utils/weatherApi.ts`):
  - the URL each fetch function requests;
  - the error ladder that turns a non-OK response into an `Error` message;
  - the "city not found" rule of forward geocoding;
  - icon URLs and the day/night suffix.
- **The dashboard** (`src/components/WeatherDashboard.tsx`):
  - its state and the handlers that update it (search, current location, unit toggle, input, region);
  - the effect that extracts the 8-entry hourly window from the forecast;
  - the derivation of the five-day chart. Forecast entries are grouped by calendar date, each date is summarised by its rounded mean, minimum and maximum temperature and by the icon of its noon entry, and the first five summaries are kept.
- **The search box** (`src/components/LocationSearch.tsx`): its state and handlers.
- **The One Call components**: what `PrecipitationChart`, `HourlyForecast`, `DailyForecast` and `CurrentWeather` render from their props.

## How things are modelled

**Numbers and rounding**
- Temperatures and speeds are reals.
- `Math.round` is `Units.Round`, the floor of `x + 1/2`. It rounds halves toward +infinity.
- `${n}` of an integer is `Text.IntToString`, proved injective by reading it back.
- A label such as `"72°F"` is read back by `Units.ReadTemp`. Contracts about labels therefore state the number and unit a label shows, not its characters.

**Failures**
- Reading `weather[0].icon` of an empty `weather` array throws a `TypeError` in JavaScript. It is modelled as a value, never as a precondition:
  - `None`, in the chart data and the hourly window;
  - `Rendered.TypeError`, in the components.
- A fetch outcome is an input: `Reply` for one request, `Dashboard.PairOutcome` for the pair the dashboard awaits.

**Object order**
- `Object.entries` lists non-integer keys in insertion order, and date keys are taken to be "YYYY-MM-DD" strings (see "Left out"). The grouping is therefore specified by two functions:
  - `Dates`, the distinct dates in order of first appearance;
  - `ItemsOn`, the entries of one date in list order.
- The imperative `reduce` is the method `ForecastDerivation.GroupByDate`, proved to build exactly that dictionary.
- `ForecastDerivation.ComputeChartData` is proved equal to the specification `ChartDataOf`.

**Components and handlers**
- React state becomes the fields of a class: `Dashboard.Dashboard` and `LocationSearch.SearchBox`.
- Each awaited handler of the dashboard is split at its `await` into `Begin…` and `Finish…`, because the pending state (spinner on, error cleared) is observable.
- Callbacks a component receives are modelled by what it passes to them, returned as method results.

## What the proofs show about the code as written

- **Double rounding on the dashboard.** The hourly window and the chart summaries round temperatures in Celsius (`WeatherDashboard.tsx:97`, `:199-201`). The dashboard then shows them through its converting `formatTemp` (`:429`, `:452-454`), which rounds again after converting. In imperial mode, 0.4 °C is shown as "32°F" where converting first would give "33°F" (`ForecastDerivation.HourlyImperialRoundsTwice`).
- **Mixed units in `CurrentWeather`.** `CurrentWeather` converts the wind speed for imperial display (×2.237) but never converts temperatures. `HourlyForecast` and `DailyForecast` convert neither. Their labels are correct only when the caller fetched the data in the display unit (`Units.ComponentsExpectValuesInDisplayUnit`, `Units.ComponentsMislabelMetricValues`, `CurrentWeather.RenderStates`).
- **Two kinds of empty query.** The dashboard searches `query || region`, so a query of spaces is sent as typed. `LocationSearch` trims first and searches the region instead (`Dashboard.Dashboard.SearchTarget`, `LocationSearch.SearchBox.HandleSearch`).
- **The hourly window can go stale.** After a failed search both payloads are cleared. The hourly effect runs because `forecastData` changed, but its `forecastData && forecastData.list` guard skips a `null` forecast. `hourlyData` therefore keeps the previous city's hours while the chart is empty (`Dashboard.Dashboard.FinishSearch`, `Dashboard.ChartAfterSearch`). It is not rendered while `weatherData` is empty.
- **All dates are summarised, not only the five kept.** The chart maps every date before slicing. An entry without a condition in the sixth date still makes the render throw (`ForecastDerivation.ChartDataFailsIffSomeDateLacksCondition`).

## Model

| member | source | states |
|---|---|---|
| Wrappers.AllSome | src/components/WeatherDashboard.tsx:95-103 | a `map` whose callback may throw succeeds exactly when every element succeeds, and then yields each element's value at its index |
| Text.IntToStringRoundTrip | src/components/WeatherDashboard.tsx:155-157 | the decimal text of an integer reads back as that integer, so a label determines the number it shows |
| Text.SplitFirstPart | src/components/WeatherDashboard.tsx:174 | the first part of `split(' ')` is the longest prefix free of spaces, followed by a space or the end |
| Text.SplitJoinRoundTrip | src/utils/weatherApi.ts:105 | splitting a comma-joined list gives the list back when no entry contains a comma |
| Text.Includes | src/components/WeatherDashboard.tsx:195 | `includes` is true exactly when the pattern occurs at some position |
| Text.TrimEmptyIffBlank | src/components/LocationSearch.tsx:29 | `trim()` is empty exactly when every character is JavaScript white space |
| Units.Toggle | src/components/WeatherDashboard.tsx:148-150 | the toggle always changes the unit |
| Units.ToggleTwice | src/components/WeatherDashboard.tsx:148-150 | toggling twice restores the unit |
| Units.Round | src/components/WeatherDashboard.tsx:155-157 | `Math.round` gives the integer within one half below and strictly less than one half above |
| Units.RoundMonotone | src/components/WeatherDashboard.tsx:199-201 | rounding preserves order |
| Units.TempLabelRoundTrip | src/components/HourlyForecast.tsx:17-19 | the components' temperature label shows the rounded value as given and the unit's suffix |
| Units.WindLabelRoundTrip | src/components/HourlyForecast.tsx:51-52 | the components' wind label shows the rounded value as given and " m/s" or " mph" |
| Units.ConvertedTempRoundTrip | src/components/WeatherDashboard.tsx:153-158 | the dashboard's `formatTemp` shows round(t·9/5+32) °F in imperial mode and round(t) °C in metric mode |
| Units.ConvertedWindRoundTrip | src/components/WeatherDashboard.tsx:508-510 | the wind label shows round(s·2.237) mph in imperial mode and round(s) m/s in metric mode |
| Units.ComponentsExpectValuesInDisplayUnit | src/components/CurrentWeather.tsx:18-20 | the components' labels equal the dashboard's for values already in the display unit |
| Units.ComponentsMislabelMetricValues | src/components/HourlyForecast.tsx:17-19 | and only for those: in imperial mode a Celsius or m/s value whose rounded converted figure differs gets a different label from the components than from the dashboard (0 °C: "0°F" against "32°F") |
| Units.TenMetresPerSecondIs22Mph | src/components/WeatherDashboard.tsx:510 | 10 m/s is shown as "22 mph" |
| WeatherTypes.PrimaryCondition | src/components/WeatherDashboard.tsx:98-99 | `weather[0]` exists exactly when the array is non-empty, and is its first element |
| WeatherApi.BodyMessage | src/utils/weatherApi.ts:31-33 | a message is yielded exactly for a parsed body with a non-empty `message`, and it is that message |
| WeatherApi.ErrorMessage | src/utils/weatherApi.ts:30-40 | every non-OK response produces a non-empty error message |
| WeatherApi.BodyMessageWins | src/utils/weatherApi.ts:59-62 | a body message is the error whatever the status and status text |
| WeatherApi.UnparseableBodyHasNoMessage | src/utils/weatherApi.ts:84-86 | an unparseable body, a body without `message` and an empty `message` give the same error |
| WeatherApi.StatusLadder | src/utils/weatherApi.ts:111-121 | without a body message, the four name and One Call fetches map 404 and 401 to fixed messages and all else to the prefixed status text |
| WeatherApi.CoordinateFetchesIgnoreStatus | src/utils/weatherApi.ts:176-182 | the coordinate fetches and reverse geocoding give the same error for every status |
| WeatherApi.FetchOutcome | src/utils/weatherApi.ts:194-203 | a fetch returns the payload exactly when the status is 2xx, and otherwise fails with the ladder's message |
| WeatherApi.GeocodeCityOutcome | src/utils/weatherApi.ts:43-48 | geocoding succeeds exactly for an OK non-empty body, returns it unchanged, fails an OK empty or null body with "City not found", and fails a non-OK reply with the ladder's message |
| WeatherApi.ReverseGeocodeAcceptsEmpty | src/utils/weatherApi.ts:221 | reverse geocoding returns an empty list without error, where forward geocoding fails |
| WeatherApi.ExcludeParam | src/utils/weatherApi.ts:105 | the exclude parameter is empty exactly when nothing is excluded |
| WeatherApi.ExcludeParamRoundTrip | src/utils/weatherApi.ts:105 | the parameter is "&exclude=" followed by text that splits back into the excluded sections |
| WeatherApi.RequestUrl | src/utils/weatherApi.ts:100-108 | each fetch function's URL starts with its own endpoint and first query parameter |
| WeatherApi.ApiKeyInEveryUrl | src/utils/weatherApi.ts:107 | every request URL, geocoding included, carries the API key as `&appid=` |
| WeatherApi.UnitsParameterInUrl | src/utils/weatherApi.ts:107-108 | every weather URL carries `units=`: metric for the 2.5 endpoints, the caller's units (metric by default) for One Call |
| WeatherApi.IconUrlRoundTrip | src/utils/weatherApi.ts:128-130 | an icon URL determines the icon code and the size, which defaults to 2 |
| WeatherApi.DayNightSuffix | src/utils/weatherApi.ts:165-168 | the suffix is 'd' exactly for the hours 6 through 17, and 'n' otherwise |
| WeatherApi.DayAndNightAreOppositeHalves | src/utils/weatherApi.ts:165-168 | the suffix is 'd' or 'n', and hours twelve apart always get different suffixes |
| ForecastDerivation.DateKey | src/components/WeatherDashboard.tsx:174 | the date key is the prefix of `dt_txt` before its first space |
| ForecastDerivation.GroupByDate | src/components/WeatherDashboard.tsx:173-180 | the `reduce` builds a dictionary whose keys are the distinct dates in insertion order and whose value for each date is that date's entries in list order |
| ForecastDerivation.ItemsOnMembers | src/components/WeatherDashboard.tsx:175-178 | an entry is in a date's bucket exactly when it is in the list and has that date |
| ForecastDerivation.DatesCover | src/components/WeatherDashboard.tsx:175-177 | a date has a bucket exactly when some entry has that date |
| ForecastDerivation.DatesDistinct | src/components/WeatherDashboard.tsx:175-177 | no date gets two buckets |
| ForecastDerivation.ItemsOnConcat | src/components/WeatherDashboard.tsx:178 | bucketing keeps list order: the bucket of a concatenation is the concatenation of the buckets |
| ForecastDerivation.DatesInFirstAppearanceOrder | src/components/WeatherDashboard.tsx:183 | buckets are listed in the order of their dates' first entries |
| ForecastDerivation.BucketsPartitionItems | src/components/WeatherDashboard.tsx:173-183 | the buckets together hold every entry exactly as often as the list does |
| ForecastDerivation.ExactlyOneBucket | src/components/WeatherDashboard.tsx:173-180 | every entry is in exactly one bucket |
| ForecastDerivation.BucketAt | src/components/WeatherDashboard.tsx:183 | bucket i holds the entries of the i-th date, all of that date, and is never empty |
| ForecastDerivation.Min | src/components/WeatherDashboard.tsx:192 | `Math.min` is an element and a lower bound |
| ForecastDerivation.Max | src/components/WeatherDashboard.tsx:193 | `Math.max` is an element and an upper bound |
| ForecastDerivation.MeanBetweenMinAndMax | src/components/WeatherDashboard.tsx:199 | the average lies between the minimum and the maximum |
| ForecastDerivation.FindNoon | src/components/WeatherDashboard.tsx:195 | `find` returns the first entry whose `dt_txt` contains "12:00:00", or none when no entry does |
| ForecastDerivation.RepresentativeChoice | src/components/WeatherDashboard.tsx:195 | the representative is the first noon entry if there is one, else the first entry |
| ForecastDerivation.Summarize | src/components/WeatherDashboard.tsx:197-204 | a summary exists exactly when the representative has a condition, and its rounded minimum ≤ rounded mean ≤ rounded maximum |
| ForecastDerivation.SummarizeAll | src/components/WeatherDashboard.tsx:183-204 | every bucket is summarised in order, and the map fails exactly when one summary fails |
| ForecastDerivation.Take | src/components/WeatherDashboard.tsx:205 | `slice(0, 5)` is the prefix of length min(5, n) |
| ForecastDerivation.ComputeChartData | src/components/WeatherDashboard.tsx:170-206 | the step-by-step grouping, entries, map and slice compute exactly the specified chart |
| ForecastDerivation.ChartData | src/components/WeatherDashboard.tsx:170-171 | the chart is empty without a forecast or its `list`, holds at most five days, and is empty exactly when there are no entries |
| ForecastDerivation.ChartDataFailsIffSomeDateLacksCondition | src/components/WeatherDashboard.tsx:202-203 | the chart throws exactly when the representative of some date, among all dates, has no condition |
| ForecastDerivation.ChartDataLength | src/components/WeatherDashboard.tsx:205 | the chart has min(5, number of dates) entries |
| ForecastDerivation.ChartDataEntry | src/components/WeatherDashboard.tsx:191-203 | chart entry i is the weekday of the i-th date, the rounded min, max and mean of its unrounded temperatures, and its representative's icon and description |
| ForecastDerivation.HourlyWindowIsFirstEight | src/components/WeatherDashboard.tsx:94-103 | the hourly window is the first min(8, n) entries in order, with time, icon, description and humidity copied, rounded temperature and wind and precipitation pop·100 unrounded, and fails exactly when one of them has no condition |
| ForecastDerivation.HourlyImperialRoundsTwice | src/components/WeatherDashboard.tsx:97 | an hourly temperature of 0.4 °C is stored as 0 and shown as "32°F", where the unrounded value would show "33°F" |
| Dashboard.ErrorText | src/components/WeatherDashboard.tsx:119 | `err.message || fallback` is the message when it is non-empty, else the fallback |
| Dashboard.CurrentPanelReadsBack | src/components/WeatherDashboard.tsx:495-510 | the panel shows temperature and feels-like converted once to the selected unit and rounded, and wind converted to mph in imperial mode |
| Dashboard.Dashboard.constructor | src/components/WeatherDashboard.tsx:74-83 | the initial state: empty query, the first region, no data, metric, no error, no spinners |
| Dashboard.Dashboard.SearchTarget | src/components/WeatherDashboard.tsx:111 | a search asks for the query when it is non-empty, else for the region |
| Dashboard.Dashboard.SyncHourly | src/components/WeatherDashboard.tsx:91-105 | with a forecast list the hourly data becomes its window; without one nothing changes |
| Dashboard.Dashboard.BeginSearch | src/components/WeatherDashboard.tsx:107-111 | while a search is pending the spinner shows and the error is cleared |
| Dashboard.Dashboard.FinishSearch | src/components/WeatherDashboard.tsx:116-124 | success stores both payloads; failure sets the message or "Failed to fetch weather data" and clears both; loading ends either way |
| Dashboard.Dashboard.HandleSearch | src/components/WeatherDashboard.tsx:107-125 | the whole search of the target city: payloads, error and hourly window as `FinishSearch` gives them for that city's outcome, after which the weather panel is missing exactly when an error is set |
| Dashboard.Dashboard.BeginLocation | src/components/WeatherDashboard.tsx:128-130 | while the location fetch is pending its spinner shows and the error is cleared |
| Dashboard.Dashboard.FinishLocation | src/components/WeatherDashboard.tsx:137-144 | success stores both payloads and clears the query; failure sets the message or "Failed to get location weather" and keeps the previous data; the hourly window follows a fetched list and is unchanged otherwise |
| Dashboard.Dashboard.ToggleUnit | src/components/WeatherDashboard.tsx:148-150 | the unit is toggled and nothing else changes |
| Dashboard.Dashboard.OnQueryInput | src/components/WeatherDashboard.tsx:281-283 | typing sets the query only |
| Dashboard.Dashboard.OnKeyDown | src/components/WeatherDashboard.tsx:284-286 | Enter runs a search of the target city and yields it, with the payloads, error and hourly window that search gives; any other key changes nothing |
| Dashboard.Dashboard.OnRegionChange | src/components/WeatherDashboard.tsx:293-296 | choosing a region sets it and clears the query, so the next search asks for the region |
| Dashboard.Dashboard.Chart | src/components/WeatherDashboard.tsx:170-171 | the dashboard's chart is empty while there is no forecast, and never shows more than five days |
| Dashboard.Dashboard.Panel | src/components/WeatherDashboard.tsx:356 | the panel is shown exactly when there is weather data and no search is pending |
| Dashboard.ToggleUnitTwice | src/components/WeatherDashboard.tsx:148-150 | toggling twice restores the unit and leaves every other field unchanged |
| Dashboard.ChartAfterSearch | src/components/WeatherDashboard.tsx:116-121 | after a search settles, the chart is that of the fetched list, or empty when the list is missing or the search failed, while a failure leaves the hourly window unchanged |
| Dashboard.RegionThenSearch | src/components/WeatherDashboard.tsx:293-296 | after a region change, a search asks for that region |
| LocationSearch.ResultDetail | src/components/LocationSearch.tsx:135-136 | a candidate's detail line is "state, country" when the state is non-empty, else the country |
| LocationSearch.SearchBox.constructor | src/components/LocationSearch.tsx:24-26 | the initial state: empty query, the first region, the list closed |
| LocationSearch.SearchBox.HandleSearch | src/components/LocationSearch.tsx:28-36 | a query with a non-white-space character is searched untrimmed and opens the list; otherwise the region is searched and the list closes |
| LocationSearch.SearchBox.HandleKeyDown | src/components/LocationSearch.tsx:38-42 | only Enter searches; other keys change nothing |
| LocationSearch.SearchBox.HandleLocationSelect | src/components/LocationSearch.tsx:44-52 | selecting passes exactly the candidate's lat, lon, name and country, then clears the query and closes the list |
| LocationSearch.SearchBox.OnQueryInput | src/components/LocationSearch.tsx:67-69 | typing sets the query only |
| LocationSearch.SearchBox.OnRegionChange | src/components/LocationSearch.tsx:75-78 | choosing a region sets it and clears the query; whether the list is open is unchanged |
| LocationSearch.ChooseRegionThenSearch | src/components/LocationSearch.tsx:32-35 | after a region change, a search asks for the region and leaves the list closed, whatever the candidates |
| LocationSearch.SelectHidesResults | src/components/LocationSearch.tsx:109 | after a selection the candidate list is not rendered, whatever the candidates |
| PrecipitationChart.ChartPointsRoundTrip | src/components/PrecipitationChart.tsx:24-28 | the points have the input's length and order and copy `dt` and `precipitation` per index |
| PrecipitationChart.LabelsOnEveryTenthPoint | src/components/PrecipitationChart.tsx:25 | a point is labelled with its time at indices divisible by 10 and with "" elsewhere |
| PrecipitationChart.AtMostOneLabelPerTenPoints | src/components/PrecipitationChart.tsx:25 | among the first k points at most ceil(k/10) carry a label |
| PrecipitationChart.HasPrecipitation | src/components/PrecipitationChart.tsx:31 | `some` is true exactly when some minute has precipitation above zero |
| PrecipitationChart.RenderCases | src/components/PrecipitationChart.tsx:19-42 | nothing for missing or empty data; the notice exactly when no minute is above zero; otherwise the chart of the input |
| HourlyForecast.SliceEnd | src/components/HourlyForecast.tsx:22 | `slice(0, k)` ends at min(k, n), or counts back from the end for a negative k |
| HourlyForecast.NothingForNoHours | src/components/HourlyForecast.tsx:12-14 | nothing is rendered exactly for missing or empty data |
| HourlyForecast.ShownCountDefault | src/components/HourlyForecast.tsx:11 | `hoursToShow` defaults to 24, and a non-negative k shows min(k, n) entries |
| HourlyForecast.RenderFailsIffShownEntryLacksCondition | src/components/HourlyForecast.tsx:43-44 | the render throws exactly when a shown entry has no condition, and otherwise shows one card per shown entry |
| HourlyForecast.RenderCard | src/components/HourlyForecast.tsx:39-53 | card i says "Now" first and the formatted time after; temperature and wind are rounded with no conversion; rain is round(pop·100) |
| DailyForecast.RenderOutcome | src/components/DailyForecast.tsx:11-13 | nothing for missing or empty data; the render throws exactly when an entry has no condition, else one row per entry |
| DailyForecast.RenderRow | src/components/DailyForecast.tsx:29-60 | row i says "Today" first and the weekday after; min and max are rounded with no conversion; rain is round(pop·100); wind is rounded with no conversion |
| CurrentWeather.NothingWithoutData | src/components/CurrentWeather.tsx:13-15 | nothing is rendered exactly when the data is absent |
| CurrentWeather.RenderStates | src/components/CurrentWeather.tsx:18-61 | temperatures are rounded with no conversion while the wind is converted to mph in imperial mode; the main icon is `weather[0].icon` at size 4 |

## Left out

- Transport is not modelled. That covers `fetch`, `res.json()`, the async sequencing of `Promise.all`, and the mount effect that starts the first search. Fetch results are inputs: `Reply` for one request, and `PairOutcome` for the pair with the first rejection's message.
- Browser geolocation (`getUserLocation`) and the API key read from the environment are platform calls. A position failure is one more `Failed` outcome of `FinishLocation`, and the key is a field of `UrlContext`.
- Locale formatting is not modelled. That covers `toLocaleTimeString`, `toLocaleDateString`, `formatTime`, `formatDate`, `encodeURIComponent`, and JavaScript's rendering of non-integral numbers in URLs. They are function parameters with no assumed behaviour.
- `toFixed(1)` for visibility and UV and the sunrise/sunset times are display formatting over IEEE doubles. They are not part of the views.
- Arithmetic is over exact reals. The exact double results of `* 2.237`, `* 9/5` and the average, including rounding at ties produced by floating-point error, are not modelled.
- JSX, Radix and recharts output, styling, and the active-tab state are not part of this model. The commented-out emoji icon map is left out because it is not code.
- `WeatherAlerts.tsx` is not part of this model. It is dialog glue around a list.
- ForecastDerivation.GroupByDate: date keys are taken to be the provider's "YYYY-MM-DD" strings. A key that looks like an array index would be listed by `Object.entries` in numeric order ahead of the others. A key naming an `Object.prototype` member ("constructor", "toString") would find an inherited value and make `push` throw. The model lists every key in insertion order with an ordinary bucket.
- ForecastDerivation.Dates and ForecastDerivation.ComputeChartData: the same assumption about date keys applies to the order they give.
- LocationSearch.SearchBox.constructor: it requires a non-empty region list. With an empty list, `regions[0].value` would throw a `TypeError` while the component renders, and that crash is not modelled.
- Dashboard.Dashboard.SyncHourly: a `TypeError` thrown inside the effect is recorded in `effectFailed`. React's own reaction to it, the error boundary, is not modelled.
- `Rendered.TypeError` and the `None` of `ChartData` and `HourlyWindow` stand for a render that throws. What React shows afterwards is not modelled.
- The dashboard's tooltip formatter and its visibility, humidity and pressure texts are plain interpolation and are not modelled.
