/** The WeatherDashboard component's state and its event handlers. The component's
    `useState` slots are the fields of `Dashboard`; each handler is a method that
    updates them. A handler that awaits a fetch is split at the `await`: `Begin...`
    is what happens before it (the spinner shows, the error is cleared) and
    `Finish...` what happens when the paired fetch settles. The outcome of the
    fetches is an input; the time-of-day formatter is a parameter fixed at
    construction. */
module Dashboard {
  import opened Wrappers
  import opened Units
  import opened WeatherTypes
  import opened ForecastDerivation

  const Regions: seq<Region> := [
    Region("New York, US", "New York,US"),
    Region("London, UK", "London,UK"),
    Region("Tokyo, JP", "Tokyo,JP"),
    Region("Lagos, NG", "Lagos,NG"),
    Region("Sydney, AU", "Sydney,AU"),
    Region("Paris, FR", "Paris,FR"),
    Region("Berlin, DE", "Berlin,DE"),
    Region("Mumbai, IN", "Mumbai,IN"),
    Region("Cairo, EG", "Cairo,EG"),
    Region("Rio de Janeiro, BR", "Rio de Janeiro,BR")
  ]

  const SearchFailedMessage := "Failed to fetch weather data"
  const LocationFailedMessage := "Failed to get location weather"

  /** How the paired current-weather and forecast fetches settled: both payloads, or
      the message of the first rejection ("" when the error had no message). */
  datatype PairOutcome =
    | Fetched(weather: LegacyWeather, forecast: LegacyForecast)
    | Failed(message: string)

  /** `err.message || fallback`. */
  function ErrorText(message: string, fallback: string): (text: string)
    ensures message != "" ==> text == message
    ensures message == "" ==> text == fallback
  {
    if message != "" then message else fallback
  }

  /** The figures of the current-conditions panel, as rendered. */
  datatype CurrentPanel = CurrentPanel(
    temp: string, feelsLike: string, wind: string, humidity: int, pressure: int, icon: Option<string>)

  /** The panel for a current-weather payload: temperatures through the converting
      `formatTemp`, wind converted for imperial; the icon is optional-chained. */
  function CurrentPanelOf(u: Unit, w: LegacyWeather): CurrentPanel {
    var icon := match PrimaryCondition(w.weather)
      case Some(c) => Some(c.icon)
      case None => None;
    CurrentPanel(FormatConvertedTemp(u, w.temp), FormatConvertedTemp(u, w.feelsLike),
                 FormatConvertedWind(u, w.windSpeed), w.humidity, w.pressure, icon)
  }

  /** The panel states the payload's temperatures and wind speed converted to the selected
      unit, each rounded once, together with that unit. */
  lemma CurrentPanelReadsBack(u: Unit, w: LegacyWeather)
    ensures ReadTemp(CurrentPanelOf(u, w).temp) == Some(Reading(Round(TempIn(u, w.temp)), u))
    ensures ReadTemp(CurrentPanelOf(u, w).feelsLike) == Some(Reading(Round(TempIn(u, w.feelsLike)), u))
    ensures ReadWind(CurrentPanelOf(u, w).wind) == Some(Reading(Round(SpeedIn(u, w.windSpeed)), u))
    ensures CurrentPanelOf(u, w).icon.Some? <==> |w.weather| > 0
  {
    ConvertedTempRoundTrip(u, w.temp);
    ConvertedTempRoundTrip(u, w.feelsLike);
    ConvertedWindRoundTrip(u, w.windSpeed);
  }

  class Dashboard {
    var query: string
    var region: string
    var weatherData: Option<LegacyWeather>
    var forecastData: Option<LegacyForecast>
    var loading: bool
    var locationLoading: bool
    var error: string
    var unit: Unit
    var hourlyData: seq<HourPoint>
    /** Set when the hourly effect threw reading `weather[0]` of an entry without one. */
    var effectFailed: bool
    /** `new Date(dt * 1000).toLocaleTimeString(...)`. */
    const formatClock: int -> string

    /** The first render, before the mount effect has started a search. */
    constructor(formatClock: int -> string)
      ensures query == "" && region == Regions[0].value
      ensures weatherData.None? && forecastData.None?
      ensures !loading && !locationLoading && error == ""
      ensures unit == Metric && hourlyData == [] && !effectFailed
      ensures this.formatClock == formatClock
    {
      query := "";
      region := Regions[0].value;
      weatherData := None;
      forecastData := None;
      loading := false;
      locationLoading := false;
      error := "";
      unit := Metric;
      hourlyData := [];
      effectFailed := false;
      this.formatClock := formatClock;
    }

    /** The city a search asks for: the typed query, or the region when the query is empty. */
    function SearchTarget(): (city: string)
      reads this
      ensures city == query || city == region
      ensures city == query <== query != ""
      ensures city == region <== query == ""
    {
      if query != "" then query else region
    }

    /** The effect on `forecastData`: when it holds a `list`, `hourlyData` becomes its
        first eight entries mapped; otherwise nothing changes. */
    method SyncHourly()
      modifies this
      ensures forecastData.None? || forecastData.value.list.None? ==> unchanged(this)
      ensures forecastData.Some? && forecastData.value.list.Some? ==>
                var window := HourlyWindow(forecastData.value.list.value, formatClock);
                && (window.Some? ==> hourlyData == window.value && effectFailed == old(effectFailed))
                && (window.None? ==> hourlyData == old(hourlyData) && effectFailed)
      ensures query == old(query) && region == old(region) && unit == old(unit)
      ensures weatherData == old(weatherData) && forecastData == old(forecastData)
      ensures loading == old(loading) && locationLoading == old(locationLoading) && error == old(error)
    {
      if forecastData.Some? && forecastData.value.list.Some? {
        var window := HourlyWindow(forecastData.value.list.value, formatClock);
        if window.Some? {
          hourlyData := window.value;
        } else {
          effectFailed := true;
        }
      }
    }

    /** `handleSearch` up to its `await`: the spinner shows and the error is cleared. */
    method BeginSearch() returns (city: string)
      modifies this
      ensures city == old(SearchTarget())
      ensures loading && error == ""
      ensures query == old(query) && region == old(region) && unit == old(unit)
      ensures weatherData == old(weatherData) && forecastData == old(forecastData)
      ensures locationLoading == old(locationLoading)
      ensures hourlyData == old(hourlyData) && effectFailed == old(effectFailed)
    {
      loading := true;
      error := "";
      city := SearchTarget();
    }

    /** `handleSearch` after its `await`: both payloads on success; on failure the error
        message (or the fallback) and neither payload. The spinner stops either way. */
    method FinishSearch(outcome: PairOutcome)
      modifies this
      ensures !loading
      ensures outcome.Fetched? ==> weatherData == Some(outcome.weather)
                                   && forecastData == Some(outcome.forecast)
                                   && error == old(error)
      ensures outcome.Failed? ==> weatherData.None? && forecastData.None?
                                  && error == ErrorText(outcome.message, SearchFailedMessage)
      ensures outcome.Failed? ==> hourlyData == old(hourlyData) && effectFailed == old(effectFailed)
      ensures outcome.Fetched? && outcome.forecast.list.Some? ==>
                var window := HourlyWindow(outcome.forecast.list.value, formatClock);
                && (window.Some? ==> hourlyData == window.value && effectFailed == old(effectFailed))
                && (window.None? ==> hourlyData == old(hourlyData) && effectFailed)
      ensures outcome.Fetched? && outcome.forecast.list.None? ==>
                hourlyData == old(hourlyData) && effectFailed == old(effectFailed)
      ensures query == old(query) && region == old(region) && unit == old(unit)
      ensures locationLoading == old(locationLoading)
    {
      match outcome {
        case Fetched(w, f) =>
          weatherData := Some(w);
          forecastData := Some(f);
        case Failed(m) =>
          error := ErrorText(m, SearchFailedMessage);
          weatherData := None;
          forecastData := None;
      }
      loading := false;
      SyncHourly();
    }

    /** `handleSearch` as a whole, for fetches that settle with `fetchPair(city)`. After
        it, the panel is hidden exactly when an error is shown. */
    method HandleSearch(fetchPair: string -> PairOutcome) returns (city: string)
      modifies this
      ensures city == old(SearchTarget())
      ensures !loading
      ensures fetchPair(city).Fetched? ==>
                && weatherData == Some(fetchPair(city).weather)
                && forecastData == Some(fetchPair(city).forecast)
                && error == ""
      ensures fetchPair(city).Failed? ==>
                && weatherData.None? && forecastData.None?
                && error == ErrorText(fetchPair(city).message, SearchFailedMessage)
      ensures weatherData.None? <==> error != ""
      ensures fetchPair(city).Failed? ==> hourlyData == old(hourlyData) && effectFailed == old(effectFailed)
      ensures fetchPair(city).Fetched? && fetchPair(city).forecast.list.Some? ==>
                var window := HourlyWindow(fetchPair(city).forecast.list.value, formatClock);
                && (window.Some? ==> hourlyData == window.value && effectFailed == old(effectFailed))
                && (window.None? ==> hourlyData == old(hourlyData) && effectFailed)
      ensures fetchPair(city).Fetched? && fetchPair(city).forecast.list.None? ==>
                hourlyData == old(hourlyData) && effectFailed == old(effectFailed)
      ensures query == old(query) && region == old(region) && unit == old(unit)
      ensures locationLoading == old(locationLoading)
    {
      city := BeginSearch();
      FinishSearch(fetchPair(city));
    }

    /** `handleGetLocationWeather` up to its first `await`. */
    method BeginLocation()
      modifies this
      ensures locationLoading && error == ""
      ensures query == old(query) && region == old(region) && unit == old(unit)
      ensures weatherData == old(weatherData) && forecastData == old(forecastData)
      ensures loading == old(loading)
      ensures hourlyData == old(hourlyData) && effectFailed == old(effectFailed)
    {
      locationLoading := true;
      error := "";
    }

    /** `handleGetLocationWeather` once the position and both fetches have settled
        (`outcome` is `Failed` when any of them rejected): on success both payloads
        and an empty query; on failure an error, with the previous payloads kept. */
    method FinishLocation(outcome: PairOutcome)
      modifies this
      ensures !locationLoading
      ensures outcome.Fetched? ==> weatherData == Some(outcome.weather)
                                   && forecastData == Some(outcome.forecast)
                                   && query == "" && error == old(error)
      ensures outcome.Failed? ==> weatherData == old(weatherData) && forecastData == old(forecastData)
                                  && query == old(query)
                                  && error == ErrorText(outcome.message, LocationFailedMessage)
                                  && hourlyData == old(hourlyData) && effectFailed == old(effectFailed)
      ensures outcome.Fetched? && outcome.forecast.list.Some? ==>
                var window := HourlyWindow(outcome.forecast.list.value, formatClock);
                && (window.Some? ==> hourlyData == window.value && effectFailed == old(effectFailed))
                && (window.None? ==> hourlyData == old(hourlyData) && effectFailed)
      ensures outcome.Fetched? && outcome.forecast.list.None? ==>
                hourlyData == old(hourlyData) && effectFailed == old(effectFailed)
      ensures region == old(region) && unit == old(unit) && loading == old(loading)
    {
      match outcome {
        case Fetched(w, f) =>
          weatherData := Some(w);
          forecastData := Some(f);
          query := "";
          SyncHourly();
        case Failed(m) =>
          error := ErrorText(m, LocationFailedMessage);
      }
      locationLoading := false;
    }

    /** `toggleUnit`. */
    method ToggleUnit()
      modifies this
      ensures unit == Toggle(old(unit))
      ensures query == old(query) && region == old(region)
      ensures weatherData == old(weatherData) && forecastData == old(forecastData)
      ensures loading == old(loading) && locationLoading == old(locationLoading) && error == old(error)
      ensures hourlyData == old(hourlyData) && effectFailed == old(effectFailed)
    {
      unit := Toggle(unit);
    }

    /** The search box's `onChange`. */
    method OnQueryInput(value: string)
      modifies this
      ensures query == value
      ensures region == old(region) && unit == old(unit)
      ensures weatherData == old(weatherData) && forecastData == old(forecastData)
      ensures loading == old(loading) && locationLoading == old(locationLoading) && error == old(error)
      ensures hourlyData == old(hourlyData) && effectFailed == old(effectFailed)
    {
      query := value;
    }

    /** The search box's `onKeyDown`: Enter runs `handleSearch` and yields the city it
        asked for; any other key does nothing. */
    method OnKeyDown(key: string, fetchPair: string -> PairOutcome) returns (searched: Option<string>)
      modifies this
      ensures key != "Enter" ==> searched.None? && unchanged(this)
      ensures key == "Enter" ==> searched == Some(old(SearchTarget()))
      ensures searched.Some? ==>
                var outcome := fetchPair(searched.value);
                && !loading
                && (outcome.Fetched? ==> weatherData == Some(outcome.weather)
                                         && forecastData == Some(outcome.forecast) && error == "")
                && (outcome.Failed? ==> weatherData.None? && forecastData.None?
                                        && error == ErrorText(outcome.message, SearchFailedMessage)
                                        && hourlyData == old(hourlyData) && effectFailed == old(effectFailed))
                && (outcome.Fetched? && outcome.forecast.list.None? ==>
                      hourlyData == old(hourlyData) && effectFailed == old(effectFailed))
                && query == old(query) && region == old(region) && unit == old(unit)
                && locationLoading == old(locationLoading)
      ensures searched.Some? && fetchPair(searched.value).Fetched?
              && fetchPair(searched.value).forecast.list.Some? ==>
                var window := HourlyWindow(fetchPair(searched.value).forecast.list.value, formatClock);
                && (window.Some? ==> hourlyData == window.value && effectFailed == old(effectFailed))
                && (window.None? ==> hourlyData == old(hourlyData) && effectFailed)
    {
      if key == "Enter" {
        var city := HandleSearch(fetchPair);
        searched := Some(city);
      } else {
        searched := None;
      }
    }

    /** The region selector's `onValueChange`: the new region, and the query cleared so
        that the next search uses it. */
    method OnRegionChange(value: string)
      modifies this
      ensures region == value && query == ""
      ensures SearchTarget() == value
      ensures unit == old(unit)
      ensures weatherData == old(weatherData) && forecastData == old(forecastData)
      ensures loading == old(loading) && locationLoading == old(locationLoading) && error == old(error)
      ensures hourlyData == old(hourlyData) && effectFailed == old(effectFailed)
    {
      region := value;
      query := "";
    }

    /** Whether the weather panels are rendered. */
    predicate ShowsWeather()
      reads this
    {
      weatherData.Some? && !loading
    }

    /** The current-conditions panel, when it is rendered. */
    function Panel(): (p: Option<CurrentPanel>)
      reads this
      ensures p.Some? <==> ShowsWeather()
    {
      if ShowsWeather() then Some(CurrentPanelOf(unit, weatherData.value)) else None
    }

    /** The five-day chart of the current forecast. */
    function Chart(weekdayOf: string -> string): (c: Option<seq<DaySummary>>)
      reads this
      ensures forecastData.None? ==> c == Some([])
      ensures c.Some? ==> |c.value| <= DaysShown
    {
      ChartData(forecastData, weekdayOf)
    }
  }

  /** The chart after a search settles: the chart of the fetched list on success; on failure
      the empty chart, while the hourly window keeps the previous city's hours. */
  method ChartAfterSearch(d: Dashboard, outcome: PairOutcome, weekdayOf: string -> string)
    returns (chart: Option<seq<DaySummary>>)
    modifies d
    ensures chart == d.Chart(weekdayOf)
    ensures outcome.Fetched? && outcome.forecast.list.Some? ==>
              chart == ChartDataOf(outcome.forecast.list.value, weekdayOf)
    ensures outcome.Fetched? && outcome.forecast.list.None? ==> chart == Some([])
    ensures outcome.Failed? ==> chart == Some([]) && d.hourlyData == old(d.hourlyData)
  {
    d.FinishSearch(outcome);
    chart := d.Chart(weekdayOf);
  }

  /** Toggling the unit twice restores the selected unit and every other field. */
  method ToggleUnitTwice(d: Dashboard)
    modifies d
    ensures d.unit == old(d.unit)
    ensures d.query == old(d.query) && d.region == old(d.region)
    ensures d.weatherData == old(d.weatherData) && d.forecastData == old(d.forecastData)
    ensures d.error == old(d.error) && d.hourlyData == old(d.hourlyData)
    ensures d.loading == old(d.loading) && d.locationLoading == old(d.locationLoading)
    ensures d.effectFailed == old(d.effectFailed)
  {
    d.ToggleUnit();
    d.ToggleUnit();
    Units.ToggleTwice(old(d.unit));
  }

  /** Choosing a region after typing a query makes the next search ask for the region. */
  method RegionThenSearch(d: Dashboard, value: string, fetchPair: string -> PairOutcome)
    returns (city: string)
    modifies d
    ensures city == value
    ensures d.query == "" && d.region == value
  {
    d.OnRegionChange(value);
    city := d.HandleSearch(fetchPair);
  }
}
