/** The provider payload shapes the dashboard reads: the legacy 2.5 current and
    forecast payloads and the One Call 3.0 blocks, reduced to the fields the
    modelled code uses. Numbers the source treats as measurements are reals;
    timestamps are integral seconds. */
module WeatherTypes {
  import opened Wrappers

  /** One entry of a `weather` array. */
  datatype Condition = Condition(id: int, main: string, description: string, icon: string)

  /** `weather[0]`: JavaScript yields `undefined` for an empty array, and reading
      `.icon` of it throws a TypeError. */
  function PrimaryCondition(weather: seq<Condition>): (c: Option<Condition>)
    ensures c.Some? <==> |weather| > 0
    ensures c.Some? ==> c.value == weather[0]
  {
    if |weather| > 0 then Some(weather[0]) else None
  }

  datatype Coordinates = Coordinates(lat: real, lon: real)

  /** One entry of a region selector: the text shown and the query it stands for. */
  datatype Region = Region(title: string, value: string)

  /** One candidate of forward or reverse geocoding. */
  datatype GeocodingResult = GeocodingResult(
    name: string, lat: real, lon: real, country: string, state: Option<string>)

  // ---------------------------------------------------------------------------
  // Legacy 2.5 payloads
  // ---------------------------------------------------------------------------

  /** The current-weather payload: `main.temp`, `main.feels_like`, `wind.speed`, ... */
  datatype LegacyWeather = LegacyWeather(
    name: string, country: string, temp: real, feelsLike: real, humidity: int,
    pressure: int, windSpeed: real, visibility: real, weather: seq<Condition>)

  /** One 3-hour entry of the forecast `list`; `dtTxt` is `dt_txt`, e.g.
      "2024-05-01 12:00:00", and `temp` is `main.temp`. */
  datatype ForecastItem = ForecastItem(
    dt: int, dtTxt: string, temp: real, humidity: int, windSpeed: real, pop: real,
    weather: seq<Condition>)

  /** The forecast payload; `list` is `None` when the field is missing. */
  datatype LegacyForecast = LegacyForecast(
    cityName: string, country: string, list: Option<seq<ForecastItem>>)

  // ---------------------------------------------------------------------------
  // One Call 3.0 blocks
  // ---------------------------------------------------------------------------

  datatype OneCallCurrent = OneCallCurrent(
    dt: int, temp: real, feelsLike: real, dewPoint: real, humidity: int, pressure: int,
    uvi: real, visibility: real, windSpeed: real, weather: seq<Condition>)

  datatype MinutelyEntry = MinutelyEntry(dt: int, precipitation: real)

  datatype HourlyEntry = HourlyEntry(
    dt: int, temp: real, windSpeed: real, pop: real, weather: seq<Condition>)

  datatype DailyEntry = DailyEntry(
    dt: int, summary: string, tempMin: real, tempMax: real, windSpeed: real, pop: real,
    weather: seq<Condition>)

  /** What a component renders: nothing (`return null`), a view, or nothing because
      rendering threw a TypeError reading `weather[0]` of an empty array. */
  datatype Rendered<T> = Nothing | Shown(view: T) | TypeError
}
