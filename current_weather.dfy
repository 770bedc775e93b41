/** The CurrentWeather component for the One Call `current` block. Its `formatTemp`
    rounds the value as given and appends the unit's suffix, while its
    `formatWindSpeed` converts metres per second to miles per hour for imperial
    display. `formatTime` is a parameter. */
module CurrentWeather {
  import opened Wrappers
  import opened Units
  import opened WeatherTypes
  import opened WeatherApi

  /** The size of the main icon. */
  const MainIconSize: IconSize := 4

  datatype CurrentView = CurrentView(
    locationName: string, country: string, time: string, iconUrl: string,
    temp: string, feelsLike: string, description: string,
    humidity: int, wind: string, pressure: int, dewPoint: string)

  /** Nothing without data; a TypeError when it has no condition; otherwise the view. */
  function Render(data: Option<OneCallCurrent>, locationName: string, country: string, u: Unit,
                  formatTime: int -> string): Rendered<CurrentView>
  {
    if data.None? then Nothing
    else
      var d := data.value;
      match PrimaryCondition(d.weather)
      case None => TypeError
      case Some(c) =>
        Shown(CurrentView(locationName, country, formatTime(d.dt), IconUrl(c.icon, Some(MainIconSize)),
                          FormatTemp(u, d.temp), FormatTemp(u, d.feelsLike), c.description,
                          d.humidity, FormatConvertedWind(u, d.windSpeed), d.pressure,
                          FormatTemp(u, d.dewPoint)))
  }

  /** The view states the temperatures rounded in the requested unit with no conversion,
      but the wind converted to miles per hour for imperial; the main icon is
      `weather[0].icon` at size 4. */
  lemma RenderStates(data: OneCallCurrent, locationName: string, country: string, u: Unit, formatTime: int -> string)
    ensures Render(Some(data), locationName, country, u, formatTime).TypeError? <==> data.weather == []
    ensures Render(Some(data), locationName, country, u, formatTime).Shown? ==>
              var view := Render(Some(data), locationName, country, u, formatTime).view;
              && view.iconUrl == IconUrl(data.weather[0].icon, Some(4))
              && ParseIconUrl(view.iconUrl) == Some((data.weather[0].icon, 4))
              && ReadTemp(view.temp) == Some(Reading(Round(data.temp), u))
              && ReadTemp(view.feelsLike) == Some(Reading(Round(data.feelsLike), u))
              && ReadTemp(view.dewPoint) == Some(Reading(Round(data.dewPoint), u))
              && ReadWind(view.wind) == Some(Reading(Round(SpeedIn(u, data.windSpeed)), u))
              && (u == Imperial ==> ReadWind(view.wind).value.value == Round(data.windSpeed * 2.237))
  {
    TempLabelRoundTrip(u, data.temp);
    TempLabelRoundTrip(u, data.feelsLike);
    TempLabelRoundTrip(u, data.dewPoint);
    ConvertedWindRoundTrip(u, data.windSpeed);
    if data.weather != [] {
      IconUrlRoundTrip(data.weather[0].icon, Some(MainIconSize));
    }
  }

  /** Nothing is rendered exactly when the data is absent. */
  lemma NothingWithoutData(data: Option<OneCallCurrent>, locationName: string, country: string, u: Unit,
                           formatTime: int -> string)
    ensures Render(data, locationName, country, u, formatTime).Nothing? <==> data.None?
  {
  }
}
