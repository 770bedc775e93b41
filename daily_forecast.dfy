/** The DailyForecast component: one row per One Call daily entry. Like the hourly
    cards, its temperature and wind labels round the value as given and append the
    unit's suffix. The two `formatDate` renderings (short weekday, short month and
    day) are parameters. */
module DailyForecast {
  import opened Wrappers
  import opened Units
  import opened WeatherTypes
  import opened WeatherApi

  const TodayLabel := "Today"

  datatype DayRow = DayRow(
    dayName: string, dateLine: string, iconUrl: string, description: string, summary: string,
    minTemp: string, maxTemp: string, rain: int, wind: string)

  /** The row at position `index`; `None` when the entry has no `weather[0]`. */
  function DayRowOf(index: nat, day: DailyEntry, u: Unit, weekdayOf: int -> string, monthDayOf: int -> string)
    : Option<DayRow>
  {
    match PrimaryCondition(day.weather)
    case None => None
    case Some(c) =>
      Some(DayRow(if index == 0 then TodayLabel else weekdayOf(day.dt), monthDayOf(day.dt),
                  IconUrl(c.icon, None), c.description, day.summary,
                  FormatTemp(u, day.tempMin), FormatTemp(u, day.tempMax),
                  Round(day.pop * 100.0), FormatWind(u, day.windSpeed)))
  }

  function Rows(daily: seq<DailyEntry>, u: Unit, weekdayOf: int -> string, monthDayOf: int -> string)
    : (rows: seq<Option<DayRow>>)
    ensures |rows| == |daily|
    ensures forall i :: 0 <= i < |daily| ==> rows[i] == DayRowOf(i, daily[i], u, weekdayOf, monthDayOf)
  {
    seq(|daily|, i requires 0 <= i < |daily| => DayRowOf(i, daily[i], u, weekdayOf, monthDayOf))
  }

  /** Nothing for a missing or empty list; a TypeError when an entry has no condition. */
  function Render(daily: Option<seq<DailyEntry>>, u: Unit, weekdayOf: int -> string, monthDayOf: int -> string)
    : Rendered<seq<DayRow>>
  {
    if daily.None? || |daily.value| == 0 then Nothing
    else
      match AllSome(Rows(daily.value, u, weekdayOf, monthDayOf))
      case Some(rows) => Shown(rows)
      case None => TypeError
  }

  /** A render shows nothing exactly for a missing or empty list, throws exactly when some
      entry has no condition, and otherwise has one row per entry. */
  lemma RenderOutcome(daily: Option<seq<DailyEntry>>, u: Unit, weekdayOf: int -> string, monthDayOf: int -> string)
    ensures Render(daily, u, weekdayOf, monthDayOf).Nothing? <==> daily.None? || daily.value == []
    ensures Render(daily, u, weekdayOf, monthDayOf).TypeError? <==>
              daily.Some? && exists i :: 0 <= i < |daily.value| && daily.value[i].weather == []
    ensures Render(daily, u, weekdayOf, monthDayOf).Shown? ==>
              |Render(daily, u, weekdayOf, monthDayOf).view| == |daily.value|
  {
    if daily.Some? {
      var rows := Rows(daily.value, u, weekdayOf, monthDayOf);
      assert forall i :: 0 <= i < |daily.value| ==> (rows[i].None? <==> daily.value[i].weather == []);
    }
  }

  /** Row `i`: "Today" first and the weekday afterwards; the minimum and maximum stated
      rounded in the requested unit with no conversion; rain as a rounded percentage;
      wind rounded with no conversion. */
  lemma RenderRow(daily: seq<DailyEntry>, u: Unit, weekdayOf: int -> string, monthDayOf: int -> string, i: int)
    requires Render(Some(daily), u, weekdayOf, monthDayOf).Shown?
    requires 0 <= i < |Render(Some(daily), u, weekdayOf, monthDayOf).view|
    ensures i < |daily| && |daily[i].weather| > 0
    ensures var row := Render(Some(daily), u, weekdayOf, monthDayOf).view[i];
            && row.dayName == (if i == 0 then "Today" else weekdayOf(daily[i].dt))
            && row.dateLine == monthDayOf(daily[i].dt)
            && row.iconUrl == IconUrl(daily[i].weather[0].icon, None)
            && ReadTemp(row.minTemp) == Some(Reading(Round(daily[i].tempMin), u))
            && ReadTemp(row.maxTemp) == Some(Reading(Round(daily[i].tempMax), u))
            && ReadWind(row.wind) == Some(Reading(Round(daily[i].windSpeed), u))
            && row.rain == Round(daily[i].pop * 100.0)
  {
    TempLabelRoundTrip(u, daily[i].tempMin);
    TempLabelRoundTrip(u, daily[i].tempMax);
    WindLabelRoundTrip(u, daily[i].windSpeed);
  }
}
