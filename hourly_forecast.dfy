/** The HourlyForecast component: one card per One Call hourly entry, up to
    `hoursToShow`. Its `formatTemp` and wind label round the value as given and only
    append the unit's suffix. `formatTime` is a parameter. */
module HourlyForecast {
  import opened Wrappers
  import opened Units
  import opened WeatherTypes
  import opened WeatherApi

  const DefaultHoursToShow := 24
  const NowLabel := "Now"

  /** The end index `slice(0, k)` uses on a list of `n` elements: a non-negative `k`
      keeps at most `k` entries, a negative `k` drops the last `-k`. */
  function SliceEnd(n: nat, k: int): (end: nat)
    ensures end <= n
    ensures k >= 0 ==> end <= k && (end < k ==> end == n)
    ensures k < 0 ==> n - end == (if -k < n then -k else n)
  {
    if k >= 0 then (if k < n then k else n)
    else if n + k > 0 then n + k else 0
  }

  datatype HourCard = HourCard(
    time: string, iconUrl: string, description: string, temp: string, rain: int, wind: string)

  /** The card at position `index`; `None` when the entry has no `weather[0]`. */
  function HourCardOf(index: nat, hour: HourlyEntry, u: Unit, formatTime: int -> string): Option<HourCard> {
    match PrimaryCondition(hour.weather)
    case None => None
    case Some(c) =>
      Some(HourCard(if index == 0 then NowLabel else formatTime(hour.dt),
                    IconUrl(c.icon, None), c.description,
                    FormatTemp(u, hour.temp), Round(hour.pop * 100.0), FormatWind(u, hour.windSpeed)))
  }

  /** The cards of the shown entries, each at its position. */
  function Cards(shown: seq<HourlyEntry>, u: Unit, formatTime: int -> string): (cards: seq<Option<HourCard>>)
    ensures |cards| == |shown|
    ensures forall i :: 0 <= i < |shown| ==> cards[i] == HourCardOf(i, shown[i], u, formatTime)
  {
    seq(|shown|, i requires 0 <= i < |shown| => HourCardOf(i, shown[i], u, formatTime))
  }

  /** How many entries a render shows. */
  function ShownCount(hourly: seq<HourlyEntry>, hoursToShow: Option<int>): nat {
    SliceEnd(|hourly|, hoursToShow.GetOr(DefaultHoursToShow))
  }

  /** The rendered cards: nothing for a missing or empty list, a TypeError when a shown
      entry has no condition. `hoursToShow` is `None` when the prop is omitted. */
  function Render(hourly: Option<seq<HourlyEntry>>, u: Unit, hoursToShow: Option<int>, formatTime: int -> string)
    : Rendered<seq<HourCard>>
  {
    if hourly.None? || |hourly.value| == 0 then Nothing
    else
      match AllSome(Cards(hourly.value[..ShownCount(hourly.value, hoursToShow)], u, formatTime))
      case Some(cards) => Shown(cards)
      case None => TypeError
  }

  /** Nothing is rendered exactly for a missing or empty list; a non-empty list whose
      shown entries all have a condition renders cards even when `hoursToShow` shows none. */
  lemma NothingForNoHours(hourly: Option<seq<HourlyEntry>>, u: Unit, hoursToShow: Option<int>, formatTime: int -> string)
    ensures Render(hourly, u, hoursToShow, formatTime).Nothing? <==> hourly.None? || hourly.value == []
    ensures hourly.Some? && hourly.value != [] && hoursToShow == Some(0) ==>
              Render(hourly, u, hoursToShow, formatTime) == Shown([])
  {
  }

  /** Without `hoursToShow` at most 24 entries are shown; with it, the first min(k, n). */
  lemma ShownCountDefault(hourly: seq<HourlyEntry>, hoursToShow: Option<int>)
    ensures hoursToShow.None? ==> ShownCount(hourly, hoursToShow) == if |hourly| < 24 then |hourly| else 24
    ensures hoursToShow.Some? && hoursToShow.value >= 0 ==>
              ShownCount(hourly, hoursToShow) == if |hourly| < hoursToShow.value then |hourly| else hoursToShow.value
  {
  }

  /** A render of a non-empty list throws exactly when one of the shown entries has no
      condition, and otherwise has one card per shown entry. */
  lemma RenderFailsIffShownEntryLacksCondition(hourly: seq<HourlyEntry>, u: Unit, hoursToShow: Option<int>, formatTime: int -> string)
    requires |hourly| > 0
    ensures Render(Some(hourly), u, hoursToShow, formatTime).TypeError? <==>
              exists i :: 0 <= i < ShownCount(hourly, hoursToShow) && hourly[i].weather == []
    ensures Render(Some(hourly), u, hoursToShow, formatTime).Shown? ==>
              |Render(Some(hourly), u, hoursToShow, formatTime).view| == ShownCount(hourly, hoursToShow)
  {
    var n := ShownCount(hourly, hoursToShow);
    var cards := Cards(hourly[..n], u, formatTime);
    assert forall i :: 0 <= i < n ==> (cards[i].None? <==> hourly[i].weather == []);
  }

  /** Card `i` of a render: the first says "Now", the others the formatted time. Temperature
      and wind are stated rounded in the requested unit with no conversion, and rain is the
      rounded percentage. */
  lemma RenderCard(hourly: seq<HourlyEntry>, u: Unit, hoursToShow: Option<int>, formatTime: int -> string, i: int)
    requires Render(Some(hourly), u, hoursToShow, formatTime).Shown?
    requires 0 <= i < |Render(Some(hourly), u, hoursToShow, formatTime).view|
    ensures i < |hourly| && |hourly[i].weather| > 0
    ensures var card := Render(Some(hourly), u, hoursToShow, formatTime).view[i];
            && card.time == (if i == 0 then "Now" else formatTime(hourly[i].dt))
            && card.iconUrl == IconUrl(hourly[i].weather[0].icon, None)
            && card.description == hourly[i].weather[0].description
            && ReadTemp(card.temp) == Some(Reading(Round(hourly[i].temp), u))
            && ReadWind(card.wind) == Some(Reading(Round(hourly[i].windSpeed), u))
            && card.rain == Round(hourly[i].pop * 100.0)
  {
    var n := ShownCount(hourly, hoursToShow);
    assert hourly[..n][i] == hourly[i];
    TempLabelRoundTrip(u, hourly[i].temp);
    WindLabelRoundTrip(u, hourly[i].windSpeed);
  }
}
