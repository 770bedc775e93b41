/** Unit systems, JavaScript's `Math.round`, and the temperature and wind-speed
    labels the dashboard and the One Call components render. Temperatures and
    speeds are reals; rounding happens only where a label is produced. */
module Units {
  import opened Wrappers
  import opened Text

  datatype Unit = Metric | Imperial

  /** The unit toggle: `unit === "metric" ? "imperial" : "metric"`. */
  function Toggle(u: Unit): (r: Unit)
    ensures r != u
  {
    if u == Metric then Imperial else Metric
  }

  /** Toggling twice restores the unit. */
  lemma ToggleTwice(u: Unit)
    ensures Toggle(Toggle(u)) == u
  {
  }

  /** `Math.round`: the nearest integer, halves rounded toward +infinity. */
  function Round(x: real): (n: int)
    ensures n as real - 0.5 <= x < n as real + 0.5
  {
    (x + 0.5).Floor
  }

  lemma RoundMonotone(x: real, y: real)
    requires x <= y
    ensures Round(x) <= Round(y)
  {
  }

  function TempSuffix(u: Unit): string {
    if u == Metric then "°C" else "°F"
  }

  function WindSuffix(u: Unit): string {
    if u == Metric then " m/s" else " mph"
  }

  /** `temp * 9/5 + 32`. */
  function CelsiusToFahrenheit(c: real): real {
    c * 9.0 / 5.0 + 32.0
  }

  /** The factor the source uses to turn metres per second into miles per hour. */
  const MphPerMetrePerSecond: real := 2.237

  /** A Celsius temperature expressed in the given unit system. */
  function TempIn(u: Unit, celsius: real): real {
    if u == Imperial then CelsiusToFahrenheit(celsius) else celsius
  }

  /** A speed in metres per second expressed in the given unit system. */
  function SpeedIn(u: Unit, metresPerSecond: real): real {
    if u == Imperial then metresPerSecond * MphPerMetrePerSecond else metresPerSecond
  }

  /** A rounded number followed by a unit suffix, as `${Math.round(x)}suffix`. */
  function Label(x: real, suffix: string): string {
    IntToString(Round(x)) + suffix
  }

  /** The dashboard's `formatTemp`: converts a Celsius value for imperial display. */
  function FormatConvertedTemp(u: Unit, celsius: real): string {
    Label(TempIn(u, celsius), TempSuffix(u))
  }

  /** The components' `formatTemp`: rounds the value as given and appends the suffix. */
  function FormatTemp(u: Unit, t: real): string {
    Label(t, TempSuffix(u))
  }

  /** The dashboard's and CurrentWeather's wind label: converts m/s for imperial. */
  function FormatConvertedWind(u: Unit, metresPerSecond: real): string {
    Label(SpeedIn(u, metresPerSecond), WindSuffix(u))
  }

  /** HourlyForecast's and DailyForecast's wind label: the value as given. */
  function FormatWind(u: Unit, speed: real): string {
    Label(speed, WindSuffix(u))
  }

  // ---------------------------------------------------------------------------
  // Reading a label back
  // ---------------------------------------------------------------------------

  /** The number and the unit system a label states. */
  datatype Reading = Reading(value: int, unit: Unit)

  function ReadWithSuffix(shown: string, suffix: string, u: Unit): Option<Reading> {
    if |suffix| <= |shown| && shown[|shown| - |suffix|..] == suffix then
      match ParseInt(shown[..|shown| - |suffix|])
      case Some(n) => Some(Reading(n, u))
      case None => None
    else None
  }

  /** Reads a temperature label such as "-3°C" or "72°F". */
  function ReadTemp(shown: string): Option<Reading> {
    var c := ReadWithSuffix(shown, TempSuffix(Metric), Metric);
    if c.Some? then c else ReadWithSuffix(shown, TempSuffix(Imperial), Imperial)
  }

  /** Reads a wind label such as "4 m/s" or "22 mph". */
  function ReadWind(shown: string): Option<Reading> {
    var m := ReadWithSuffix(shown, WindSuffix(Metric), Metric);
    if m.Some? then m else ReadWithSuffix(shown, WindSuffix(Imperial), Imperial)
  }

  lemma {:induction false} ReadLabel(x: real, suffix: string, u: Unit)
    ensures ReadWithSuffix(Label(x, suffix), suffix, u) == Some(Reading(Round(x), u))
  {
    var shown := Label(x, suffix);
    assert shown[|shown| - |suffix|..] == suffix;
    assert shown[..|shown| - |suffix|] == IntToString(Round(x));
    IntToStringRoundTrip(Round(x));
  }

  /** A temperature label states the rounded value in the requested unit, and the unit. */
  lemma {:induction false} TempLabelRoundTrip(u: Unit, t: real)
    ensures ReadTemp(FormatTemp(u, t)) == Some(Reading(Round(t), u))
  {
    ReadLabel(t, TempSuffix(u), u);
    if u == Imperial {
      var shown := FormatTemp(u, t);
      assert shown[|shown| - 2..] == "°F" != "°C";
    }
  }

  /** A wind label states the rounded value in the requested unit, and the unit. */
  lemma {:induction false} WindLabelRoundTrip(u: Unit, s: real)
    ensures ReadWind(FormatWind(u, s)) == Some(Reading(Round(s), u))
  {
    ReadLabel(s, WindSuffix(u), u);
    if u == Imperial {
      var shown := FormatWind(u, s);
      assert shown[|shown| - 4..] == " mph" != " m/s";
    }
  }

  /** The dashboard's label shows the Celsius input converted to the display unit, then rounded. */
  lemma {:induction false} ConvertedTempRoundTrip(u: Unit, celsius: real)
    ensures ReadTemp(FormatConvertedTemp(u, celsius)) == Some(Reading(Round(TempIn(u, celsius)), u))
    ensures u == Imperial ==> ReadTemp(FormatConvertedTemp(u, celsius)).value.value
                              == Round(celsius * 9.0 / 5.0 + 32.0)
  {
    TempLabelRoundTrip(u, TempIn(u, celsius));
  }

  /** The converted wind label shows the m/s input converted to the display unit, then rounded. */
  lemma {:induction false} ConvertedWindRoundTrip(u: Unit, metresPerSecond: real)
    ensures ReadWind(FormatConvertedWind(u, metresPerSecond))
            == Some(Reading(Round(SpeedIn(u, metresPerSecond)), u))
    ensures u == Imperial ==> ReadWind(FormatConvertedWind(u, metresPerSecond)).value.value
                              == Round(metresPerSecond * 2.237)
  {
    WindLabelRoundTrip(u, SpeedIn(u, metresPerSecond));
  }

  /** The components' labels are the dashboard's labels for a value that is already in
      the display unit: they never convert, whatever the unit. */
  lemma ComponentsExpectValuesInDisplayUnit(u: Unit, celsius: real, metresPerSecond: real)
    ensures FormatTemp(u, TempIn(u, celsius)) == FormatConvertedTemp(u, celsius)
    ensures FormatWind(u, SpeedIn(u, metresPerSecond)) == FormatConvertedWind(u, metresPerSecond)
  {
  }

  /** And only for such values: in imperial mode a metric value whose rounded Fahrenheit
      (or mph) figure differs from its rounded Celsius (or m/s) figure gets a different
      label from the components than from the dashboard; 0 °C reads "0°F" against "32°F". */
  lemma {:induction false} ComponentsMislabelMetricValues(celsius: real, metresPerSecond: real)
    ensures Round(celsius) != Round(CelsiusToFahrenheit(celsius)) ==>
              FormatTemp(Imperial, celsius) != FormatConvertedTemp(Imperial, celsius)
    ensures Round(metresPerSecond) != Round(metresPerSecond * MphPerMetrePerSecond) ==>
              FormatWind(Imperial, metresPerSecond) != FormatConvertedWind(Imperial, metresPerSecond)
    ensures FormatTemp(Imperial, 0.0) != FormatConvertedTemp(Imperial, 0.0)
  {
    TempLabelRoundTrip(Imperial, celsius);
    ConvertedTempRoundTrip(Imperial, celsius);
    WindLabelRoundTrip(Imperial, metresPerSecond);
    ConvertedWindRoundTrip(Imperial, metresPerSecond);
    assert Round(0.0) == 0;
    assert Round(CelsiusToFahrenheit(0.0)) == 32;
    TempLabelRoundTrip(Imperial, 0.0);
    ConvertedTempRoundTrip(Imperial, 0.0);
  }

  /** Ten metres per second is shown as 22 mph in imperial mode. */
  lemma TenMetresPerSecondIs22Mph()
    ensures FormatConvertedWind(Imperial, 10.0) == "22 mph"
  {
    assert Round(22.37) == 22;
    assert NatToString(22) == NatToString(2) + [DigitChar(2)];
  }
}
