/** The PrecipitationChart component: the next hour's minute-by-minute precipitation
    as chart points, a time label on every tenth point, and the choice between the
    chart and a "no precipitation" notice. `formatTime` is a parameter. */
module PrecipitationChart {
  import opened Wrappers
  import opened WeatherTypes

  /** Every how many points the x axis carries a time label. */
  const LabelEvery := 10

  datatype ChartPoint = ChartPoint(name: string, precipitation: real, dt: int)

  /** `minutelyData.map((item, index) => ...)`. */
  function ChartPoints(minutely: seq<MinutelyEntry>, formatTime: int -> string): (points: seq<ChartPoint>)
    ensures |points| == |minutely|
  {
    seq(|minutely|, i requires 0 <= i < |minutely| =>
      ChartPoint(if i % LabelEvery == 0 then formatTime(minutely[i].dt) else "",
                 minutely[i].precipitation, minutely[i].dt))
  }

  /** The minute entries a list of points was drawn from. */
  function Samples(points: seq<ChartPoint>): (minutely: seq<MinutelyEntry>)
    ensures |minutely| == |points|
  {
    seq(|points|, i requires 0 <= i < |points| => MinutelyEntry(points[i].dt, points[i].precipitation))
  }

  /** The points keep the input's length and order, and copy `dt` and `precipitation` per index. */
  lemma ChartPointsRoundTrip(minutely: seq<MinutelyEntry>, formatTime: int -> string)
    ensures Samples(ChartPoints(minutely, formatTime)) == minutely
  {
    var points := ChartPoints(minutely, formatTime);
    assert forall i :: 0 <= i < |minutely| ==> Samples(points)[i] == minutely[i];
  }

  /** Only every tenth point may be labelled; the others carry "". */
  lemma LabelsOnEveryTenthPoint(minutely: seq<MinutelyEntry>, formatTime: int -> string, i: int)
    requires 0 <= i < |minutely|
    ensures i % 10 != 0 ==> ChartPoints(minutely, formatTime)[i].name == ""
    ensures i % 10 == 0 ==> ChartPoints(minutely, formatTime)[i].name == formatTime(minutely[i].dt)
  {
  }

  /** How many of the first `k` points carry a non-empty label. */
  function LabelledBefore(points: seq<ChartPoint>, k: nat): nat
    requires k <= |points|
  {
    if k == 0 then 0
    else LabelledBefore(points, k - 1) + (if points[k - 1].name != "" then 1 else 0)
  }

  /** At most one label per ten points: no more than ceil(n / 10) labels. */
  lemma {:induction false} AtMostOneLabelPerTenPoints(minutely: seq<MinutelyEntry>, formatTime: int -> string, k: nat)
    requires k <= |minutely|
    ensures LabelledBefore(ChartPoints(minutely, formatTime), k) <= (k + 9) / 10
  {
    if k > 0 {
      AtMostOneLabelPerTenPoints(minutely, formatTime, k - 1);
      var j := k - 1;
      assert ChartPoints(minutely, formatTime)[j].name != "" ==> j % 10 == 0;
      assert j % 10 == 0 ==> (j + 9) / 10 + 1 == (k + 9) / 10;
      assert j % 10 != 0 ==> (j + 9) / 10 == (k + 9) / 10;
    }
  }

  /** `minutelyData.some(item => item.precipitation > 0)`. */
  function HasPrecipitation(minutely: seq<MinutelyEntry>): (found: bool)
    ensures found <==> exists i :: 0 <= i < |minutely| && minutely[i].precipitation > 0.0
    decreases |minutely|
  {
    if minutely == [] then false
    else if minutely[0].precipitation > 0.0 then true
    else
      var found := HasPrecipitation(minutely[1..]);
      assert forall i :: 1 <= i < |minutely| ==> minutely[i] == minutely[1..][i - 1];
      found
  }

  datatype PrecipitationView = NoPrecipitation | Chart(points: seq<ChartPoint>)

  /** What the component renders: nothing for a missing or empty list, the notice
      when no minute has precipitation above zero, the chart otherwise. */
  function Render(minutely: Option<seq<MinutelyEntry>>, formatTime: int -> string): Rendered<PrecipitationView> {
    if minutely.None? || |minutely.value| == 0 then Nothing
    else if !HasPrecipitation(minutely.value) then Shown(NoPrecipitation)
    else Shown(Chart(ChartPoints(minutely.value, formatTime)))
  }

  /** The three outcomes of a render, each by its condition on the input. */
  lemma RenderCases(minutely: Option<seq<MinutelyEntry>>, formatTime: int -> string)
    ensures Render(minutely, formatTime).Nothing? <==> minutely.None? || minutely.value == []
    ensures Render(minutely, formatTime) == Shown(NoPrecipitation) <==>
              minutely.Some? && minutely.value != []
              && forall i :: 0 <= i < |minutely.value| ==> minutely.value[i].precipitation <= 0.0
    ensures Render(minutely, formatTime).Shown? && Render(minutely, formatTime).view.Chart? ==>
              Samples(Render(minutely, formatTime).view.points) == minutely.value
    ensures !Render(minutely, formatTime).TypeError?
  {
    if minutely.Some? {
      ChartPointsRoundTrip(minutely.value, formatTime);
    }
  }
}
