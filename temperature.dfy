/**
 * The live temperature screen: eight thermometers (four PT100 RTDs and four
 * thermocouples), each classified into a band that picks its status word,
 * its fill gradient, its glow and its status colour; the fill height; the
 * average of the eight readings; and the fetch that refreshes them.
 *
 * A reading is `parseFloat` of the backend's field, so it may be NaN (here
 * `None`). Every comparison with NaN is false, which is why an unreadable
 * sensor falls through every threshold into the last band.
 */
module Temperature {
  import opened JsValues
  import opened Fetch
  import Stats

  /** The thermometer scale, in degrees Celsius. */
  const MAX_TEMP: real := 50.0
  const MIN_TEMP: real := 0.0

  /** The eight sensors, in the order the screen shows them. */
  const SENSOR_KEYS: seq<string> := ["rtd1", "rtd2", "rtd3", "rtd4", "tc1", "tc2", "tc3", "tc4"]

  /** `t < c` for a reading that may be NaN. */
  predicate Below(t: Option<real>, c: real)
  {
    t.Some? && t.value < c
  }

  datatype Status = Cool | Optimal | Warm | Hot | Critical

  /** `getTemperatureStatus`: bands at 20, 25, 30 and 35 degrees; NaN is Critical. */
  function TemperatureStatus(t: Option<real>): (s: Status)
    ensures s == Cool <==> Below(t, 20.0)
    ensures s == Optimal <==> t.Some? && 20.0 <= t.value < 25.0
    ensures s == Warm <==> t.Some? && 25.0 <= t.value < 30.0
    ensures s == Hot <==> t.Some? && 30.0 <= t.value < 35.0
    ensures s == Critical <==> t.None? || t.value >= 35.0
  {
    if Below(t, 20.0) then Cool
    else if Below(t, 25.0) then Optimal
    else if Below(t, 30.0) then Warm
    else if Below(t, 35.0) then Hot
    else Critical
  }

  /** The colour family of a gradient, glow or text class. */
  datatype Hue = Blue | Green | Yellow | Orange | Red

  /** `getTemperatureColor`: the fill gradient. */
  function GradientHue(t: Option<real>): (h: Hue)
    ensures h == Blue <==> Below(t, 20.0)
    ensures h == Red <==> t.None? || t.value >= 35.0
  {
    if Below(t, 20.0) then Blue
    else if Below(t, 25.0) then Green
    else if Below(t, 30.0) then Yellow
    else if Below(t, 35.0) then Orange
    else Red
  }

  /** The glow colour of the fill's box shadow. */
  function GlowHue(t: Option<real>): (h: Hue)
    ensures h == Blue <==> Below(t, 20.0)
    ensures h == Red <==> t.None? || t.value >= 35.0
  {
    if Below(t, 20.0) then Blue
    else if Below(t, 25.0) then Green
    else if Below(t, 30.0) then Yellow
    else if Below(t, 35.0) then Orange
    else Red
  }

  /** The colour of the status word, chosen from the status itself. */
  function StatusTextHue(s: Status): (h: Hue)
    ensures h == Red <==> s.Critical?
    ensures h == Blue <==> s.Cool?
  {
    if s == Critical then Red
    else if s == Hot then Orange
    else if s == Warm then Yellow
    else if s == Optimal then Green
    else Blue
  }

  /** The gradient, the glow and the status word's colour always agree, NaN included. */
  lemma ColoursAgree(t: Option<real>)
    ensures GradientHue(t) == GlowHue(t) == StatusTextHue(TemperatureStatus(t))
  {
  }

  /** A hotter reading never lands in a cooler band. */
  lemma StatusMonotone(x: real, y: real)
    requires x <= y
    ensures StatusRank(TemperatureStatus(Some(x))) <= StatusRank(TemperatureStatus(Some(y)))
  {
  }

  function StatusRank(s: Status): nat
  {
    match s
    case Cool => 0
    case Optimal => 1
    case Warm => 2
    case Hot => 3
    case Critical => 4
  }

  /** The reading as a percentage of the 0-50 degree scale. */
  function Percentage(value: real): (p: real)
    ensures p == 2.0 * value
  {
    (value - MIN_TEMP) / (MAX_TEMP - MIN_TEMP) * 100.0
  }

  /** `Math.max(percentage, 8)`: the fill never drops below 8 percent. */
  function FillHeight(value: real): (h: real)
    ensures h >= 8.0 && h >= Percentage(value)
    ensures h == 8.0 || h == Percentage(value)
  {
    if Percentage(value) > 8.0 then Percentage(value) else 8.0
  }

  /** The fill has a floor but no ceiling: above 50 degrees it exceeds the tube. */
  lemma FillNotClampedAbove(value: real)
    requires value > MAX_TEMP
    ensures FillHeight(value) > 100.0
  {
  }

  /** The eight readings of a reply, each through `parseFloat`. */
  function Readings(data: Record): (rs: seq<Option<real>>)
    ensures |rs| == 8
    ensures forall j :: 0 <= j < 8 ==> rs[j] == ParseFloat(Field(data, SENSOR_KEYS[j]))
  {
    seq(8, j requires 0 <= j < 8 => ParseFloat(Field(data, SENSOR_KEYS[j])))
  }

  predicate AllNumbers(rs: seq<Option<real>>)
  {
    forall j :: 0 <= j < |rs| ==> rs[j].Some?
  }

  function Values(rs: seq<Option<real>>): (vs: seq<real>)
    requires AllNumbers(rs)
    ensures |vs| == |rs| && forall j :: 0 <= j < |rs| ==> vs[j] == rs[j].value
  {
    seq(|rs|, j requires 0 <= j < |rs| => rs[j].value)
  }

  /**
   * `avgTemp`: 0 with no data; otherwise the sum of the eight readings over 8, which is
   * NaN (`None`) as soon as one reading is.
   */
  function AvgTemp(data: Option<Record>): (r: Option<real>)
    ensures data.None? ==> r == Some(0.0)
    ensures data.Some? ==> (r.Some? <==> AllNumbers(Readings(data.value)))
  {
    if data.None? then Some(0.0)
    else
      var rs := Readings(data.value);
      if AllNumbers(rs) then Some(Stats.Sum(Values(rs)) / 8.0) else None
  }

  /** When every reading is a number, the average lies between the coolest and the hottest sensor. */
  lemma AvgTempWithinReadings(data: Record)
    requires AllNumbers(Readings(data))
    ensures AvgTemp(Some(data)).Some?
    ensures Stats.MinOf(Values(Readings(data))) <= AvgTemp(Some(data)).value <= Stats.MaxOf(Values(Readings(data)))
  {
    Stats.MeanBetweenMinMax(Values(Readings(data)));
  }

  const FETCH_FAILED: string := "Failed to fetch data"
  const CONNECTION_ERROR: string := "Connection error"

  /**
   * What the screen renders. `RenderFailed` is a dashboard render that throws because it
   * reads the sensor fields of a null `data`; the error boundary's fallback then replaces
   * the page.
   */
  datatype Screen = LoadingView | ErrorView(message: string) | Dashboard(data: Record) | RenderFailed

  /** The screen's state; `lastUpdate` is the clock reading of the last good reply. */
  class Monitor {
    var data: Option<Record>
    var loading: bool
    var error: Option<string>
    var lastUpdate: Option<int>

    constructor ()
      ensures data == None && loading && error == None && lastUpdate == None
    {
      data, loading, error, lastUpdate := None, true, None, None;
    }

    /**
     * The loading view first, then the error view, then the thermometers; only the
     * average is guarded against missing data, so the thermometers of a missing
     * record throw.
     */
    function View(): (s: Screen)
      reads this
      ensures loading ==> s == LoadingView
      ensures !loading && error.Some? && error.value != "" ==> s == ErrorView(error.value)
      ensures !loading && (error.None? || error.value == "") && data.Some? ==> s == Dashboard(data.value)
      ensures s == RenderFailed <==> !loading && (error.None? || error.value == "") && data.None?
    {
      if loading then LoadingView
      else if error.Some? && error.value != "" then ErrorView(error.value)
      else if data.Some? then Dashboard(data.value)
      else RenderFailed
    }

    /**
     * `fetchData`: a successful reply replaces the data, stamps the update time and clears
     * the error; an unsuccessful one or an exception only sets its error. Loading ends.
     */
    method FetchData(reply: Fetched<Envelope<Option<Record>>>, now: int)
      modifies this
      ensures !loading
      ensures reply.Response? && reply.body.success ==>
                data == reply.body.data && lastUpdate == Some(now) && error == None
      ensures reply.Response? && reply.body.success ==>
                (View() == RenderFailed <==> reply.body.data.None?)
      ensures reply.Response? && !reply.body.success ==>
                data == old(data) && lastUpdate == old(lastUpdate) && error == Some(FETCH_FAILED)
      ensures reply.Failed? ==>
                data == old(data) && lastUpdate == old(lastUpdate) && error == Some(CONNECTION_ERROR)
    {
      if reply.Failed? {
        error := Some(CONNECTION_ERROR);
      } else if reply.body.success {
        data := reply.body.data;
        lastUpdate := Some(now);
        error := None;
      } else {
        error := Some(FETCH_FAILED);
      }
      loading := false;
    }

    /** `refreshData`: show the loading view, then fetch; the outcome is `fetchData`'s. */
    method RefreshData(reply: Fetched<Envelope<Option<Record>>>, now: int)
      modifies this
      ensures !loading
      ensures reply.Response? && reply.body.success ==>
                data == reply.body.data && lastUpdate == Some(now) && error == None
      ensures reply.Response? && reply.body.success ==>
                (View() == RenderFailed <==> reply.body.data.None?)
      ensures reply.Response? && !reply.body.success ==>
                data == old(data) && lastUpdate == old(lastUpdate) && error == Some(FETCH_FAILED)
      ensures reply.Failed? ==>
                data == old(data) && lastUpdate == old(lastUpdate) && error == Some(CONNECTION_ERROR)
    {
      loading := true;
      FetchData(reply, now);
    }
  }
}
