/**
 * The machine panel: the machine meter's five readings, each read through
 * `getValue`; the five gauges (energy and power in thousands with a scale that
 * follows the reading, voltage, current and power factor on fixed scales); and
 * the fetch that refreshes the readings and the connection badge.
 */
module MachineStatus {
  import opened JsValues
  import opened Fetch

  /**
   * `getValue(field)`: 0 with no data or a null or undefined field, otherwise
   * `parseFloat(...) || 0`. The explicit guard changes nothing: the value is always
   * the field's `parseFloat || 0`.
   */
  function GetValue(data: Option<Record>, field: string): (v: real)
    ensures v == ParseOrZero(OptField(data, field))
    ensures data.None? ==> v == 0.0
    ensures data.Some? && field in data.value && ParseFloat(Some(data.value[field])).Some? ==>
              v == ParseFloat(Some(data.value[field])).value
  {
    if data.None? || field !in data.value || data.value[field].JNull? then 0.0
    else ParseOrZero(Field(data.value, field))
  }

  /** A gauge as drawn: the needle's value, the scale's top, the four tick values and the two colour-band limits. */
  datatype Gauge = Gauge(value: real, max: real, ticks: seq<real>, limits: seq<real>)

  /** Ticks at a quarter, a half, three quarters and all of the scale. */
  function Quarters(max: real): (t: seq<real>)
    ensures |t| == 4 && t[3] == max
    ensures forall k :: 0 <= k < 4 ==> t[k] * 4.0 == max * (k + 1) as real
  {
    [max / 4.0, max / 2.0, max * 3.0 / 4.0, max]
  }

  /** The green band ends at 40 percent of the scale and the yellow one at 80 percent. */
  function Bands(max: real): (b: seq<real>)
    ensures |b| == 2 && b[0] * 5.0 == max * 2.0 && b[1] * 5.0 == max * 4.0
  {
    [max * 2.0 / 5.0, max * 4.0 / 5.0]
  }

  /** On a positive scale the ticks climb to the top and the band limits fall inside it. */
  lemma ScaleOrdered(max: real)
    requires max > 0.0
    ensures forall k, l :: 0 <= k < l < 4 ==> Quarters(max)[k] < Quarters(max)[l]
    ensures 0.0 < Bands(max)[0] < Bands(max)[1] < max
  {
  }

  /**
   * The energy and the power gauge: the reading in thousands, on a scale whose top
   * sits 1000 above the reading, ticked and banded as fractions of that top.
   */
  function ThousandsGauge(raw: real): (g: Gauge)
    ensures g.value * 1000.0 == raw
    ensures g.max == g.value + 1000.0 && g.value < g.max
    ensures g.ticks == Quarters(g.max) && g.limits == Bands(g.max)
  {
    var v := raw / 1000.0;
    var top := v + 1000.0;
    Gauge(v, top, [top * 0.25, top * 0.5, top * 0.75, top], [top * 0.4, top * 0.8])
  }

  /**
   * Because the scale follows the reading, the needle leaves the green band only from
   * 2000/3 thousand units on and reaches the red band only at 4000 thousand units.
   */
  lemma ThousandsGaugeBands(raw: real)
    ensures ThousandsGauge(raw).value < ThousandsGauge(raw).limits[0] <==> raw * 3.0 < 2000000.0
    ensures ThousandsGauge(raw).value >= ThousandsGauge(raw).limits[1] <==> raw >= 4000000.0
  {
  }

  /** The voltage gauge, 0 to 470 V. */
  function VoltageGauge(v: real): (g: Gauge)
    ensures g.value == v && g.max == 470.0
    ensures g.ticks == Quarters(g.max) && g.limits == Bands(g.max)
  {
    Gauge(v, 470.0, [117.5, 235.0, 352.5, 470.0], [188.0, 376.0])
  }

  /** The current gauge, 0 to 10 A. */
  function CurrentGauge(v: real): (g: Gauge)
    ensures g.value == v && g.max == 10.0
    ensures g.ticks == Quarters(g.max) && g.limits == Bands(g.max)
  {
    Gauge(v, 10.0, [2.5, 5.0, 7.5, 10.0], [4.0, 8.0])
  }

  /** The power-factor gauge, 0 to 1. */
  function PowerFactorGauge(v: real): (g: Gauge)
    ensures g.value == v && g.max == 1.0
    ensures g.ticks == Quarters(g.max) && g.limits == Bands(g.max)
  {
    Gauge(v, 1.0, [0.25, 0.5, 0.75, 1.0], [0.4, 0.8])
  }

  /** The five gauges of the panel, each fed from the machine meter's field. */
  function Gauges(data: Option<Record>): (gs: seq<Gauge>)
    ensures |gs| == 5
    ensures gs[0].value * 1000.0 == GetValue(data, "Em2_Energy")
    ensures gs[1].value * 1000.0 == GetValue(data, "Em2_power")
    ensures gs[2].value == GetValue(data, "Em2_voltage")
    ensures gs[3].value == GetValue(data, "Em2_current")
    ensures gs[4].value == GetValue(data, "Em2_PF")
    ensures forall k :: 0 <= k < 5 ==> gs[k].ticks == Quarters(gs[k].max) && gs[k].limits == Bands(gs[k].max)
  {
    [ThousandsGauge(GetValue(data, "Em2_Energy")), ThousandsGauge(GetValue(data, "Em2_power")),
     VoltageGauge(GetValue(data, "Em2_voltage")), CurrentGauge(GetValue(data, "Em2_current")),
     PowerFactorGauge(GetValue(data, "Em2_PF"))]
  }

  /** With no data every needle rests at 0. */
  lemma NoDataGaugesAtZero()
    ensures forall k :: 0 <= k < 5 ==> Gauges(None)[k].value == 0.0
  {
    var gs := Gauges(None);
    assert gs[0].value * 1000.0 == 0.0 && gs[1].value * 1000.0 == 0.0;
  }

  const API_UNSUCCESSFUL: string := "API response unsuccessful"

  datatype Connection = Connected | Disconnected

  /** The panel's state; `lastUpdate` is the clock reading of the last good reply. */
  class Panel {
    var data: Option<Record>
    var loading: bool
    var error: Option<string>
    var connection: Connection
    var lastUpdate: Option<int>

    constructor ()
      ensures data == None && loading && error == None && connection == Connected && lastUpdate == None
    {
      data, loading, error, connection, lastUpdate := None, true, None, Connected, None;
    }

    /** The start-up screen shows only while loading before any data has arrived. */
    predicate ShowsSplash()
      reads this
      ensures ShowsSplash() ==> loading && data.None?
    {
      loading && data.None?
    }

    /**
     * `fetchData`: a successful body replaces the data, stamps the time and marks the
     * panel connected, leaving any earlier error in place; an unsuccessful body or an
     * exception records its message and marks it disconnected. Loading ends either way.
     */
    method FetchData(reply: Fetched<Envelope<Option<Record>>>, now: int)
      modifies this
      ensures !loading && !ShowsSplash()
      ensures reply.Response? && reply.body.success ==>
                data == reply.body.data && lastUpdate == Some(now) && connection == Connected && error == old(error)
      ensures reply.Response? && !reply.body.success ==>
                data == old(data) && lastUpdate == old(lastUpdate) && connection == Disconnected
                && error == Some(API_UNSUCCESSFUL)
      ensures reply.Failed? ==>
                data == old(data) && lastUpdate == old(lastUpdate) && connection == Disconnected
                && error == Some(reply.message)
    {
      loading := true;
      if reply.Response? && reply.body.success {
        data := reply.body.data;
        lastUpdate := Some(now);
        connection := Connected;
      } else {
        var message := if reply.Failed? then reply.message else API_UNSUCCESSFUL;
        error := Some(message);
        connection := Disconnected;
      }
      loading := false;
    }
  }
}
