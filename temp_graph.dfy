/**
 * The temperature history chart: a day of hourly points labelled "00:00" to
 * "23:00", the sensors a graph type selects, and the per-sensor statistics
 * (average to one decimal, minimum, maximum and trend) shown under the chart.
 *
 * The points' values are mock figures built from `Math.random` and `sin`/`cos`;
 * they enter the model as the `sample` parameter, which gives the unrounded
 * figure for an hour and a sensor.
 */
module TempGraph {
  import opened JsValues
  import Stats

  /** One selectable sensor: its data key and its legend label. */
  datatype Sensor = Sensor(key: string, name: string)

  const RTD_SENSORS: seq<Sensor> :=
    [Sensor("rtd1", "RTD 1"), Sensor("rtd2", "RTD 2"), Sensor("rtd3", "RTD 3"), Sensor("rtd4", "RTD 4")]

  const TC_SENSORS: seq<Sensor> :=
    [Sensor("tc1", "TC 1"), Sensor("tc2", "TC 2"), Sensor("tc3", "TC 3"), Sensor("tc4", "TC 4")]

  /** `allSensors`: the eight sensors the single-sensor view chooses from. */
  const ALL_SENSORS: seq<Sensor> := RTD_SENSORS + TC_SENSORS

  function Keys(sensors: seq<Sensor>): (ks: seq<string>)
    ensures |ks| == |sensors| && forall j :: 0 <= j < |sensors| ==> ks[j] == sensors[j].key
  {
    seq(|sensors|, j requires 0 <= j < |sensors| => sensors[j].key)
  }

  /** The position of the first sensor with the key, or the length when there is none. */
  function IndexOf(sensors: seq<Sensor>, key: string): (i: nat)
    ensures i <= |sensors|
    ensures forall k :: 0 <= k < i ==> sensors[k].key != key
    ensures i < |sensors| ==> sensors[i].key == key
  {
    if sensors == [] then 0
    else if sensors[0].key == key then 0
    else
      assert forall k :: 1 <= k < |sensors| ==> sensors[k] == sensors[1..][k - 1];
      1 + IndexOf(sensors[1..], key)
  }

  /** `allSensors.find(s => s.key === key)`: the first sensor with that key, if any. */
  function Find(sensors: seq<Sensor>, key: string): (r: Option<Sensor>)
    ensures r.None? <==> forall j :: 0 <= j < |sensors| ==> sensors[j].key != key
    ensures r.Some? ==> r.value.key == key && r.value == sensors[IndexOf(sensors, key)]
  {
    var i := IndexOf(sensors, key);
    if i < |sensors| then Some(sensors[i]) else None
  }

  /** What `getSensorConfig` returns, without its icon. */
  datatype Config = Config(title: string, sensors: seq<Sensor>)

  /**
   * `getSensorConfig`: "rtd" selects the four RTDs, "tc" the four thermocouples, and any
   * other graph type the single selected sensor; a key no sensor has yields no
   * configuration (reading `sensor.label` of `undefined` throws).
   */
  function SensorConfig(graphType: string, selected: string): (c: Option<Config>)
    ensures graphType == "rtd" ==> c.Some? && Keys(c.value.sensors) == ["rtd1", "rtd2", "rtd3", "rtd4"]
    ensures graphType == "tc" ==> c.Some? && Keys(c.value.sensors) == ["tc1", "tc2", "tc3", "tc4"]
    ensures graphType != "rtd" && graphType != "tc" ==>
              (c.Some? <==> selected in Keys(ALL_SENSORS))
              && (c.Some? ==> |c.value.sensors| == 1 && c.value.sensors[0].key == selected
                              && c.value.sensors[0] in ALL_SENSORS)
  {
    if graphType == "rtd" then Some(Config("PT 100 RTD Sensors", RTD_SENSORS))
    else if graphType == "tc" then Some(Config("Thermocouple Sensors", TC_SENSORS))
    else
      match Find(ALL_SENSORS, selected)
      case None => None
      case Some(s) => Some(Config(s.name + " Sensor", [s]))
  }

  /** Every option of the sensor selector yields a configuration for that sensor. */
  lemma EverySelectableSensorConfigures(graphType: string, j: nat)
    requires graphType != "rtd" && graphType != "tc" && j < |ALL_SENSORS|
    ensures SensorConfig(graphType, ALL_SENSORS[j].key).Some?
    ensures SensorConfig(graphType, ALL_SENSORS[j].key).value.sensors == [ALL_SENSORS[j]]
  {
    var key := ALL_SENSORS[j].key;
    assert Keys(ALL_SENSORS)[j] == key;
    var i := IndexOf(ALL_SENSORS, key);
    assert Keys(ALL_SENSORS) == ["rtd1", "rtd2", "rtd3", "rtd4", "tc1", "tc2", "tc3", "tc4"];
    assert i == j;
  }

  // ---------------------------------------------------------------------
  // The generated day
  // ---------------------------------------------------------------------

  /** One chart point: its hour label and a value per sensor key. */
  datatype Point = Point(time: string, readings: map<string, real>)

  /** `i.toString().padStart(2, '0')` for an hour below 100. */
  function Pad2(i: nat): (s: string)
    requires i < 100
    ensures |s| == 2 && AllDigits(s)
    ensures DigitsToNat(s) == i
  {
    NatToStringDigits(i);
    var t := NatToString(i);
    if i < 10 then
      assert DigitsToNat(['0']) == 0;
      assert ("0" + t)[..1] == "0";
      "0" + t
    else
      assert t[..|t|] == t;
      t
  }

  /** The label of hour `i`. */
  function HourLabel(i: nat): (s: string)
    requires i < 100
    ensures |s| == 5 && s[..2] == Pad2(i) && s[2..] == ":00"
  {
    var s := Pad2(i) + ":00";
    assert s[..2] == Pad2(i);
    s
  }

  /** Distinct hours get distinct labels. */
  lemma HourLabelsDistinct(i: nat, j: nat)
    requires i < 100 && j < 100 && HourLabel(i) == HourLabel(j)
    ensures i == j
  {
    assert Pad2(i) == HourLabel(i)[..2] == HourLabel(j)[..2] == Pad2(j);
  }

  /** One hour's stored values: each sensor's figure rounded to one decimal. */
  function HourValues(sample: (nat, string) -> real, i: nat): (m: map<string, real>)
    ensures m.Keys == set s | s in ALL_SENSORS :: s.key
    ensures forall k :: k in m ==> sample(i, k) - 0.05 < m[k] <= sample(i, k) + 0.05
  {
    map k | k in (set s | s in ALL_SENSORS :: s.key) :: Round1(sample(i, k))
  }

  /** Every stored value is a whole number of tenths. */
  lemma HourValuesInTenths(sample: (nat, string) -> real, i: nat)
    ensures forall k :: k in HourValues(sample, i) ==> InTenths(HourValues(sample, i)[k])
  {
    forall k | k in HourValues(sample, i)
      ensures InTenths(HourValues(sample, i)[k])
    {
      assert HourValues(sample, i)[k] == Round1(sample(i, k));
    }
  }

  /** The loop of `fetchGraphData`: 24 points, hour by hour. */
  method GenerateDay(sample: (nat, string) -> real) returns (data: seq<Point>)
    ensures |data| == 24
    ensures forall i :: 0 <= i < 24 ==> data[i] == Point(HourLabel(i), HourValues(sample, i))
  {
    data := [];
    for i := 0 to 24
      invariant |data| == i
      invariant forall k :: 0 <= k < i ==> data[k] == Point(HourLabel(k), HourValues(sample, k))
    {
      data := data + [Point(HourLabel(i), HourValues(sample, i))];
    }
  }

  /** The generated day runs from "00:00" to "23:00" with no label twice. */
  lemma DayLabels(data: seq<Point>, sample: (nat, string) -> real)
    requires |data| == 24
    requires forall i :: 0 <= i < 24 ==> data[i] == Point(HourLabel(i), HourValues(sample, i))
    ensures data[0].time == "00:00" && data[23].time == "23:00"
    ensures forall i, j :: 0 <= i < j < 24 ==> data[i].time != data[j].time
  {
    assert Pad2(0) == "00";
    assert NatToString(23) == NatToString(2) + [DigitChar(3)];
    forall i, j | 0 <= i < j < 24
      ensures data[i].time != data[j].time
    {
      if data[i].time == data[j].time {
        HourLabelsDistinct(i, j);
      }
    }
  }

  // ---------------------------------------------------------------------
  // getStats
  // ---------------------------------------------------------------------

  /** One sensor's statistics. */
  datatype SensorStats = SensorStats(sensor: Sensor, avg: real, min: real, max: real, trendUp: bool)

  /** Every point carries a value for every configured sensor. */
  predicate Covers(data: seq<Point>, sensors: seq<Sensor>)
  {
    forall i, j :: 0 <= i < |data| && 0 <= j < |sensors| ==> sensors[j].key in data[i].readings
  }

  /** `graphData.map(d => d[sensor.key])` */
  function Column(data: seq<Point>, key: string): (vs: seq<real>)
    requires forall i :: 0 <= i < |data| ==> key in data[i].readings
    ensures |vs| == |data| && forall i :: 0 <= i < |data| ==> vs[i] == data[i].readings[key]
  {
    seq(|data|, i requires 0 <= i < |data| => data[i].readings[key])
  }

  /**
   * One sensor's entry: the average rounded to one decimal lies within 0.05 of the range
   * of its values, and the trend is up exactly when the last value exceeds the first.
   */
  function StatsOf(data: seq<Point>, s: Sensor): (r: SensorStats)
    requires |data| > 0
    requires forall i :: 0 <= i < |data| ==> s.key in data[i].readings
    ensures r.sensor == s
    ensures r.min <= r.max
    ensures r.min - 0.05 < r.avg <= r.max + 0.05
    ensures forall i :: 0 <= i < |data| ==> r.min <= data[i].readings[s.key] <= r.max
    ensures r.trendUp <==> data[|data| - 1].readings[s.key] > data[0].readings[s.key]
  {
    var vs := Column(data, s.key);
    Stats.MeanBetweenMinMax(vs);
    SensorStats(s, Round1(Stats.Mean(vs)), Stats.MinOf(vs), Stats.MaxOf(vs), vs[|vs| - 1] > vs[0])
  }

  /**
   * The entry holds the series' own statistics: the minimum and the maximum are values of
   * the series, and the average is its mean rounded to a whole number of tenths.
   */
  lemma StatsOfIsTheStatistics(data: seq<Point>, s: Sensor)
    requires |data| > 0
    requires forall i :: 0 <= i < |data| ==> s.key in data[i].readings
    ensures exists i :: 0 <= i < |data| && StatsOf(data, s).min == data[i].readings[s.key]
    ensures exists i :: 0 <= i < |data| && StatsOf(data, s).max == data[i].readings[s.key]
    ensures Stats.Mean(Column(data, s.key)) - 0.05 < StatsOf(data, s).avg <= Stats.Mean(Column(data, s.key)) + 0.05
    ensures InTenths(StatsOf(data, s).avg)
  {
    var vs := Column(data, s.key);
    var i :| 0 <= i < |vs| && vs[i] == Stats.MinOf(vs);
    var j :| 0 <= j < |vs| && vs[j] == Stats.MaxOf(vs);
  }

  /** `getStats`: nothing without graph data, otherwise one entry per configured sensor in order. */
  function GetStats(graphData: Option<seq<Point>>, config: Config): (r: Option<seq<SensorStats>>)
    requires graphData.Some? ==> |graphData.value| > 0 && Covers(graphData.value, config.sensors)
    ensures r.None? <==> graphData.None?
    ensures r.Some? ==> (|r.value| == |config.sensors|
              && forall j :: 0 <= j < |config.sensors| ==>
                   r.value[j] == StatsOf(graphData.value, config.sensors[j]))
  {
    if graphData.None? then None
    else
      var data := graphData.value;
      Some(seq(|config.sensors|, j requires 0 <= j < |config.sensors| => StatsOf(data, config.sensors[j])))
  }

  /** The generated day has a value for every sensor any configuration can select. */
  lemma GeneratedDayCovers(data: seq<Point>, sample: (nat, string) -> real, config: Config)
    requires |data| == 24
    requires forall i :: 0 <= i < 24 ==> data[i] == Point(HourLabel(i), HourValues(sample, i))
    requires forall s :: s in config.sensors ==> s in ALL_SENSORS
    ensures Covers(data, config.sensors)
  {
    forall i, j | 0 <= i < |data| && 0 <= j < |config.sensors|
      ensures config.sensors[j].key in data[i].readings
    {
      assert config.sensors[j] in config.sensors;
    }
  }

  /** Every configuration picks its sensors from the eight. */
  lemma ConfigSensorsKnown(graphType: string, selected: string)
    requires SensorConfig(graphType, selected).Some?
    ensures forall s :: s in SensorConfig(graphType, selected).value.sensors ==> s in ALL_SENSORS
  {
    var c := SensorConfig(graphType, selected).value;
    forall s | s in c.sensors
      ensures s in ALL_SENSORS
    {
      if graphType == "rtd" {
        assert c.sensors == RTD_SENSORS;
      } else if graphType == "tc" {
        assert c.sensors == TC_SENSORS;
      }
    }
  }

  /** The chart's state. */
  class Chart {
    var graphType: string
    var selectedSensor: string
    var graphData: Option<seq<Point>>
    var loading: bool
    var error: Option<string>

    constructor ()
      ensures graphType == "rtd" && selectedSensor == "rtd1"
      ensures graphData == None && !loading && error == None
    {
      graphType, selectedSensor := "rtd", "rtd1";
      graphData, loading, error := None, false, None;
    }

    /** `fetchGraphData`: the error is cleared, a fresh day replaces the data and loading ends. */
    method FetchGraphData(sample: (nat, string) -> real)
      modifies this`graphData, this`loading, this`error
      ensures error == None && !loading
      ensures graphData.Some? && |graphData.value| == 24
      ensures forall i :: 0 <= i < 24 ==> graphData.value[i] == Point(HourLabel(i), HourValues(sample, i))
    {
      loading := true;
      error := None;
      var day := GenerateDay(sample);
      graphData := Some(day);
      loading := false;
    }
  }
}
