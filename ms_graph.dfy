/**
 * The energy-meter history chart: a graph type picks the spindle meter's and
 * the machine meter's field of one quantity, the day's readings are kept when
 * their clock time lies in the chosen window, their two values are read with
 * unparsable text counted as 0, the points are sorted by timestamp, and the
 * summary averages both values when there are any points.
 */
module MSGraph {
  import opened JsValues
  import opened Fetch
  import Stats

  datatype GraphType = Energy | Power | Voltage | Current | PowerFactor

  /** The option text of each graph type, as the `graphTypes` list names it. */
  function Label(g: GraphType): string
  {
    match g
    case Energy => "Energy Consumption (kWh)"
    case Power => "Power (kW)"
    case Voltage => "Voltage (L-L)"
    case Current => "Current (Avg)"
    case PowerFactor => "Power Factor (Avg)"
  }

  /** The graph type a selected option text names, if any. */
  function FromLabel(text: string): (g: Option<GraphType>)
    ensures g.Some? ==> Label(g.value) == text
  {
    if text == Label(Energy) then Some(Energy)
    else if text == Label(Power) then Some(Power)
    else if text == Label(Voltage) then Some(Voltage)
    else if text == Label(Current) then Some(Current)
    else if text == Label(PowerFactor) then Some(PowerFactor)
    else None
  }

  /** Every graph type's option text selects that graph type again. */
  lemma LabelRoundTrip(g: GraphType)
    ensures FromLabel(Label(g)) == Some(g)
  {
  }

  /** The field suffix of the quantity a graph type plots. */
  function Quantity(g: GraphType): string
  {
    match g
    case Energy => "Energy"
    case Power => "power"
    case Voltage => "voltage"
    case Current => "current"
    case PowerFactor => "PF"
  }

  /** `parameterMapping[graphType]`: the spindle meter's and the machine meter's field. */
  function SpindleField(g: GraphType): string
  {
    match g
    case Energy => "Em1_Energy"
    case Power => "Em1_power"
    case Voltage => "Em1_voltage"
    case Current => "Em1_current"
    case PowerFactor => "Em1_PF"
  }

  function MachineField(g: GraphType): string
  {
    match g
    case Energy => "Em2_Energy"
    case Power => "Em2_power"
    case Voltage => "Em2_voltage"
    case Current => "Em2_current"
    case PowerFactor => "Em2_PF"
  }

  /** Both fields of a graph type measure the same quantity, on meter 1 and on meter 2. */
  lemma MappingPairsMeters(g: GraphType)
    ensures SpindleField(g) == "Em1_" + Quantity(g)
    ensures MachineField(g) == "Em2_" + Quantity(g)
  {
  }

  /** Distinct graph types plot distinct fields. */
  lemma MappingInjective(g: GraphType, h: GraphType)
    requires SpindleField(g) == SpindleField(h) || MachineField(g) == MachineField(h)
    ensures g == h
  {
  }

  /**
   * One raw reading, with its `created_at` already rendered: `clock` is the
   * local `HH:MM` and `timestamp` the milliseconds since the epoch.
   */
  datatype RawItem = RawItem(clock: string, timestamp: int, fields: Record)

  /** One chart point. */
  datatype Point = Point(clock: string, timestamp: int, spindle: real, machine: real, raw: Record)

  /**
   * `itemTime >= startTime && itemTime <= endTime`, compared as strings; only a window
   * whose start does not come after its end holds any reading.
   */
  predicate InWindow(clock: string, start: string, end: string)
    ensures InWindow(clock, start, end) ==> LexLe(start, end)
  {
    if LexLe(start, clock) && LexLe(clock, end) then
      LexLeTransitive(start, clock, end); true
    else false
  }

  /** `rawData.filter(...)`: exactly the readings in the window, in their original order. */
  function Window(items: seq<RawItem>, start: string, end: string): (r: seq<RawItem>)
    ensures |r| <= |items|
    ensures forall x :: x in r <==> x in items && InWindow(x.clock, start, end)
    ensures multiset(r) <= multiset(items)
  {
    if items == [] then []
    else
      var rest := Window(items[1..], start, end);
      assert items == [items[0]] + items[1..];
      if InWindow(items[0].clock, start, end) then [items[0]] + rest else rest
  }

  /** `sub` is `s` with some elements left out, the rest in their original order. */
  predicate IsSubsequence<T(==)>(sub: seq<T>, s: seq<T>)
    decreases |s|
  {
    if sub == [] then true
    else if s == [] then false
    else if sub[0] == s[0] then IsSubsequence(sub[1..], s[1..])
    else IsSubsequence(sub, s[1..])
  }

  /**
   * The filter keeps every reading in the window as often as the input holds it, drops
   * every other one, and keeps the input's order.
   */
  lemma {:induction false} WindowKeepsCountsAndOrder(items: seq<RawItem>, start: string, end: string)
    ensures forall y :: multiset(Window(items, start, end))[y]
              == (if InWindow(y.clock, start, end) then multiset(items)[y] else 0)
    ensures IsSubsequence(Window(items, start, end), items)
  {
    if items != [] {
      WindowKeepsCountsAndOrder(items[1..], start, end);
      assert items == [items[0]] + items[1..];
    }
  }

  /** The map step: both values read through `parseFloat(...) || 0`. */
  function ToPoint(g: GraphType, x: RawItem): (p: Point)
    ensures p.timestamp == x.timestamp && p.raw == x.fields
    ensures p.spindle == ParseOrZero(Field(x.fields, SpindleField(g)))
    ensures p.machine == ParseOrZero(Field(x.fields, MachineField(g)))
    ensures ParseFloat(Field(x.fields, SpindleField(g))).None? ==> p.spindle == 0.0
    ensures ParseFloat(Field(x.fields, MachineField(g))).None? ==> p.machine == 0.0
  {
    Point(x.clock, x.timestamp, ParseOrZero(Field(x.fields, SpindleField(g))),
          ParseOrZero(Field(x.fields, MachineField(g))), x.fields)
  }

  function ToPoints(g: GraphType, items: seq<RawItem>): (ps: seq<Point>)
    ensures |ps| == |items|
    ensures forall j :: 0 <= j < |items| ==> ps[j] == ToPoint(g, items[j])
  {
    seq(|items|, j requires 0 <= j < |items| => ToPoint(g, items[j]))
  }

  predicate SortedByTime(s: seq<Point>)
  {
    forall k, l :: 0 <= k < l < |s| ==> s[k].timestamp <= s[l].timestamp
  }

  /** `processedData.sort((a, b) => a.timestamp - b.timestamp)`, in place. */
  method SortByTimestamp(a: array<Point>)
    modifies a
    ensures SortedByTime(a[..])
    ensures multiset(a[..]) == multiset(old(a[..]))
  {
    var i := 0;
    while i < a.Length
      invariant 0 <= i <= a.Length
      invariant SortedByTime(a[..i])
      invariant multiset(a[..]) == multiset(old(a[..]))
    {
      InsertLast(a, i);
      i := i + 1;
    }
  }

  /** Moves `a[i]` down into the sorted prefix `a[..i]`. */
  method InsertLast(a: array<Point>, i: nat)
    requires i < a.Length && SortedByTime(a[..i])
    modifies a
    ensures SortedByTime(a[..i + 1])
    ensures multiset(a[..]) == multiset(old(a[..]))
  {
    var j := i;
    InsertStart(a[..], i);
    while j > 0 && a[j - 1].timestamp > a[j].timestamp
      invariant 0 <= j <= i
      invariant multiset(a[..]) == multiset(old(a[..]))
      invariant Sinking(a[..], i, j)
    {
      ghost var s := a[..];
      a[j - 1], a[j] := a[j], a[j - 1];
      assert a[..] == Swap(s, j);
      SwapStep(s, i, j);
      j := j - 1;
    }
    InsertDone(a[..], i, j);
  }

  /** `s` with the neighbours at `j - 1` and `j` exchanged. */
  function Swap(s: seq<Point>, j: nat): (r: seq<Point>)
    requires 0 < j < |s|
    ensures |r| == |s| && r[j - 1] == s[j] && r[j] == s[j - 1]
    ensures forall k :: 0 <= k < |s| && k != j - 1 && k != j ==> r[k] == s[k]
  {
    s[j - 1 := s[j]][j := s[j - 1]]
  }

  /**
   * The state of the insertion of `s[i]`, now at `j`: the first `i + 1` points are in
   * order once the one at `j` is set aside, it is not later than any point after it,
   * and its two neighbours are in order.
   */
  predicate Sinking(s: seq<Point>, i: nat, j: nat)
  {
    j <= i < |s|
    && (forall k, l :: 0 <= k < l <= i && l != j && k != j ==> s[k].timestamp <= s[l].timestamp)
    && (forall k :: j < k <= i ==> s[j].timestamp <= s[k].timestamp)
    && (0 < j < i ==> s[j - 1].timestamp <= s[j + 1].timestamp)
  }

  lemma InsertStart(s: seq<Point>, i: nat)
    requires i < |s| && SortedByTime(s[..i])
    ensures Sinking(s, i, i)
  {
    forall k, l | 0 <= k < l <= i && l != i && k != i
      ensures s[k].timestamp <= s[l].timestamp
    {
      assert s[k] == s[..i][k] && s[l] == s[..i][l];
    }
  }

  /** Exchanging the point with a later-timestamped left neighbour keeps the insertion going. */
  lemma SwapStep(s: seq<Point>, i: nat, j: nat)
    requires 0 < j && Sinking(s, i, j) && s[j - 1].timestamp > s[j].timestamp
    ensures Sinking(Swap(s, j), i, j - 1)
    ensures multiset(Swap(s, j)) == multiset(s)
  {
    var r := Swap(s, j);
    forall k, l | 0 <= k < l <= i && l != j - 1 && k != j - 1
      ensures r[k].timestamp <= r[l].timestamp
    {
      if l == j {
        if k < j - 1 {
          assert r[k] == s[k] && r[l] == s[j - 1];
        }
      } else if k == j {
        assert r[k] == s[j - 1] && r[l] == s[l];
        if j < i {
          assert s[j - 1].timestamp <= s[j + 1].timestamp;
          assert s[j + 1].timestamp <= s[l].timestamp;
        }
      } else {
        assert r[k] == s[k] && r[l] == s[l];
      }
    }
    forall k | j - 1 < k <= i
      ensures r[j - 1].timestamp <= r[k].timestamp
    {
      if k == j {
        assert r[k] == s[j - 1];
      } else {
        assert r[k] == s[k];
      }
    }
    if 1 < j {
      assert r[j - 2] == s[j - 2] && r[j] == s[j - 1];
    }
    calc {
      multiset(r);
      multiset(s[j - 1 := s[j]][j := s[j - 1]]);
      multiset(s);
    }
  }

  /** When the point stops sinking, the first `i + 1` points are in order. */
  lemma InsertDone(s: seq<Point>, i: nat, j: nat)
    requires Sinking(s, i, j) && (j == 0 || s[j - 1].timestamp <= s[j].timestamp)
    ensures SortedByTime(s[..i + 1])
  {
    forall k, l | 0 <= k < l <= i
      ensures s[k].timestamp <= s[l].timestamp
    {
      if l == j {
        assert s[k].timestamp <= s[j - 1].timestamp || k == j - 1;
      }
    }
  }

  /** The summary cards' two averages, shown only when there is at least one point. */
  function Summary(data: seq<Point>): (r: Option<(real, real)>)
    ensures r.Some? <==> |data| > 0
  {
    if data == [] then None
    else Some((Stats.Mean(Spindles(data)), Stats.Mean(Machines(data))))
  }

  function Spindles(data: seq<Point>): (s: seq<real>)
    ensures |s| == |data| && forall j :: 0 <= j < |data| ==> s[j] == data[j].spindle
  {
    seq(|data|, j requires 0 <= j < |data| => data[j].spindle)
  }

  function Machines(data: seq<Point>): (s: seq<real>)
    ensures |s| == |data| && forall j :: 0 <= j < |data| ==> s[j] == data[j].machine
  {
    seq(|data|, j requires 0 <= j < |data| => data[j].machine)
  }

  /** Each summary average lies between the least and the greatest value it averages. */
  lemma SummaryWithinValues(data: seq<Point>)
    requires |data| > 0
    ensures Stats.MinOf(Spindles(data)) <= Summary(data).value.0 <= Stats.MaxOf(Spindles(data))
    ensures Stats.MinOf(Machines(data)) <= Summary(data).value.1 <= Stats.MaxOf(Machines(data))
  {
    Stats.MeanBetweenMinMax(Spindles(data));
    Stats.MeanBetweenMinMax(Machines(data));
  }

  const HTTP_ERROR_PREFIX: string := "HTTP error! status: "
  const FAILED_PREFIX: string := "Failed to fetch data: "

  /** The message `fetchData` shows for a failure. */
  function FailureMessage(cause: string): (m: string)
    ensures StartsWith(m, FAILED_PREFIX) && m[|FAILED_PREFIX|..] == cause
  {
    FAILED_PREFIX + cause
  }

  /** The message for a response that is not ok carries the status, so distinct statuses read differently. */
  lemma StatusMessagesDistinct(s1: nat, s2: nat)
    requires FailureMessage(HTTP_ERROR_PREFIX + NatToString(s1)) == FailureMessage(HTTP_ERROR_PREFIX + NatToString(s2))
    ensures s1 == s2
  {
    var m1, m2 := FailureMessage(HTTP_ERROR_PREFIX + NatToString(s1)), FailureMessage(HTTP_ERROR_PREFIX + NatToString(s2));
    assert m1[|FAILED_PREFIX|..][|HTTP_ERROR_PREFIX|..] == NatToString(s1);
    assert m2[|FAILED_PREFIX|..][|HTTP_ERROR_PREFIX|..] == NatToString(s2);
    NatToStringInjective(s1, s2);
  }

  /** The chart's state. */
  class Chart {
    var startTime: string
    var endTime: string
    var graphType: GraphType
    var data: seq<Point>
    var loading: bool
    var error: string

    constructor ()
      ensures startTime == "00:00" && endTime == "23:59" && graphType == Energy
      ensures data == [] && !loading && error == ""
    {
      startTime, endTime, graphType := "00:00", "23:59", Energy;
      data, loading, error := [], false, "";
    }

    /**
     * `fetchData`: a failed request or one that is not ok leaves the points as they were
     * and shows the failure; otherwise the points become the readings in the window,
     * mapped to chart points and sorted by timestamp. Loading ends either way.
     */
    method FetchData(reply: Fetched<seq<RawItem>>)
      modifies this`data, this`loading, this`error
      ensures !loading
      ensures reply.Failed? ==> error == FailureMessage(reply.message) && data == old(data)
      ensures reply.Response? && !Ok(reply.status) ==>
                error == FailureMessage(HTTP_ERROR_PREFIX + NatToString(reply.status)) && data == old(data)
      ensures reply.Response? && Ok(reply.status) ==>
                error == "" && SortedByTime(data)
                && multiset(data) == multiset(ToPoints(graphType, Window(reply.body, startTime, endTime)))
    {
      loading := true;
      error := "";
      if reply.Failed? {
        error := FailureMessage(reply.message);
      } else if !Ok(reply.status) {
        error := FailureMessage(HTTP_ERROR_PREFIX + NatToString(reply.status));
      } else {
        var points := ToPoints(graphType, Window(reply.body, startTime, endTime));
        var a := new Point[|points|](j requires 0 <= j < |points| => points[j]);
        assert a[..] == points;
        SortByTimestamp(a);
        data := a[..];
      }
      loading := false;
    }
  }

  /** The sorted points are exactly the processed readings of the window, so there are no more of them than readings. */
  lemma FetchedPointsFromWindow(g: GraphType, items: seq<RawItem>, start: string, end: string, data: seq<Point>)
    requires multiset(data) == multiset(ToPoints(g, Window(items, start, end)))
    ensures |data| <= |items|
    ensures forall p :: p in data ==> exists x :: x in items && InWindow(x.clock, start, end) && p == ToPoint(g, x)
  {
    var w := Window(items, start, end);
    assert |data| == |multiset(data)| == |ToPoints(g, w)| == |w|;
    forall p | p in data
      ensures exists x :: x in items && InWindow(x.clock, start, end) && p == ToPoint(g, x)
    {
      assert p in multiset(ToPoints(g, w));
      var j :| 0 <= j < |w| && ToPoints(g, w)[j] == p;
      assert w[j] in w;
    }
  }
}
