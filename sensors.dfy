/**
 * The analogue-sensor screen: four voltage inputs and four current inputs,
 * each drawn as a card that is active when its reading is not zero; a footer
 * counting the active current inputs; and the fetch that refreshes them.
 */
module Sensors {
  import opened JsValues
  import opened Fetch

  /** One card: its id, the raw value from the reply and its caption. */
  datatype Card = Card(id: nat, value: Option<Json>, caption: string)

  /** The reply fields and captions of the voltage and the current inputs. */
  const VOLTAGE_KEYS: seq<string> := ["vin1", "vin2", "vin3", "vin4"]
  const VOLTAGE_CAPTIONS: seq<string> := ["VIN1", "VIN2", "VIN3", "VIN4"]
  const CURRENT_KEYS: seq<string> := ["Iin1", "Iin2", "Iin3", "Iin4"]
  const CURRENT_CAPTIONS: seq<string> := ["IIN1", "IIN2", "IIN3", "IIN4"]

  /** `voltages`: no cards without data, else the four voltage inputs in order. */
  function Voltages(data: Option<Record>): (cs: seq<Card>)
    ensures data.None? ==> cs == []
    ensures data.Some? ==> |cs| == 4
    ensures data.Some? ==> forall k :: 0 <= k < 4 ==>
              cs[k] == Card(k + 1, Field(data.value, VOLTAGE_KEYS[k]), VOLTAGE_CAPTIONS[k])
  {
    if data.None? then []
    else
      var d := data.value;
      [Card(1, Field(d, "vin1"), "VIN1"), Card(2, Field(d, "vin2"), "VIN2"),
       Card(3, Field(d, "vin3"), "VIN3"), Card(4, Field(d, "vin4"), "VIN4")]
  }

  /** `currents`: no cards without data, else the four current inputs in order. */
  function Currents(data: Option<Record>): (cs: seq<Card>)
    ensures data.None? ==> cs == []
    ensures data.Some? ==> |cs| == 4
    ensures data.Some? ==> forall k :: 0 <= k < 4 ==>
              cs[k] == Card(k + 1, Field(data.value, CURRENT_KEYS[k]), CURRENT_CAPTIONS[k])
  {
    if data.None? then []
    else
      var d := data.value;
      [Card(1, Field(d, "Iin1"), "IIN1"), Card(2, Field(d, "Iin2"), "IIN2"),
       Card(3, Field(d, "Iin3"), "IIN3"), Card(4, Field(d, "Iin4"), "IIN4")]
  }

  /** `parseFloat(value) !== 0`: NaN is not 0, so an unreadable value counts as active. */
  predicate IsActive(c: Card)
    ensures ParseFloat(c.value).None? ==> IsActive(c)
  {
    ParseFloat(c.value) != Some(0.0)
  }

  /** What a card prints: the number when it is finite, else dashes. */
  datatype Shown = Number(x: real) | Dashes

  function Display(c: Card): (s: Shown)
    ensures s.Dashes? <==> ParseFloat(c.value).None?
    ensures s.Number? ==> s.x == ParseFloat(c.value).value
  {
    match ParseFloat(c.value)
    case None => Dashes
    case Some(x) => Number(x)
  }

  /** A card that prints dashes is still shown as active. */
  lemma DashesAreActive(c: Card)
    requires Display(c).Dashes?
    ensures IsActive(c)
  {
  }

  /** `cards.filter(isActive).length` */
  function ActiveCount(cs: seq<Card>): (n: nat)
    ensures n <= |cs|
    ensures n == |cs| <==> forall k :: 0 <= k < |cs| ==> IsActive(cs[k])
    ensures n == 0 <==> forall k :: 0 <= k < |cs| ==> !IsActive(cs[k])
  {
    if cs == [] then 0
    else
      var rest := ActiveCount(cs[1..]);
      assert forall k :: 1 <= k < |cs| ==> cs[k] == cs[1..][k - 1];
      (if IsActive(cs[0]) then 1 else 0) + rest
  }

  /** The footer's figure: at most four active current inputs, none without data. */
  lemma ActiveCurrentsBounded(data: Option<Record>)
    ensures ActiveCount(Currents(data)) <= 4
    ensures data.None? ==> ActiveCount(Currents(data)) == 0
  {
  }

  const SUCCESS_FALSE: string := "API responded with success:false"
  const HTTP_PREFIX: string := "HTTP "

  /** What the screen renders. */
  datatype Screen = LoadingView | ErrorView(message: string) | Dashboard(voltages: seq<Card>, currents: seq<Card>)

  /** The screen's state. */
  class Monitor {
    var sensorData: Option<Record>
    var error: Option<string>

    constructor ()
      ensures sensorData == None && error == None
    {
      sensorData, error := None, None;
    }

    /** Loading until data or an error arrives; then the error, while one is held; then the cards. */
    function View(): (s: Screen)
      reads this
      ensures s == LoadingView <==> sensorData.None? && (error.None? || error.value == "")
      ensures s.ErrorView? <==> error.Some? && error.value != ""
      ensures s.Dashboard? ==> s == Dashboard(Voltages(sensorData), Currents(sensorData)) && |s.voltages| == |s.currents| == 4
    {
      if sensorData.None? && (error.None? || error.value == "") then LoadingView
      else if error.Some? && error.value != "" then ErrorView(error.value)
      else Dashboard(Voltages(sensorData), Currents(sensorData))
    }

    /**
     * `fetchSensors`: a status that is not ok, or a body without `success`, records its
     * message and keeps the data; a good body replaces the data and clears the error.
     */
    method FetchSensors(reply: Fetched<Envelope<Option<Record>>>)
      modifies this
      ensures reply.Response? && !Ok(reply.status) ==>
                sensorData == old(sensorData) && error == Some(HTTP_PREFIX + NatToString(reply.status))
      ensures reply.Response? && Ok(reply.status) && !reply.body.success ==>
                sensorData == old(sensorData) && error == Some(SUCCESS_FALSE)
      ensures reply.Response? && Ok(reply.status) && reply.body.success ==>
                sensorData == reply.body.data && error == None
      ensures reply.Failed? ==> sensorData == old(sensorData) && error == Some(reply.message)
      ensures reply.Response? && !(Ok(reply.status) && reply.body.success) ==> View().ErrorView?
      ensures reply.Response? && Ok(reply.status) && reply.body.success ==>
                View() == if reply.body.data.None? then LoadingView else Dashboard(Voltages(sensorData), Currents(sensorData))
    {
      if reply.Failed? {
        error := Some(reply.message);
      } else if !Ok(reply.status) {
        error := Some(HTTP_PREFIX + NatToString(reply.status));
      } else if !reply.body.success {
        error := Some(SUCCESS_FALSE);
      } else {
        sensorData := reply.body.data;
        error := None;
      }
    }
  }
}
