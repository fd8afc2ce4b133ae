/**
 * The digital I/O screen: seven digital inputs and seven digital outputs, each
 * shown ON exactly when its status is the string "1", with every falsy field
 * read as "0"; and the fetch that refreshes them.
 */
module DigitalIO {
  import opened JsValues
  import opened Fetch

  /** One row of a table: its caption and the status it shows. */
  datatype Row = Row(caption: string, status: Json)

  /** The status a missing input reads as. */
  const OFF_STATUS: Json := JStr("0")

  /** `status === '1'`: only the string "1" is ON; the number 1 is not. */
  predicate ShowsOn(status: Json)
  {
    status == JStr("1")
  }

  /** The row captions: "Input 1" to "Input 7" and "Output 1" to "Output 7". */
  function Caption(prefix: string, k: nat): (c: string)
    requires 1 <= k <= 9
    ensures |c| == |prefix| + 2 && c[..|prefix|] == prefix && c[|prefix|] == ' '
    ensures IsDigit(c[|prefix| + 1]) && DigitValue(c[|prefix| + 1]) == k
  {
    prefix + " " + [DigitChar(k)]
  }

  /** The reply fields of the inputs and of the outputs, in row order. */
  const INPUT_KEYS: seq<string> := ["Din1", "Din2", "Din3", "Din4", "Din5", "Din6", "Din7"]
  const OUTPUT_KEYS: seq<string> := ["Do1", "Do2", "Do3", "Do4", "Do5", "Do6", "Do7"]

  /** `data?.key || '0'` */
  function StatusOf(data: Option<Record>, key: string): (s: Json)
    ensures ShowsOn(s) <==> OptField(data, key) == Some(JStr("1"))
    ensures Falsy(OptField(data, key)) ==> s == OFF_STATUS
  {
    OrDefault(OptField(data, key), OFF_STATUS)
  }

  /** `digitalInputs` */
  function DigitalInputs(data: Option<Record>): (rows: seq<Row>)
    ensures |rows| == 7
    ensures forall k :: 0 <= k < 7 ==>
              rows[k].caption == Caption("Input", k + 1) && rows[k].status == StatusOf(data, INPUT_KEYS[k])
  {
    [Row("Input 1", StatusOf(data, "Din1")), Row("Input 2", StatusOf(data, "Din2")),
     Row("Input 3", StatusOf(data, "Din3")), Row("Input 4", StatusOf(data, "Din4")),
     Row("Input 5", StatusOf(data, "Din5")), Row("Input 6", StatusOf(data, "Din6")),
     Row("Input 7", StatusOf(data, "Din7"))]
  }

  /** `digitalOutputs` */
  function DigitalOutputs(data: Option<Record>): (rows: seq<Row>)
    ensures |rows| == 7
    ensures forall k :: 0 <= k < 7 ==>
              rows[k].caption == Caption("Output", k + 1) && rows[k].status == StatusOf(data, OUTPUT_KEYS[k])
  {
    [Row("Output 1", StatusOf(data, "Do1")), Row("Output 2", StatusOf(data, "Do2")),
     Row("Output 3", StatusOf(data, "Do3")), Row("Output 4", StatusOf(data, "Do4")),
     Row("Output 5", StatusOf(data, "Do5")), Row("Output 6", StatusOf(data, "Do6")),
     Row("Output 7", StatusOf(data, "Do7"))]
  }

  /** The captions number the rows in order, so no two rows of a table share one. */
  lemma CaptionsDistinct(data: Option<Record>)
    ensures forall k, l :: 0 <= k < l < 7 ==> DigitalInputs(data)[k].caption != DigitalInputs(data)[l].caption
    ensures forall k, l :: 0 <= k < l < 7 ==> DigitalOutputs(data)[k].caption != DigitalOutputs(data)[l].caption
  {
    var ins, outs := DigitalInputs(data), DigitalOutputs(data);
    forall k, l | 0 <= k < l < 7
      ensures ins[k].caption != ins[l].caption && outs[k].caption != outs[l].caption
    {
      assert ins[k].caption[6] != ins[l].caption[6];
      assert outs[k].caption[7] != outs[l].caption[7];
    }
  }

  /** Without data every row reads "0" and shows OFF. */
  lemma NoDataAllOff()
    ensures forall k :: 0 <= k < 7 ==> DigitalInputs(None)[k].status == OFF_STATUS
    ensures forall k :: 0 <= k < 7 ==> DigitalOutputs(None)[k].status == OFF_STATUS
  {
  }

  const FETCH_FAILED: string := "Failed to fetch data"
  const UNSUCCESSFUL: string := "API returned unsuccessful response"

  /** What the screen renders. */
  datatype Screen = LoadingView | ErrorView(message: string) | Tables(inputs: seq<Row>, outputs: seq<Row>)

  /** The screen's state; `lastUpdate` is the rendered clock time of the last good reply. */
  class Dashboard {
    var data: Option<Record>
    var loading: bool
    var error: Option<string>
    var lastUpdate: Option<string>

    constructor ()
      ensures data == None && loading && error == None && lastUpdate == None
    {
      data, loading, error, lastUpdate := None, true, None, None;
    }

    /** The spinner while loading, then the error panel while an error is held, then the two tables. */
    function View(): (s: Screen)
      reads this
      ensures loading ==> s == LoadingView
      ensures !loading && error.Some? && error.value != "" ==> s == ErrorView(error.value)
      ensures !loading && (error.None? || error.value == "") ==> s == Tables(DigitalInputs(data), DigitalOutputs(data))
    {
      if loading then LoadingView
      else if error.Some? && error.value != "" then ErrorView(error.value)
      else Tables(DigitalInputs(data), DigitalOutputs(data))
    }

    /**
     * `fetchData` (also run by "Retry Connection"): a status that is not ok or an
     * unsuccessful body records its message, an exception its own; a good body replaces
     * the data, stamps the time and clears the error. Loading ends either way.
     */
    method FetchData(reply: Fetched<Envelope<Option<Record>>>, now: string)
      modifies this
      ensures !loading
      ensures reply.Response? && !Ok(reply.status) ==>
                data == old(data) && lastUpdate == old(lastUpdate) && error == Some(FETCH_FAILED)
      ensures reply.Response? && Ok(reply.status) && !reply.body.success ==>
                data == old(data) && lastUpdate == old(lastUpdate) && error == Some(UNSUCCESSFUL)
      ensures reply.Response? && Ok(reply.status) && reply.body.success ==>
                data == reply.body.data && lastUpdate == Some(now) && error == None
      ensures reply.Failed? ==> data == old(data) && lastUpdate == old(lastUpdate) && error == Some(reply.message)
      ensures reply.Response? ==> (View().ErrorView? <==> !(Ok(reply.status) && reply.body.success))
    {
      if reply.Failed? {
        error := Some(reply.message);
      } else if !Ok(reply.status) {
        error := Some(FETCH_FAILED);
      } else if reply.body.success {
        data := reply.body.data;
        lastUpdate := Some(now);
        error := None;
      } else {
        error := Some(UNSUCCESSFUL);
      }
      loading := false;
    }
  }
}
