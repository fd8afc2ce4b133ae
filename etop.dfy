/**
 * The E-TOP I/O screen: the same seven-input, seven-output tables as the
 * digital I/O screen, but with only null and undefined read as "0"; and a
 * fetch that aborts the request before it when it starts, and ignores the
 * abort errors that this produces.
 */
module ETop {
  import opened JsValues
  import opened Fetch
  import opened DigitalIO

  /** The reply fields of the inputs and of the outputs, in row order. */
  const E_INPUT_KEYS: seq<string> := ["e_din1", "e_din2", "e_din3", "e_din4", "e_din5", "e_din6", "e_din7"]
  const E_OUTPUT_KEYS: seq<string> := ["e_do1", "e_do2", "e_do3", "e_do4", "e_do5", "e_do6", "e_do7"]

  /** `data?.key ?? "0"` */
  function NullishStatus(data: Option<Record>, key: string): (s: Json)
    ensures ShowsOn(s) <==> OptField(data, key) == Some(JStr("1"))
    ensures OptField(data, key).Some? && !OptField(data, key).value.JNull? ==> s == OptField(data, key).value
    ensures OptField(data, key).None? || OptField(data, key).value.JNull? ==> s == OFF_STATUS
  {
    Nullish(OptField(data, key), OFF_STATUS)
  }

  /** The memoised `digitalInputs` */
  function EInputs(data: Option<Record>): (rows: seq<Row>)
    ensures |rows| == 7
    ensures forall k :: 0 <= k < 7 ==>
              rows[k].caption == Caption("Input", k + 1) && rows[k].status == NullishStatus(data, E_INPUT_KEYS[k])
  {
    [Row("Input 1", NullishStatus(data, "e_din1")), Row("Input 2", NullishStatus(data, "e_din2")),
     Row("Input 3", NullishStatus(data, "e_din3")), Row("Input 4", NullishStatus(data, "e_din4")),
     Row("Input 5", NullishStatus(data, "e_din5")), Row("Input 6", NullishStatus(data, "e_din6")),
     Row("Input 7", NullishStatus(data, "e_din7"))]
  }

  /** The memoised `digitalOutputs` */
  function EOutputs(data: Option<Record>): (rows: seq<Row>)
    ensures |rows| == 7
    ensures forall k :: 0 <= k < 7 ==>
              rows[k].caption == Caption("Output", k + 1) && rows[k].status == NullishStatus(data, E_OUTPUT_KEYS[k])
  {
    [Row("Output 1", NullishStatus(data, "e_do1")), Row("Output 2", NullishStatus(data, "e_do2")),
     Row("Output 3", NullishStatus(data, "e_do3")), Row("Output 4", NullishStatus(data, "e_do4")),
     Row("Output 5", NullishStatus(data, "e_do5")), Row("Output 6", NullishStatus(data, "e_do6")),
     Row("Output 7", NullishStatus(data, "e_do7"))]
  }

  /**
   * The two defaulting rules differ on an empty string (kept here, replaced by "0" on the
   * digital I/O screen), yet they never disagree on whether a row shows ON.
   */
  lemma DefaultingRulesAgreeOnDisplay(data: Option<Record>, key: string)
    ensures ShowsOn(NullishStatus(data, key)) <==> ShowsOn(StatusOf(data, key))
    ensures OptField(data, key) == Some(JStr("")) ==>
              NullishStatus(data, key) == JStr("") && StatusOf(data, key) == OFF_STATUS
  {
  }

  const UNSUCCESSFUL_REPLY: string := "API returned unsuccessful response"
  const REQUEST_FAILED_PREFIX: string := "Request failed: "
  const UNKNOWN_ERROR: string := "Unknown error"
  const ABORT_ERROR: string := "AbortError"

  /** The message a failed request leaves, or `None` for an abort, which leaves the error alone. */
  function FailureError(reply: Fetched<Envelope<Option<Record>>>): (m: Option<string>)
    requires !(reply.Response? && Ok(reply.status) && reply.body.success)
    ensures m.None? <==> reply.Failed? && reply.name == ABORT_ERROR
    ensures m.Some? ==> m.value != ""
    ensures reply.Failed? && reply.name != ABORT_ERROR ==>
              m == Some(if reply.message != "" then reply.message else UNKNOWN_ERROR)
    ensures reply.Response? && !Ok(reply.status) ==> m == Some(REQUEST_FAILED_PREFIX + NatToString(reply.status))
    ensures reply.Response? && Ok(reply.status) ==> m == Some(UNSUCCESSFUL_REPLY)
  {
    if reply.Failed? then
      if reply.name == ABORT_ERROR then None
      else if reply.message != "" then Some(reply.message) else Some(UNKNOWN_ERROR)
    else if !Ok(reply.status) then Some(REQUEST_FAILED_PREFIX + NatToString(reply.status))
    else Some(UNSUCCESSFUL_REPLY)
  }

  /**
   * The screen's state. Every `AbortController` ever created is an entry of
   * `aborted` (true once aborted); `current` is the one `abortRef` holds.
   */
  class Panel {
    var data: Option<Record>
    var loading: bool
    var error: Option<string>
    var lastUpdate: Option<string>
    var aborted: seq<bool>
    var current: Option<nat>

    /** Every controller other than the current one has been aborted. */
    ghost predicate Valid()
      reads this
    {
      (current.Some? ==> current.value < |aborted|)
      && forall i :: 0 <= i < |aborted| && !aborted[i] ==> current == Some(i)
    }

    /** Whether request `i` may still be in flight. */
    predicate Live(i: nat)
      reads this
    {
      i < |aborted| && !aborted[i]
    }

    constructor ()
      ensures Valid() && data == None && loading && error == None && lastUpdate == None
      ensures aborted == [] && current == None
    {
      data, loading, error, lastUpdate := None, true, None, None;
      aborted, current := [], None;
    }

    /** The spinner while loading, then the error panel while an error is held, then the two tables. */
    function View(): (s: Screen)
      reads this
      ensures loading ==> s == LoadingView
      ensures !loading && error.Some? && error.value != "" ==> s == ErrorView(error.value)
      ensures !loading && (error.None? || error.value == "") ==> s == Tables(EInputs(data), EOutputs(data))
    {
      if loading then LoadingView
      else if error.Some? && error.value != "" then ErrorView(error.value)
      else Tables(EInputs(data), EOutputs(data))
    }

    /** Starting a fetch aborts the held controller, if any, and installs a fresh one. */
    method BeginRequest() returns (id: nat)
      requires Valid()
      modifies this`aborted, this`current
      ensures Valid()
      ensures id == |old(aborted)| && current == Some(id) && |aborted| == id + 1 && Live(id)
      ensures forall i :: 0 <= i < id && i != (if old(current).Some? then old(current).value else id) ==>
                aborted[i] == old(aborted)[i]
      ensures old(current).Some? ==> aborted[old(current).value]
      ensures forall i :: Live(i) ==> i == id
    {
      if current.Some? {
        aborted := aborted[current.value := true];
      }
      id := |aborted|;
      aborted := aborted + [false];
      current := Some(id);
    }

    /**
     * The outcome of the request: a good body replaces the data, stamps the time and
     * clears the error; an abort leaves the error as it was; any other failure records
     * `FailureError`. Loading ends either way.
     */
    method SettleRequest(reply: Fetched<Envelope<Option<Record>>>, now: string)
      modifies this`data, this`loading, this`error, this`lastUpdate
      ensures !loading
      ensures reply.Response? && Ok(reply.status) && reply.body.success ==>
                data == reply.body.data && lastUpdate == Some(now) && error == None
      ensures !(reply.Response? && Ok(reply.status) && reply.body.success) ==>
                data == old(data) && lastUpdate == old(lastUpdate)
                && error == (if FailureError(reply).Some? then FailureError(reply) else old(error))
    {
      if reply.Response? && Ok(reply.status) && reply.body.success {
        data := reply.body.data;
        lastUpdate := Some(now);
        error := None;
      } else {
        var failure := FailureError(reply);
        if failure.Some? {
          error := failure;
        }
      }
      loading := false;
    }

    /** `fetchData`: begin a request, then settle it with its reply. */
    method FetchData(reply: Fetched<Envelope<Option<Record>>>, now: string)
      requires Valid()
      modifies this
      ensures Valid() && !loading && |aborted| == |old(aborted)| + 1
      ensures forall i :: Live(i) ==> i == |old(aborted)|
      ensures reply.Response? && Ok(reply.status) && reply.body.success ==>
                data == reply.body.data && lastUpdate == Some(now) && error == None
      ensures !(reply.Response? && Ok(reply.status) && reply.body.success) ==>
                data == old(data) && lastUpdate == old(lastUpdate)
                && error == (if FailureError(reply).Some? then FailureError(reply) else old(error))
    {
      var _ := BeginRequest();
      SettleRequest(reply, now);
    }

    /** "Retry Connection": the spinner again, then a fetch; an abort that ends it keeps the old error on screen. */
    method Retry(reply: Fetched<Envelope<Option<Record>>>, now: string)
      requires Valid()
      modifies this
      ensures Valid() && !loading
      ensures forall i :: Live(i) ==> i == |old(aborted)|
      ensures reply.Response? && Ok(reply.status) && reply.body.success ==>
                View() == Tables(EInputs(reply.body.data), EOutputs(reply.body.data))
      ensures !(reply.Response? && Ok(reply.status) && reply.body.success) && old(error).Some? && old(error).value != "" ==>
                View().ErrorView?
    {
      loading := true;
      FetchData(reply, now);
    }

    /** Unmounting aborts the held controller, so no request is left in flight. */
    method Unmount()
      requires Valid()
      modifies this`aborted
      ensures Valid() && |aborted| == |old(aborted)|
      ensures forall i :: !Live(i)
    {
      if current.Some? {
        aborted := aborted[current.value := true];
      }
    }
  }

  /** In a valid state at most one request is in flight. */
  lemma AtMostOneLive(p: Panel, i: nat, j: nat)
    requires p.Valid() && p.Live(i) && p.Live(j)
    ensures i == j
  {
  }
}
