/**
 * The vibration screen: the three acceleration axes, the frequency and the
 * shaft speed from the live reply; the FFT spectrum, fetched either live
 * (every two seconds) or for a chosen date; the switching between those two
 * modes; and the width of each metric card's bar.
 */
module Vibration {
  import opened JsValues
  import opened Fetch

  /** The live figures the metric cards show. */
  datatype Reading = Reading(xg: real, yg: real, zg: real, freq: real, rpm: real)

  const ZERO_READING: Reading := Reading(0.0, 0.0, 0.0, 0.0, 0.0)

  /** The figures of a successful reply: each through `parseFloat(...) || 0`, the speed from the frequency. */
  function ReadVibration(data: Record): (r: Reading)
    ensures r.xg == ParseOrZero(Field(data, "xg")) && r.yg == ParseOrZero(Field(data, "yg"))
    ensures r.zg == ParseOrZero(Field(data, "zg")) && r.freq == ParseOrZero(Field(data, "freq"))
    ensures r.rpm == 60.0 * r.freq
  {
    var freq := ParseOrZero(Field(data, "freq"));
    Reading(ParseOrZero(Field(data, "xg")), ParseOrZero(Field(data, "yg")),
            ParseOrZero(Field(data, "zg")), freq, freq * 60.0)
  }

  /** An unreadable frequency reads as 0 Hz and so as 0 RPM. */
  lemma UnreadableFrequencyStopsShaft(data: Record)
    requires ParseFloat(Field(data, "freq")).None?
    ensures ReadVibration(data).freq == 0.0 && ReadVibration(data).rpm == 0.0
  {
  }

  const FFT_ENDPOINT: string := "https://cmti-edge.online/mtcm/Backend/VibrationFFT.php"
  const DATE_QUERY: string := "?date="
  const REALTIME_QUERY: string := "?realtime=1"

  /** The FFT request: a date asks for that day, no date (or an empty one) for the live spectrum. */
  function FftUrl(date: string): (url: string)
    ensures StartsWith(url, FFT_ENDPOINT)
    ensures date != "" ==> url[|FFT_ENDPOINT|..] == DATE_QUERY + date
    ensures date == "" ==> url[|FFT_ENDPOINT|..] == REALTIME_QUERY
    ensures |url| > |FFT_ENDPOINT| + 1 && (url[|FFT_ENDPOINT| + 1] == 'd' <==> date != "")
  {
    if date != "" then FFT_ENDPOINT + DATE_QUERY + date else FFT_ENDPOINT + REALTIME_QUERY
  }

  /** The request names the date it was made for: distinct dates, and the live mode, never share a URL. */
  lemma FftUrlInjective(d1: string, d2: string)
    requires FftUrl(d1) == FftUrl(d2)
    ensures d1 == d2
  {
    var q1, q2 := FftUrl(d1)[|FFT_ENDPOINT|..], FftUrl(d2)[|FFT_ENDPOINT|..];
    if d1 != "" && d2 != "" {
      assert q1[|DATE_QUERY|..] == d1 && q2[|DATE_QUERY|..] == d2;
    }
  }

  /**
   * The spectrum as the endpoint sends it; either axis may be missing, and a reply's
   * spectrum may itself be null (`None` in the reply's data).
   */
  datatype Spectrum = Spectrum(x: Option<seq<real>>, y: Option<seq<real>>)

  /** The plotted trace of `updatePlot`: a missing axis is drawn as an empty one. */
  function Trace(data: Spectrum): (t: (seq<real>, seq<real>))
    ensures data.x.Some? ==> t.0 == data.x.value
    ensures data.x.None? ==> t.0 == []
    ensures data.y.Some? ==> t.1 == data.y.value
    ensures data.y.None? ==> t.1 == []
  {
    (if data.x.Some? then data.x.value else [], if data.y.Some? then data.y.value else [])
  }

  /** `Math.min(Math.abs(value) * 10, 100)`: a percentage, full from 10 units on. */
  function BarWidth(v: real): (w: real)
    ensures 0.0 <= w <= 100.0
    ensures w == 100.0 <==> (v >= 10.0 || v <= -10.0)
    ensures -10.0 < v < 10.0 ==> w == 10.0 * (if v >= 0.0 then v else -v)
  {
    var scaled := (if v >= 0.0 then v else -v) * 10.0;
    if scaled < 100.0 then scaled else 100.0
  }

  /** Opposite values draw the same bar, and a larger magnitude never draws a shorter one. */
  lemma BarWidthSymmetricMonotone(v: real, u: real)
    requires 0.0 <= v <= u
    ensures BarWidth(-v) == BarWidth(v)
    ensures BarWidth(v) <= BarWidth(u)
  {
  }

  const VIBRATION_FAILED: string := "Failed to fetch vibration data"
  const NO_FFT: string := "No FFT data available"

  /** The message a failed FFT fetch shows: the endpoint's own error, or a fixed one when it gives none. */
  function FftError(reply: Fetched<Envelope<Option<Spectrum>>>): (m: string)
    requires !(reply.Response? && reply.body.success)
    ensures reply.Failed? ==> m == reply.message
    ensures reply.Response? && reply.body.error != "" ==> m == reply.body.error
    ensures reply.Response? && reply.body.error == "" ==> m == NO_FFT
  {
    if reply.Failed? then reply.message
    else if reply.body.error != "" then reply.body.error
    else NO_FFT
  }

  /** The screen's state; `timerRunning` says whether the two-second FFT poll is scheduled. */
  class Screen {
    var reading: Reading
    var fftData: Option<Spectrum>
    var selectedDate: string
    var isRealtime: bool
    var loading: bool
    var error: string
    var lastUpdate: string
    var isConnected: bool
    var timerRunning: bool

    /** The live spectrum is always polled exactly in realtime mode, and realtime mode has no date. */
    ghost predicate Valid()
      reads this
    {
      timerRunning == isRealtime && (isRealtime ==> selectedDate == "")
    }

    /**
     * What an FFT fetch leaves behind, given the spectrum and update time it started from:
     * a successful reply replaces the spectrum (with nothing, when its data is null, which
     * the plot then skips), stamps the time and clears the error;
     * anything else keeps both and shows `FftError`. Loading has ended either way.
     */
    predicate FftSettled(reply: Fetched<Envelope<Option<Spectrum>>>, now: string, prevData: Option<Spectrum>, prevUpdate: string)
      reads this
    {
      !loading &&
      if reply.Response? && reply.body.success then
        fftData == reply.body.data && lastUpdate == now && error == ""
      else
        fftData == prevData && lastUpdate == prevUpdate && error == FftError(reply)
    }

    /**
     * The first render, after the realtime effect has fetched the live spectrum (from the
     * initial empty state) and scheduled the poll.
     */
    constructor (live: Fetched<Envelope<Option<Spectrum>>>, now: string)
      ensures Valid() && isRealtime && selectedDate == "" && !isConnected
      ensures reading == ZERO_READING
      ensures FftSettled(live, now, None, "")
    {
      reading, fftData, selectedDate, isRealtime := ZERO_READING, None, "", true;
      loading, error, lastUpdate, isConnected := false, "", "", false;
      new;
      var _ := FetchFFTData("", live, now);
      timerRunning := true;
    }

    /**
     * `fetchVibrationData`: a successful reply with data updates the figures, marks the
     * screen connected and clears the error; anything else shows the fixed message and
     * marks it disconnected.
     */
    method FetchVibrationData(reply: Fetched<Envelope<Option<Record>>>)
      modifies this`reading, this`isConnected, this`error
      ensures reply.Response? && reply.body.success && reply.body.data.Some? ==>
                reading == ReadVibration(reply.body.data.value) && isConnected && error == ""
      ensures !(reply.Response? && reply.body.success && reply.body.data.Some?) ==>
                reading == old(reading) && !isConnected && error == VIBRATION_FAILED
    {
      if reply.Response? && reply.body.success && reply.body.data.Some? {
        reading := ReadVibration(reply.body.data.value);
        isConnected := true;
        error := "";
      } else {
        error := VIBRATION_FAILED;
        isConnected := false;
      }
    }

    /**
     * `fetchFFTData(date)`: requests `FftUrl(date)`; a successful reply replaces the
     * spectrum, stamps the time and clears the error, anything else shows `FftError`.
     * Loading ends either way.
     */
    method FetchFFTData(date: string, reply: Fetched<Envelope<Option<Spectrum>>>, now: string) returns (url: string)
      modifies this`fftData, this`loading, this`error, this`lastUpdate
      ensures url == FftUrl(date)
      ensures FftSettled(reply, now, old(fftData), old(lastUpdate))
    {
      loading := true;
      url := FftUrl(date);
      if reply.Response? && reply.body.success {
        fftData := reply.body.data;
        lastUpdate := now;
        error := "";
      } else {
        error := FftError(reply);
      }
      loading := false;
    }

    /**
     * `handleDateChange`: a date switches to historical mode (stopping the poll) and fetches
     * that day; an empty date switches back to realtime, which fetches the live spectrum and
     * restarts the poll unless the screen was already live. Returns the URL requested, if any.
     */
    method HandleDateChange(date: string, reply: Fetched<Envelope<Option<Spectrum>>>, now: string)
      returns (requested: Option<string>)
      requires Valid()
      modifies this`selectedDate, this`isRealtime, this`timerRunning,
               this`fftData, this`loading, this`error, this`lastUpdate
      ensures Valid()
      ensures selectedDate == date && (isRealtime <==> date == "")
      ensures date != "" ==> requested == Some(FftUrl(date))
      ensures date == "" && old(isRealtime) ==> requested == None
      ensures date == "" && !old(isRealtime) ==> requested == Some(FftUrl(""))
      ensures requested.Some? ==> FftSettled(reply, now, old(fftData), old(lastUpdate))
      ensures requested.None? ==>
                fftData == old(fftData) && error == old(error) && lastUpdate == old(lastUpdate) && loading == old(loading)
    {
      var wasRealtime := isRealtime;
      selectedDate := date;
      requested := None;
      if date != "" {
        isRealtime := false;
        var url := FetchFFTData(date, reply, now);
        requested := Some(url);
        if wasRealtime {
          timerRunning := false;
        }
      } else {
        isRealtime := true;
        if !wasRealtime {
          var url := FetchFFTData("", reply, now);
          requested := Some(url);
          timerRunning := true;
        }
      }
    }

    /**
     * `toggleRealtime`: from realtime it stops the poll; otherwise it clears the date, goes
     * live, fetches the live spectrum and restarts the poll.
     */
    method ToggleRealtime(reply: Fetched<Envelope<Option<Spectrum>>>, now: string) returns (requested: Option<string>)
      requires Valid()
      modifies this`selectedDate, this`isRealtime, this`timerRunning,
               this`fftData, this`loading, this`error, this`lastUpdate
      ensures Valid()
      ensures isRealtime == !old(isRealtime)
      ensures old(isRealtime) ==> requested == None && selectedDate == old(selectedDate)
      ensures !old(isRealtime) ==> selectedDate == "" && requested == Some(FftUrl(""))
      ensures requested.Some? ==> FftSettled(reply, now, old(fftData), old(lastUpdate))
      ensures requested.None? ==>
                fftData == old(fftData) && error == old(error) && lastUpdate == old(lastUpdate) && loading == old(loading)
    {
      requested := None;
      if isRealtime {
        isRealtime := false;
        timerRunning := false;
      } else {
        isRealtime := true;
        selectedDate := "";
        var url := FetchFFTData("", reply, now);
        requested := Some(url);
        timerRunning := true;
      }
    }

    /** One tick of the two-second poll, which runs only in realtime mode: it asks for the live spectrum. */
    method PollTick(reply: Fetched<Envelope<Option<Spectrum>>>, now: string) returns (url: string)
      requires Valid() && timerRunning
      modifies this`fftData, this`loading, this`error, this`lastUpdate
      ensures Valid() && isRealtime
      ensures url == FftUrl("") == FftUrl(selectedDate)
      ensures FftSettled(reply, now, old(fftData), old(lastUpdate))
    {
      url := FetchFFTData("", reply, now);
    }
  }
}
