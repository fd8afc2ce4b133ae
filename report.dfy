/**
 * The report generator: a four-field form, the required-field check, the
 * fetch of one day's readings and FFT data, the per-field averages the
 * printed report shows, and the unit conversions and power-factor status
 * of its template.
 */
module Report {
  import opened JsValues
  import opened Fetch
  import Stats

  datatype FormField = UserName | MachineName | Department | ReportDate

  datatype Form = Form(userName: string, machineName: string, department: string, reportDate: string)

  const EMPTY_FORM: Form := Form("", "", "", "")

  function Get(form: Form, field: FormField): string
  {
    match field
    case UserName => form.userName
    case MachineName => form.machineName
    case Department => form.department
    case ReportDate => form.reportDate
  }

  /** `handleInputChange`: the named field takes the value and every other field keeps its own. */
  function WithField(form: Form, field: FormField, value: string): (r: Form)
    ensures Get(r, field) == value
    ensures forall g :: g != field ==> Get(r, g) == Get(form, g)
  {
    match field
    case UserName => form.(userName := value)
    case MachineName => form.(machineName := value)
    case Department => form.(department := value)
    case ReportDate => form.(reportDate := value)
  }

  /** The check at the head of `generatePDF`: no field may be empty. */
  predicate Filled(form: Form)
  {
    form.userName != "" && form.machineName != "" && form.department != "" && form.reportDate != ""
  }

  lemma FilledIffNoEmptyField(form: Form)
    ensures Filled(form) <==> forall g :: Get(form, g) != ""
  {
    if !Filled(form) {
      if form.userName == "" { assert Get(form, UserName) == ""; }
      else if form.machineName == "" { assert Get(form, MachineName) == ""; }
      else if form.department == "" { assert Get(form, Department) == ""; }
      else { assert Get(form, ReportDate) == ""; }
    }
  }

  const MISSING_FIELDS: string := "Please fill all required fields"
  const NO_DATA: string := "No data available for the selected date"
  const GENERATE_FAILED: string := "Failed to generate report"

  // ---------------------------------------------------------------------
  // calculateAverages
  // ---------------------------------------------------------------------

  /** The 27 readings the report averages, in the order the code lists them. */
  const FIELDS: seq<string> := [
    "rtd1", "rtd2", "rtd3", "rtd4", "tc1", "tc2", "tc3", "tc4",
    "vin1", "vin2", "vin3", "vin4", "Iin1", "Iin2", "Iin3", "Iin4",
    "Em1_Energy", "Em1_power", "Em1_voltage", "Em1_current", "Em1_PF",
    "Em2_Energy", "Em2_power", "Em2_voltage", "Em2_current", "Em2_PF",
    "freq"
  ]

  /** `data.map(item => parseFloat(item[field]) || 0)` */
  function Coerced(rows: seq<Record>, field: string): (s: seq<real>)
    ensures |s| == |rows|
    ensures forall j :: 0 <= j < |rows| ==> s[j] == ParseOrZero(Field(rows[j], field))
  {
    seq(|rows|, j requires 0 <= j < |rows| => ParseOrZero(Field(rows[j], field)))
  }

  /** `calculateAverages`: nothing for absent or empty data, otherwise one entry per listed field. */
  function CalculateAverages(data: Option<seq<Record>>): (r: map<string, real>)
    ensures (data.None? || data.value == []) ==> r == map[]
    ensures data.Some? && data.value != [] ==> r.Keys == set f | f in FIELDS
  {
    if data.None? || data.value == [] then map[]
    else map f | f in FIELDS :: Stats.Mean(Coerced(data.value, f))
  }

  /** Each field's average lies between the least and the greatest of its coerced readings. */
  lemma AverageWithinReadings(rows: seq<Record>, f: string)
    requires rows != [] && f in FIELDS
    ensures f in CalculateAverages(Some(rows))
    ensures Stats.MinOf(Coerced(rows, f)) <= CalculateAverages(Some(rows))[f] <= Stats.MaxOf(Coerced(rows, f))
  {
    Stats.MeanBetweenMinMax(Coerced(rows, f));
  }

  /** A field no row can parse averages to 0, because each unparsable value counts as 0. */
  lemma UnparsableFieldAveragesZero(rows: seq<Record>, f: string)
    requires rows != [] && f in FIELDS
    requires forall j :: 0 <= j < |rows| ==> ParseFloat(Field(rows[j], f)).None?
    ensures f in CalculateAverages(Some(rows)) && CalculateAverages(Some(rows))[f] == 0.0
  {
    Stats.MeanOfConstant(Coerced(rows, f), 0.0);
  }

  /** A field every row reports as the same number averages to that number. */
  lemma ConstantFieldAveragesToIt(rows: seq<Record>, f: string, c: real)
    requires rows != [] && f in FIELDS
    requires forall j :: 0 <= j < |rows| ==> Field(rows[j], f) == Some(JNum(c))
    ensures f in CalculateAverages(Some(rows)) && CalculateAverages(Some(rows))[f] == c
  {
    Stats.MeanOfConstant(Coerced(rows, f), c);
  }

  // ---------------------------------------------------------------------
  // The template's conversions and the power-factor status
  // ---------------------------------------------------------------------

  /** W to kW and Wh to kWh. */
  function PerThousand(x: real): (r: real)
    ensures r * 1000.0 == x
  {
    x / 1000.0
  }

  /** The shaft speed in RPM of a frequency in Hz. */
  function Rpm(freq: real): (r: real)
    ensures r / 60.0 == freq
  {
    freq * 60.0
  }

  datatype PfStatus = Normal | Warning | Critical

  /** The indicator beside a power factor: normal above 0.8, warning above 0.6, critical otherwise. */
  function PowerFactorStatus(pf: real): (s: PfStatus)
    ensures s == Normal <==> pf > 0.8
    ensures s == Warning <==> 0.6 < pf <= 0.8
    ensures s == Critical <==> pf <= 0.6
  {
    if pf > 0.8 then Normal else if pf > 0.6 then Warning else Critical
  }

  /** What the printed report shows for one energy meter. */
  datatype MeterFigures = MeterFigures(kW: real, kWh: real, pf: PfStatus)

  /** The figures of one meter from its power, energy and power-factor averages. */
  function Meter(power: real, energy: real, pf: real): (m: MeterFigures)
    ensures m.kW * 1000.0 == power && m.kWh * 1000.0 == energy
    ensures m.pf == PowerFactorStatus(pf)
  {
    MeterFigures(PerThousand(power), PerThousand(energy), PowerFactorStatus(pf))
  }

  /** Every average the template reads is present once the data is non-empty. */
  lemma TemplateFieldsPresent(rows: seq<Record>)
    requires rows != []
    ensures var r := CalculateAverages(Some(rows));
            "Em1_power" in r && "Em1_Energy" in r && "Em1_PF" in r
            && "Em2_power" in r && "Em2_Energy" in r && "Em2_PF" in r && "freq" in r
  {
    assert FIELDS[16] == "Em1_Energy" && FIELDS[17] == "Em1_power" && FIELDS[20] == "Em1_PF";
    assert FIELDS[21] == "Em2_Energy" && FIELDS[22] == "Em2_power" && FIELDS[25] == "Em2_PF";
    assert FIELDS[26] == "freq";
  }

  /** The figures of a generated report. */
  datatype Printed = Printed(averages: map<string, real>, spindle: MeterFigures, machine: MeterFigures, rpm: real)

  /** The report body built from a non-empty day of readings. */
  function PrintedOf(rows: seq<Record>): (p: Printed)
    requires rows != []
    ensures p.averages == CalculateAverages(Some(rows))
    ensures "Em1_power" in p.averages && "Em1_Energy" in p.averages && "Em1_PF" in p.averages
    ensures "Em2_power" in p.averages && "Em2_Energy" in p.averages && "Em2_PF" in p.averages
    ensures "freq" in p.averages
    ensures p.spindle == Meter(p.averages["Em1_power"], p.averages["Em1_Energy"], p.averages["Em1_PF"])
    ensures p.machine == Meter(p.averages["Em2_power"], p.averages["Em2_Energy"], p.averages["Em2_PF"])
    ensures p.rpm / 60.0 == p.averages["freq"]
  {
    var a := CalculateAverages(Some(rows));
    TemplateFieldsPresent(rows);
    Printed(a, Meter(a["Em1_power"], a["Em1_Energy"], a["Em1_PF"]),
            Meter(a["Em2_power"], a["Em2_Energy"], a["Em2_PF"]), Rpm(a["freq"]))
  }

  /** The FFT endpoint's body as the report uses it: only `success` and `data` matter. */
  type FftReply<D> = Envelope<D>

  /**
   * The message `fetchData` throws, or `None` when it returns a non-empty day: either
   * request's exception, in request order, and then an absent or empty day.
   */
  function FetchError<D>(temp: Fetched<Option<seq<Record>>>, fft: Fetched<FftReply<D>>): (m: Option<string>)
    ensures m.None? <==> temp.Response? && fft.Response? && temp.body.Some? && temp.body.value != []
    ensures temp.Failed? ==> m == Some(temp.message)
    ensures temp.Response? && fft.Failed? ==> m == Some(fft.message)
    ensures temp.Response? && fft.Response? && (temp.body.None? || temp.body.value == []) ==> m == Some(NO_DATA)
  {
    if temp.Failed? then Some(temp.message)
    else if fft.Failed? then Some(fft.message)
    else if temp.body.None? || temp.body.value == [] then Some(NO_DATA)
    else None
  }

  /** `err.message || 'Failed to generate report'`: the error shown is never empty. */
  function ReportError(message: string): (e: string)
    ensures e != ""
    ensures message != "" ==> e == message
  {
    if message == "" then GENERATE_FAILED else message
  }

  /** The screen's state. */
  class Generator<D> {
    var form: Form
    var isGenerating: bool
    var apiData: Option<seq<Record>>
    var fftData: Option<D>
    var error: string

    constructor ()
      ensures form == EMPTY_FORM && !isGenerating && apiData == None && fftData == None && error == ""
    {
      form := EMPTY_FORM;
      isGenerating := false;
      apiData := None;
      fftData := None;
      error := "";
    }

    /** `handleInputChange` */
    method HandleInputChange(field: FormField, value: string)
      modifies this`form
      ensures form == WithField(old(form), field, value)
    {
      form := WithField(form, field, value);
    }

    /**
     * `generatePDF` up to the print window. A missing field stops it before any fetch;
     * otherwise a failed fetch leaves the data as it was and shows its error, and a
     * non-empty day is stored and yields the report's figures. Either way generating ends.
     */
    method GeneratePDF(temp: Fetched<Option<seq<Record>>>, fft: Fetched<FftReply<D>>)
      returns (printed: Option<Printed>)
      modifies this`isGenerating, this`apiData, this`fftData, this`error
      ensures !Filled(form) ==>
                printed == None && error == MISSING_FIELDS && isGenerating == old(isGenerating)
                && apiData == old(apiData) && fftData == old(fftData)
      ensures Filled(form) ==> !isGenerating
      ensures Filled(form) && temp.Response? && fft.Response? && (temp.body.None? || temp.body.value == []) ==>
                printed == None && error == NO_DATA
      ensures Filled(form) && FetchError(temp, fft).Some? ==>
                printed == None && error == ReportError(FetchError(temp, fft).value)
                && apiData == old(apiData) && fftData == old(fftData)
      ensures Filled(form) && FetchError(temp, fft).None? ==>
                printed == Some(PrintedOf(temp.body.value)) && error == ""
                && apiData == temp.body
                && fftData == (if fft.body.success then Some(fft.body.data) else old(fftData))
    {
      if !Filled(form) {
        error := MISSING_FIELDS;
        return None;
      }
      isGenerating := true;
      error := "";
      printed := None;
      var thrown := FetchError(temp, fft);
      if thrown.Some? {
        // fetchData records the message and rethrows; generatePDF records it again.
        error := thrown.value;
        error := ReportError(thrown.value);
      } else {
        apiData := temp.body;
        if fft.body.success {
          fftData := Some(fft.body.data);
        }
        printed := Some(PrintedOf(temp.body.value));
      }
      isGenerating := false;
    }
  }
}
