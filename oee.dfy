/**
 * The OEE (Overall Equipment Effectiveness) calculator screen: availability,
 * performance and quality from four shift inputs and three plant constants,
 * their product, the status band, the loss analysis, the improvement
 * recommendations and the seven-day history whose last day is today.
 */
module OEE {
  import opened JsValues
  import Stats

  /** Minutes in a regular shift. */
  const PRODUCTION_TIME: real := 480.0
  /** Minutes of planned break in every shift. */
  const BREAKTIME: real := 60.0
  /** Parts the machine can make per minute. */
  const MACHINE_CAPABILITY: real := 60.0

  /** The four form fields, each already read through `parseFloat(value || 0)`. */
  datatype Inputs = Inputs(overtimeMins: real, otherBreaktimeMins: real,
                           totalPartsProduced: real, scrapPartsProduced: real)

  datatype InputField = OvertimeMins | OtherBreaktimeMins | TotalPartsProduced | ScrapPartsProduced

  /** What the calculator stores: percentages to one decimal, minutes and parts to whole numbers. */
  datatype Results = Results(availability: real, performance: real, quality: real, oee: real,
                             availableTime: int, goodParts: int, theoreticalParts: int,
                             scheduledTime: int, totalBreaktime: int)

  /** One day of the history chart. */
  datatype Day = Day(date: string, oee: real, availability: real, performance: real, quality: real)

  /** `parseFloat(value || 0)` of what the number input holds; an empty field reads as 0. */
  function InputValue(v: Json): (r: Option<real>)
    ensures Falsy(Some(v)) ==> r == Some(0.0)
    ensures v.JNum? ==> r == Some(v.n)
    ensures !Falsy(Some(v)) ==> r == ParseFloat(Some(v))
  {
    ParseFloat(Some(OrDefault(Some(v), JNum(0.0))))
  }

  // ---------------------------------------------------------------------
  // The unrounded quantities of calculateOEE
  // ---------------------------------------------------------------------

  function TotalBreaktime(i: Inputs): real { BREAKTIME + i.otherBreaktimeMins }

  function ScheduledTime(i: Inputs): real { PRODUCTION_TIME + i.overtimeMins }

  function AvailableTime(i: Inputs): real { ScheduledTime(i) - TotalBreaktime(i) }

  function TheoreticalParts(i: Inputs): real { AvailableTime(i) * MACHINE_CAPABILITY }

  function GoodParts(i: Inputs): real { i.totalPartsProduced - i.scrapPartsProduced }

  /** Available time as a percentage of scheduled time; 0 when nothing is scheduled. */
  function Availability(i: Inputs): real
  {
    if ScheduledTime(i) > 0.0 then AvailableTime(i) / ScheduledTime(i) * 100.0 else 0.0
  }

  /** Parts made as a percentage of what the available time allows; 0 when it allows none. */
  function Performance(i: Inputs): real
  {
    if TheoreticalParts(i) > 0.0 then i.totalPartsProduced / TheoreticalParts(i) * 100.0 else 0.0
  }

  /** Good parts as a percentage of parts made; 0 when none were made. */
  function Quality(i: Inputs): real
  {
    if i.totalPartsProduced > 0.0 then GoodParts(i) / i.totalPartsProduced * 100.0 else 0.0
  }

  /** The product of three percentages, itself a percentage. */
  function OeeOf(availability: real, performance: real, quality: real): real
  {
    availability * performance * quality / 10000.0
  }

  /** `calculateOEE`: every stored percentage is within 0.05 of the exact one, every count within 0.5. */
  function CalculateOEE(i: Inputs): (r: Results)
    ensures Availability(i) - 0.05 < r.availability <= Availability(i) + 0.05
    ensures Performance(i) - 0.05 < r.performance <= Performance(i) + 0.05
    ensures Quality(i) - 0.05 < r.quality <= Quality(i) + 0.05
    ensures OeeOf(Availability(i), Performance(i), Quality(i)) - 0.05 < r.oee
            <= OeeOf(Availability(i), Performance(i), Quality(i)) + 0.05
    ensures InTenths(r.availability) && InTenths(r.performance) && InTenths(r.quality) && InTenths(r.oee)
    ensures AvailableTime(i) - 0.5 < r.availableTime as real <= AvailableTime(i) + 0.5
    ensures ScheduledTime(i) - 0.5 < r.scheduledTime as real <= ScheduledTime(i) + 0.5
    ensures GoodParts(i) - 0.5 < r.goodParts as real <= GoodParts(i) + 0.5
    ensures TheoreticalParts(i) - 0.5 < r.theoreticalParts as real <= TheoreticalParts(i) + 0.5
    ensures TotalBreaktime(i) - 0.5 < r.totalBreaktime as real <= TotalBreaktime(i) + 0.5
  {
    var a, p, q := Availability(i), Performance(i), Quality(i);
    Results(Round1(a), Round1(p), Round1(q), Round1(OeeOf(a, p, q)),
            Round(AvailableTime(i)), Round(GoodParts(i)), Round(TheoreticalParts(i)),
            Round(ScheduledTime(i)), Round(TotalBreaktime(i)))
  }

  /** The value of one form field. */
  function InputOf(i: Inputs, field: InputField): real
  {
    match field
    case OvertimeMins => i.overtimeMins
    case OtherBreaktimeMins => i.otherBreaktimeMins
    case TotalPartsProduced => i.totalPartsProduced
    case ScrapPartsProduced => i.scrapPartsProduced
  }

  /** `handleInputChange`: only the named field changes. */
  function WithInput(i: Inputs, field: InputField, value: real): (r: Inputs)
    ensures forall f :: InputOf(r, f) == if f == field then value else InputOf(i, f)
  {
    match field
    case OvertimeMins => i.(overtimeMins := value)
    case OtherBreaktimeMins => i.(otherBreaktimeMins := value)
    case TotalPartsProduced => i.(totalPartsProduced := value)
    case ScrapPartsProduced => i.(scrapPartsProduced := value)
  }

  // ---------------------------------------------------------------------
  // Properties of the formulas
  // ---------------------------------------------------------------------

  /** A regular shift with no overtime and no extra break that makes 25200 good parts scores 87.5. */
  lemma ReferenceShift()
    ensures CalculateOEE(Inputs(0.0, 0.0, 25200.0, 0.0))
         == Results(87.5, 100.0, 100.0, 87.5, 420, 25200, 25200, 480, 60)
  {
    var i := Inputs(0.0, 0.0, 25200.0, 0.0);
    assert Availability(i) == 87.5;
    assert Performance(i) == 100.0;
    assert Quality(i) == 100.0;
    assert OeeOf(87.5, 100.0, 100.0) == 87.5;
  }

  /** With a scheduled shift and a non-negative break that fits in it, availability is a percentage. */
  lemma AvailabilityIsPercentage(i: Inputs)
    requires ScheduledTime(i) > 0.0 && i.otherBreaktimeMins >= 0.0 && AvailableTime(i) >= 0.0
    ensures 0.0 <= Availability(i) < 100.0
  {
    RatioBelowOne(AvailableTime(i), ScheduledTime(i));
  }

  /** A ratio of a non-negative part to a larger whole lies in [0, 1). */
  lemma RatioBelowOne(part: real, whole: real)
    requires 0.0 <= part < whole
    ensures 0.0 <= part / whole < 1.0
  {
    RatioVsOne(part, whole);
  }

  /** A ratio of a non-negative part to a whole at least as large lies in [0, 1]. */
  lemma RatioAtMostOne(part: real, whole: real)
    requires 0.0 <= part <= whole && whole > 0.0
    ensures 0.0 <= part / whole <= 1.0
  {
    RatioVsOne(part, whole);
  }

  /** Scrap between none and everything made keeps quality a percentage; no scrap is 100 percent. */
  lemma QualityIsPercentage(i: Inputs)
    requires 0.0 <= i.scrapPartsProduced <= i.totalPartsProduced
    ensures 0.0 <= Quality(i) <= 100.0
    ensures i.totalPartsProduced > 0.0 ==> (Quality(i) == 100.0 <==> i.scrapPartsProduced == 0.0)
  {
    var t, g := i.totalPartsProduced, GoodParts(i);
    if t > 0.0 {
      RatioAtMostOne(g, t);
      var d := g / t;
      assert d * t == g;
      if d == 1.0 { assert g == t; }
    }
  }

  /** Performance exceeds 100 percent exactly when more parts were made than the machine's rate allows. */
  lemma PerformanceAboveFull(i: Inputs)
    requires TheoreticalParts(i) > 0.0
    ensures Performance(i) > 100.0 <==> i.totalPartsProduced > TheoreticalParts(i)
    ensures Performance(i) == 100.0 <==> i.totalPartsProduced == TheoreticalParts(i)
  {
    RatioVsOne(i.totalPartsProduced, TheoreticalParts(i));
  }

  /** A quotient by a positive number compares with 1 as the dividend compares with the divisor. */
  lemma RatioVsOne(x: real, y: real)
    requires y > 0.0
    ensures x / y > 1.0 <==> x > y
    ensures x / y == 1.0 <==> x == y
    ensures x / y < 0.0 <==> x < 0.0
  {
    var d := x / y;
    assert d * y == x;
    if d < 0.0 { assert d * y < 0.0 * y; }
    if d > 0.0 { assert d * y > 0.0 * y; }
    if d > 1.0 { assert d * y > 1.0 * y; }
    if d < 1.0 { assert d * y < 1.0 * y; }
  }

  /** Three percentages multiply to a percentage no larger than any of them. */
  lemma OeeBounded(a: real, p: real, q: real)
    requires 0.0 <= a <= 100.0 && 0.0 <= p <= 100.0 && 0.0 <= q <= 100.0
    ensures 0.0 <= OeeOf(a, p, q) <= a && OeeOf(a, p, q) <= p && OeeOf(a, p, q) <= q
  {
    ProductBelowLast(a, p, q);
    ProductBelowLast(a, q, p);
    ProductBelowLast(p, q, a);
    assert a * p * q == a * q * p == p * q * a;
  }

  /** The product of three percentages is at most 10000 times the last of them. */
  lemma ProductBelowLast(x: real, y: real, z: real)
    requires 0.0 <= x <= 100.0 && 0.0 <= y <= 100.0 && 0.0 <= z <= 100.0
    ensures 0.0 <= x * y * z <= 10000.0 * z
  {
    MulMono(x, 100.0, y);
    MulMono(y, 100.0, 100.0);
    assert x * y <= 100.0 * y <= 10000.0;
    MulMono(x * y, 10000.0, z);
    assert 0.0 <= x * y;
  }

  lemma MulMono(x: real, y: real, c: real)
    requires x <= y && c >= 0.0
    ensures x * c <= y * c && c * x <= c * y
  {
  }

  /** At full speed and with no scrap, OEE is availability alone. */
  lemma IdealRunIsAvailability(i: Inputs)
    requires TheoreticalParts(i) > 0.0
    requires i.totalPartsProduced == TheoreticalParts(i) && i.scrapPartsProduced == 0.0
    ensures Performance(i) == 100.0 && Quality(i) == 100.0
    ensures OeeOf(Availability(i), Performance(i), Quality(i)) == Availability(i)
  {
    assert i.totalPartsProduced / TheoreticalParts(i) == 1.0;
    assert i.totalPartsProduced > 0.0;
    assert GoodParts(i) / i.totalPartsProduced == 1.0;
  }

  // ---------------------------------------------------------------------
  // Status, loss analysis and recommendations
  // ---------------------------------------------------------------------

  datatype Status = Excellent | Good | Fair | Poor

  /** `getOEEStatus`: four bands at 85, 70 and 60 that cover every value exactly once. */
  function GetOEEStatus(oee: real): (s: Status)
    ensures s == Excellent <==> oee >= 85.0
    ensures s == Good <==> 70.0 <= oee < 85.0
    ensures s == Fair <==> 60.0 <= oee < 70.0
    ensures s == Poor <==> oee < 60.0
  {
    if oee >= 85.0 then Excellent
    else if oee >= 70.0 then Good
    else if oee >= 60.0 then Fair
    else Poor
  }

  function StatusRank(s: Status): nat
  {
    match s
    case Poor => 0
    case Fair => 1
    case Good => 2
    case Excellent => 3
  }

  /** A higher OEE never lands in a lower band. */
  lemma StatusMonotone(x: real, y: real)
    requires x <= y
    ensures StatusRank(GetOEEStatus(x)) <= StatusRank(GetOEEStatus(y))
  {
  }

  /** The status word the loss-analysis panel prints. */
  function LossPanelStatus(oee: real): (w: string)
    ensures w == "World Class" <==> oee >= 85.0
    ensures w == "Good" <==> 70.0 <= oee < 85.0
    ensures w == "Fair" <==> 60.0 <= oee < 70.0
    ensures w == "Poor" <==> oee < 60.0
  {
    if oee >= 85.0 then "World Class"
    else if oee >= 70.0 then "Good"
    else if oee >= 60.0 then "Fair"
    else "Poor"
  }

  /** The word the headline badge prints for a band. */
  function StatusLabel(s: Status): string
  {
    match s
    case Excellent => "Excellent"
    case Good => "Good"
    case Fair => "Fair"
    case Poor => "Poor"
  }

  /** The two panels always agree on the band; they differ only in naming the top one. */
  lemma PanelsAgree(oee: real)
    ensures GetOEEStatus(oee) == Excellent <==> LossPanelStatus(oee) == "World Class"
    ensures GetOEEStatus(oee) != Excellent ==> LossPanelStatus(oee) == StatusLabel(GetOEEStatus(oee))
  {
  }

  datatype Category = AvailabilityLoss | PerformanceLoss | QualityLoss

  datatype LossKind =
    | EquipmentFailure | SetupAndAdjustments
    | ReducedSpeed | IdlingAndMinorStops
    | ProcessDefects | ReducedYield

  function CategoryOf(k: LossKind): Category
  {
    match k
    case EquipmentFailure | SetupAndAdjustments => AvailabilityLoss
    case ReducedSpeed | IdlingAndMinorStops => PerformanceLoss
    case ProcessDefects | ReducedYield => QualityLoss
  }

  function CategoryRank(c: Category): nat
  {
    match c
    case AvailabilityLoss => 0
    case PerformanceLoss => 1
    case QualityLoss => 2
  }

  /** The share of the loss, low and high, that a kind's percentage range quotes. */
  function RangeFactors(k: LossKind): (real, real)
  {
    match k
    case EquipmentFailure => (0.6, 0.8)
    case SetupAndAdjustments => (0.7, 0.9)
    case ReducedSpeed => (0.5, 0.7)
    case IdlingAndMinorStops => (0.6, 0.8)
    case ProcessDefects => (0.7, 0.9)
    case ReducedYield => (0.5, 0.7)
  }

  /** One identified loss: its kind and the quoted range `low-high%`. */
  datatype Loss = Loss(kind: LossKind, low: int, high: int)

  /** A loss of `lossPercent` points of the given kind, its range rounded as `Math.round` does. */
  function MakeLoss(k: LossKind, lossPercent: real): (l: Loss)
    requires lossPercent >= 0.0
    ensures l.kind == k && 0 <= l.low <= l.high
    ensures lossPercent * RangeFactors(k).0 - 0.5 < l.low as real <= lossPercent * RangeFactors(k).0 + 0.5
    ensures lossPercent * RangeFactors(k).1 - 0.5 < l.high as real <= lossPercent * RangeFactors(k).1 + 0.5
  {
    var (lo, hi) := RangeFactors(k);
    RoundMonotone(lossPercent * lo, lossPercent * hi);
    Loss(k, Round(lossPercent * lo), Round(lossPercent * hi))
  }

  /**
   * One metric's entry: none at or above `target`, otherwise `severe` when the loss
   * exceeds `split` points and `mild` when it does not.
   */
  function MetricLoss(value: real, target: real, split: real, severe: LossKind, mild: LossKind): seq<Loss>
    requires target <= 100.0
  {
    if value < target then
      var lossPercent := 100.0 - value;
      [MakeLoss(if lossPercent > split then severe else mild, lossPercent)]
    else []
  }

  /** `getMajorLosses`: one entry for each metric that misses its target. */
  function MajorLosses(availability: real, performance: real, quality: real): (losses: seq<Loss>)
    ensures |losses| == (if availability < 85.0 then 1 else 0) + (if performance < 85.0 then 1 else 0)
                        + (if quality < 95.0 then 1 else 0)
  {
    MetricLoss(availability, 85.0, 10.0, EquipmentFailure, SetupAndAdjustments)
    + MetricLoss(performance, 85.0, 15.0, ReducedSpeed, IdlingAndMinorStops)
    + MetricLoss(quality, 95.0, 8.0, ProcessDefects, ReducedYield)
  }

  predicate HasCategory(losses: seq<Loss>, c: Category)
  {
    exists j :: 0 <= j < |losses| && CategoryOf(losses[j].kind) == c
  }

  /**
   * The loss list has at most three entries, in the order availability, performance,
   * quality, so no category appears twice; each quoted range runs low to high.
   */
  lemma LossesOnePerCategory(a: real, p: real, q: real)
    ensures |MajorLosses(a, p, q)| <= 3
    ensures forall j, k :: 0 <= j < k < |MajorLosses(a, p, q)| ==>
              CategoryRank(CategoryOf(MajorLosses(a, p, q)[j].kind))
              < CategoryRank(CategoryOf(MajorLosses(a, p, q)[k].kind))
    ensures forall j :: 0 <= j < |MajorLosses(a, p, q)| ==>
              0 <= MajorLosses(a, p, q)[j].low <= MajorLosses(a, p, q)[j].high
  {
  }

  /** Which entries appear, and which kind each category takes. */
  lemma LossesMatchThresholds(a: real, p: real, q: real)
    ensures HasCategory(MajorLosses(a, p, q), AvailabilityLoss) <==> a < 85.0
    ensures HasCategory(MajorLosses(a, p, q), PerformanceLoss) <==> p < 85.0
    ensures HasCategory(MajorLosses(a, p, q), QualityLoss) <==> q < 95.0
    ensures forall l :: l in MajorLosses(a, p, q) ==>
              (l.kind == EquipmentFailure <==> CategoryOf(l.kind) == AvailabilityLoss && 100.0 - a > 10.0)
              && (l.kind == ReducedSpeed <==> CategoryOf(l.kind) == PerformanceLoss && 100.0 - p > 15.0)
              && (l.kind == ProcessDefects <==> CategoryOf(l.kind) == QualityLoss && 100.0 - q > 8.0)
  {
    var la := MetricLoss(a, 85.0, 10.0, EquipmentFailure, SetupAndAdjustments);
    var lp := MetricLoss(p, 85.0, 15.0, ReducedSpeed, IdlingAndMinorStops);
    var lq := MetricLoss(q, 95.0, 8.0, ProcessDefects, ReducedYield);
    var all := MajorLosses(a, p, q);
    assert all == la + lp + lq;
    if a < 85.0 { assert CategoryOf(all[0].kind) == AvailabilityLoss; }
    if p < 85.0 { assert CategoryOf(all[|la|].kind) == PerformanceLoss; }
    if q < 95.0 { assert CategoryOf(all[|la| + |lp|].kind) == QualityLoss; }
  }

  datatype Recommendation = AvailabilityIssue | PerformanceIssue | QualityIssue | ExcellentPerformance

  /** The recommendation cards, in the order the screen lists them. */
  function Recommendations(r: Results): (cards: seq<Recommendation>)
    ensures |cards| <= 4
    ensures forall j, k :: 0 <= j < k < |cards| ==> cards[j] != cards[k]
    ensures ExcellentPerformance in cards ==> cards[|cards| - 1] == ExcellentPerformance
  {
    (if r.availability < 85.0 then [AvailabilityIssue] else [])
    + (if r.performance < 85.0 then [PerformanceIssue] else [])
    + (if r.quality < 95.0 then [QualityIssue] else [])
    + (if r.oee >= 85.0 then [ExcellentPerformance] else [])
  }

  /**
   * The recommendation cards and the loss analysis read the same results the same way:
   * an issue card shows exactly when its category has a loss entry, and the excellence
   * card exactly when the status is Excellent.
   */
  lemma RecommendationsMatchLosses(r: Results)
    ensures AvailabilityIssue in Recommendations(r)
            <==> HasCategory(MajorLosses(r.availability, r.performance, r.quality), AvailabilityLoss)
    ensures PerformanceIssue in Recommendations(r)
            <==> HasCategory(MajorLosses(r.availability, r.performance, r.quality), PerformanceLoss)
    ensures QualityIssue in Recommendations(r)
            <==> HasCategory(MajorLosses(r.availability, r.performance, r.quality), QualityLoss)
    ensures ExcellentPerformance in Recommendations(r) <==> GetOEEStatus(r.oee) == Excellent
  {
    LossesMatchThresholds(r.availability, r.performance, r.quality);
  }

  // ---------------------------------------------------------------------
  // Analytics over the history
  // ---------------------------------------------------------------------

  function OeeSeries(days: seq<Day>): (s: seq<real>)
    ensures |s| == |days| && forall j :: 0 <= j < |days| ==> s[j] == days[j].oee
  {
    seq(|days|, j requires 0 <= j < |days| => days[j].oee)
  }

  /** `avgOEE`: the mean OEE of the history, between its worst and best day. */
  function AvgOEE(days: seq<Day>): (m: real)
    requires |days| > 0
    ensures Stats.MinOf(OeeSeries(days)) <= m <= Stats.MaxOf(OeeSeries(days))
  {
    Stats.MeanBetweenMinMax(OeeSeries(days));
    Stats.Mean(OeeSeries(days))
  }

  /** `trendDirection`: up when today beats the seven-day average, down otherwise (ties included). */
  function TrendUp(r: Results, days: seq<Day>): bool
    requires |days| > 0
  {
    r.oee > AvgOEE(days)
  }

  /** `efficiencyLoss` */
  function EfficiencyLoss(r: Results): real { 100.0 - r.oee }

  /** `productionLoss`: the parts the rounded theoretical count exceeds the parts made by. */
  function ProductionLoss(r: Results, i: Inputs): real
  {
    r.theoreticalParts as real - i.totalPartsProduced
  }

  /**
   * When the available time allows a whole, positive number of parts, the production loss
   * of the stored results is positive exactly when performance is below 100 percent, and
   * zero exactly when it is 100 percent.
   */
  lemma ProductionLossVsPerformance(i: Inputs)
    requires TheoreticalParts(i) > 0.0 && TheoreticalParts(i).Floor as real == TheoreticalParts(i)
    ensures ProductionLoss(CalculateOEE(i), i) > 0.0 <==> Performance(i) < 100.0
    ensures ProductionLoss(CalculateOEE(i), i) == 0.0 <==> Performance(i) == 100.0
  {
    var t := TheoreticalParts(i);
    var n := CalculateOEE(i).theoreticalParts;
    assert t - 0.5 < n as real <= t + 0.5;
    assert n == t.Floor;
    PerformanceAboveFull(i);
  }

  /** A day as the history chart stores it. */
  function DayOf(date: string, r: Results): Day
  {
    Day(date, r.oee, r.availability, r.performance, r.quality)
  }

  /** The date the last history slot always carries. */
  const TODAY: string := "2024-01-07"

  const INITIAL_DAYS: seq<Day> := [
    Day("2024-01-01", 75.0, 85.0, 88.0, 100.0),
    Day("2024-01-02", 68.0, 80.0, 85.0, 100.0),
    Day("2024-01-03", 82.0, 90.0, 91.0, 100.0),
    Day("2024-01-04", 77.0, 85.0, 90.0, 100.0),
    Day("2024-01-05", 73.0, 82.0, 89.0, 100.0),
    Day("2024-01-06", 79.0, 88.0, 90.0, 100.0)
  ]

  const ZERO_RESULTS: Results := Results(0.0, 0.0, 0.0, 0.0, 0, 0, 0, 0, 0)

  /** The calculator's state: the form, the computed results and the seven-day history. */
  class Calculator {
    var inputs: Inputs
    var results: Results
    var history: seq<Day>

    /** The history always has seven days, the first six fixed and the last one today. */
    ghost predicate Valid()
      reads this
    {
      |history| == 7 && history[..6] == INITIAL_DAYS && history[6].date == TODAY
    }

    /**
     * The `useState` values before the first effects run. The mount effects then amount to
     * `Recalculate(); UpdateHistory()`, which put `CalculateOEE` of the zero inputs into
     * `results` and into today's history slot.
     */
    constructor ()
      ensures Valid()
      ensures inputs == Inputs(0.0, 0.0, 0.0, 0.0) && results == ZERO_RESULTS
      ensures history == INITIAL_DAYS + [DayOf(TODAY, ZERO_RESULTS)]
    {
      inputs := Inputs(0.0, 0.0, 0.0, 0.0);
      results := ZERO_RESULTS;
      history := INITIAL_DAYS + [DayOf(TODAY, ZERO_RESULTS)];
    }

    /** `handleInputChange`: the named field takes the value, nothing else changes. */
    method HandleInputChange(field: InputField, value: real)
      modifies this`inputs
      ensures inputs == WithInput(old(inputs), field, value)
    {
      inputs := WithInput(inputs, field, value);
    }

    /** The effect on `inputs`: the results are recomputed from the form. */
    method Recalculate()
      modifies this`results
      ensures results == CalculateOEE(inputs)
    {
      results := CalculateOEE(inputs);
    }

    /**
     * The effect on `results`: the history is copied and its last slot rewritten with
     * today's results; its length and every earlier day are unchanged.
     */
    method UpdateHistory()
      requires Valid()
      modifies this`history
      ensures Valid()
      ensures |history| == |old(history)|
      ensures history[..|history| - 1] == old(history)[..|history| - 1]
      ensures history[|history| - 1] == DayOf(TODAY, results)
    {
      var newData := new Day[|history|](j requires 0 <= j < |history| reads this => history[j]);
      newData[newData.Length - 1] := DayOf(TODAY, results);
      history := newData[..];
    }

    /** Typing into one field: the form changes, the results follow it and today's history slot follows them. */
    method EditInput(field: InputField, value: real)
      requires Valid()
      modifies this
      ensures Valid()
      ensures inputs == WithInput(old(inputs), field, value)
      ensures results == CalculateOEE(inputs)
      ensures history == old(history)[..6] + [DayOf(TODAY, results)]
    {
      HandleInputChange(field, value);
      Recalculate();
      UpdateHistory();
    }
  }
}
