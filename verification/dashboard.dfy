/** The metrics dashboard: trend and status helpers, the metric tables
    (inversion, labels, units), the ROI arithmetic, and the insight generator
    with its severity/type ordering. */
module Dashboard {
  import opened Common

  /** `calculateTrend` on one metric's weekly column: 0 for fewer than two
      points, otherwise the percentage change from the first to the last. */
  function Trend(history: seq<real>): (r: Extended)
    ensures |history| < 2 ==> r == Finite(0.0)
    ensures |history| >= 2 && history[0] != 0.0 ==>
      r == Finite((history[|history| - 1] - history[0]) / history[0] * 100.0)
    ensures |history| >= 2 && history[0] == 0.0 ==> !r.Finite?
    ensures |history| >= 2 && history[0] == 0.0 ==>
      (history[|history| - 1] > 0.0 ==> r == PosInfinity)
      && (history[|history| - 1] < 0.0 ==> r == NegInfinity)
      && (history[|history| - 1] == 0.0 ==> r == NotANumber)
  {
    if |history| < 2 then Finite(0.0)
    else Scale(Divide(history[|history| - 1] - history[0], history[0]), 100.0)
  }

  datatype Status = ExcellentStatus | GoodStatus | NeedsAttention | AtRisk

  /** `getMetricStatus`: the ratio current/benchmark against 1.1, 1.0 and 0.9. */
  function MetricStatus(current: real, benchmark: real): (s: Status)
    ensures benchmark != 0.0 && current == benchmark ==> s == GoodStatus
    ensures benchmark == 0.0 ==> s == ExcellentStatus || s == AtRisk
  {
    assert benchmark != 0.0 && current == benchmark ==> current / benchmark == 1.0;
    var ratio := Divide(current, benchmark);
    if AtLeast(ratio, 1.1) then ExcellentStatus
    else if AtLeast(ratio, 1.0) then GoodStatus
    else if AtLeast(ratio, 0.9) then NeedsAttention
    else AtRisk
  }

  /** Comparing a ratio with a constant is comparing the numerator with the
      constant times a positive denominator. */
  lemma RatioCompare(value: real, benchmark: real, c: real)
    requires benchmark > 0.0
    ensures value / benchmark >= c <==> value >= c * benchmark
    ensures value / benchmark > c <==> value > c * benchmark
  {
    var r := value / benchmark;
    assert r * benchmark == value;
    if r >= c {
      assert (r - c) * benchmark >= 0.0;
    } else {
      assert (c - r) * benchmark > 0.0;
    }
    if r > c {
      assert (r - c) * benchmark > 0.0;
    } else {
      assert (c - r) * benchmark >= 0.0;
    }
  }

  /** For a positive benchmark the status bands are the intervals of the
      current value cut at 1.1, 1.0 and 0.9 times the benchmark. */
  lemma MetricStatusBands(current: real, benchmark: real)
    requires benchmark > 0.0
    ensures MetricStatus(current, benchmark) == ExcellentStatus <==> current >= 1.1 * benchmark
    ensures MetricStatus(current, benchmark) == GoodStatus <==> benchmark <= current < 1.1 * benchmark
    ensures MetricStatus(current, benchmark) == NeedsAttention <==> 0.9 * benchmark <= current < benchmark
    ensures MetricStatus(current, benchmark) == AtRisk <==> current < 0.9 * benchmark
  {
    var r := current / benchmark;
    assert Divide(current, benchmark) == Finite(r);
    RatioCompare(current, benchmark, 1.1);
    RatioCompare(current, benchmark, 1.0);
    RatioCompare(current, benchmark, 0.9);
  }

  /** With a zero benchmark a positive value reads as excellent, anything else as at risk. */
  lemma MetricStatusZeroBenchmark(current: real)
    ensures MetricStatus(current, 0.0) == if current > 0.0 then ExcellentStatus else AtRisk
  {
  }

  /** `invertedMetrics[dimension]?.includes(metric)`: the lower-is-better
      metrics of each dimension (none for impact or an unknown dimension). */
  predicate ListedAsInverted(dimension: string, metric: string) {
    if dimension == "speed" then metric == "lead_time" || metric == "time_to_10th_pr" || metric == "pr_size"
    else if dimension == "effectiveness" then
      metric == "regrettable_attrition" || metric == "meeting_time" || metric == "build_time"
    else if dimension == "quality" then metric == "change_failure_rate" || metric == "failed_deployment_recovery"
    else false
  }

  /** `shouldInvertMetric`: `rd_revenue_ratio` (middle-is-better) is special-cased
      to false; otherwise the metric must be listed for its dimension. */
  function ShouldInvert(dimension: string, metric: string): (r: bool)
    ensures r ==> dimension != "impact"
  {
    if dimension == "impact" && metric == "rd_revenue_ratio" then false
    else ListedAsInverted(dimension, metric)
  }

  /** The inverted metrics are exactly the eight listed (dimension, metric) pairs. */
  lemma ShouldInvertExactly(dimension: string, metric: string)
    ensures ShouldInvert(dimension, metric) <==>
      (dimension, metric) in {("speed", "lead_time"), ("speed", "time_to_10th_pr"), ("speed", "pr_size"),
        ("effectiveness", "regrettable_attrition"), ("effectiveness", "meeting_time"),
        ("effectiveness", "build_time"), ("quality", "change_failure_rate"),
        ("quality", "failed_deployment_recovery")}
  {
  }

  /** The label of a secondary metric (`getSecondaryMetricLabel`). */
  function LabelTable(dimension: string, metric: string): string {
    if dimension == "speed" then
      if metric == "deployment_frequency" then "Deployment Frequency"
      else if metric == "lead_time" then "Lead Time"
      else if metric == "perceived_delivery_rate" then "Perceived Delivery Rate"
      else if metric == "time_to_10th_pr" then "Time to 10th PR"
      else if metric == "pr_size" then "PR Size"
      else ""
    else if dimension == "effectiveness" then
      if metric == "dxi_components" then "DXI Components Score"
      else if metric == "ease_of_delivery" then "Ease of Delivery"
      else if metric == "regrettable_attrition" then "Regrettable Attrition"
      else if metric == "meeting_time" then "Meeting Time"
      else if metric == "build_time" then "Build Time"
      else ""
    else if dimension == "quality" then
      if metric == "change_failure_rate" then "Change Failure Rate"
      else if metric == "failed_deployment_recovery" then "Deployment Recovery Time"
      else if metric == "perceived_software_quality" then "Perceived Software Quality"
      else if metric == "operational_health" then "Operational Health"
      else if metric == "security_metrics" then "Security Compliance"
      else ""
    else if dimension == "impact" then
      if metric == "feature_time_ratio" then "Feature Time Ratio"
      else if metric == "initiative_roi" then "Initiative ROI"
      else if metric == "revenue_per_engineer" then "Revenue per Engineer"
      else if metric == "rd_revenue_ratio" then "R&D Revenue Ratio"
      else if metric == "business_value_delivery" then "Business Value Delivery"
      else ""
    else ""
  }

  /** `labels[dimension]?.[metric] || metric`: an unlisted metric is shown by its key. */
  function SecondaryLabel(dimension: string, metric: string): (r: string)
    ensures LabelTable(dimension, metric) == "" ==> r == metric
    ensures LabelTable(dimension, metric) != "" ==> r == LabelTable(dimension, metric)
    ensures |metric| > 0 ==> |r| > 0
  {
    var listed := LabelTable(dimension, metric);
    if listed != "" then listed else metric
  }

  /** The unit of a secondary metric (`getSecondaryMetricUnit`); "" when unlisted. */
  function SecondaryUnit(dimension: string, metric: string): (unit: string)
    ensures unit in {"", "per week", "days", "weeks", "lines", "%", "min", "hours", "x", "K"}
    ensures dimension != "speed" && dimension != "effectiveness" && dimension != "quality" && dimension != "impact"
      ==> unit == ""
  {
    if dimension == "speed" then
      if metric == "deployment_frequency" then "per week"
      else if metric == "lead_time" then "days"
      else if metric == "time_to_10th_pr" then "weeks"
      else if metric == "pr_size" then "lines"
      else ""
    else if dimension == "effectiveness" then
      if metric == "regrettable_attrition" || metric == "meeting_time" then "%"
      else if metric == "build_time" then "min"
      else ""
    else if dimension == "quality" then
      if metric == "change_failure_rate" || metric == "operational_health" || metric == "security_metrics" then "%"
      else if metric == "failed_deployment_recovery" then "hours"
      else ""
    else if dimension == "impact" then
      if metric == "feature_time_ratio" || metric == "rd_revenue_ratio" || metric == "business_value_delivery" then "%"
      else if metric == "initiative_roi" then "x"
      else if metric == "revenue_per_engineer" then "K"
      else ""
    else ""
  }

  /** Every metric the dashboard lists has a label of its own; every other key
      falls back to itself, and its unit to the empty string. */
  lemma LabelFallback(dimension: string, metric: string)
    requires dimension !in {"speed", "effectiveness", "quality", "impact"}
    ensures SecondaryLabel(dimension, metric) == metric
    ensures SecondaryUnit(dimension, metric) == ""
  {
  }

  /** `getMetricDescription`: one sentence per primary dimension, "" otherwise. */
  function MetricDescription(dimension: string): (r: string)
    ensures r != "" <==> dimension in {"speed", "effectiveness", "quality", "impact"}
  {
    if dimension == "speed" then "How quickly developers can deliver production-ready code."
    else if dimension == "effectiveness" then "How well teams navigate development processes and workflows."
    else if dimension == "quality" then "The stability and reliability of software in production."
    else if dimension == "impact" then "How much developers contribute to business value beyond writing code."
    else ""
  }

  // ---------------------------------------------------------------------
  // calculateMetrics and the ROI figures

  /** `(e / k)` for an already computed quotient `e`: a non-finite value keeps
      its sign for a positive `k`, flips it for a negative one, and NaN stays. */
  function DivideExtended(e: Extended, k: real): (r: Extended)
    ensures e.Finite? ==> r == Divide(e.value, k)
    ensures e == NotANumber ==> r == NotANumber
  {
    match e
    case Finite(v) => Divide(v, k)
    case PosInfinity => if k < 0.0 then NegInfinity else PosInfinity
    case NegInfinity => if k < 0.0 then PosInfinity else NegInfinity
    case NotANumber => NotANumber
  }

  /** `calculateSpeed`: merged PRs per engineer per week. */
  function CalculateSpeed(prs: real, engineers: real, period: real): (r: Extended)
    ensures engineers != 0.0 && period != 0.0 ==> r.Finite? && r.value * engineers * period == prs
    ensures engineers == 0.0 || period == 0.0 ==> !r.Finite?
  {
    DivideExtended(Divide(prs, engineers), period)
  }

  /** `calculateDXI` (simplified): the plain mean of the dimension scores;
      NaN for an empty list. */
  function CalculatePlainDxi(scores: seq<real>): (r: Extended)
    ensures |scores| == 0 ==> r == NotANumber
    ensures |scores| > 0 ==> r.Finite? && r.value * |scores| as real == Sum(scores)
  {
    Divide(Sum(scores), |scores| as real)
  }

  lemma {:induction false} SumBounds(scores: seq<real>, lo: real, hi: real)
    requires forall i :: 0 <= i < |scores| ==> lo <= scores[i] <= hi
    ensures |scores| as real * lo <= Sum(scores) <= |scores| as real * hi
  {
    if |scores| > 0 {
      SumBounds(scores[1..], lo, hi);
    }
  }

  /** The mean of scores that all lie in [lo, hi] lies in [lo, hi]. */
  lemma PlainDxiBounds(scores: seq<real>, lo: real, hi: real)
    requires |scores| > 0
    requires forall i :: 0 <= i < |scores| ==> lo <= scores[i] <= hi
    ensures CalculatePlainDxi(scores).Finite?
    ensures lo <= CalculatePlainDxi(scores).value <= hi
  {
    SumBounds(scores, lo, hi);
    var n := |scores| as real;
    var mean := Sum(scores) / n;
    assert mean * n == Sum(scores);
    if mean < lo {
      assert (lo - mean) * n > 0.0;
    }
  }

  /** `calculateQuality`: 100 minus the change failure rate in percent; with
      no deployments the rate is infinite (or NaN for 0 / 0). */
  function CalculateQuality(failedDeployments: real, totalDeployments: real): (r: Extended)
    ensures totalDeployments != 0.0 ==>
      r == Finite(100.0 - failedDeployments / totalDeployments * 100.0)
    ensures totalDeployments == 0.0 && failedDeployments > 0.0 ==> r == NegInfinity
    ensures totalDeployments == 0.0 && failedDeployments < 0.0 ==> r == PosInfinity
    ensures totalDeployments == 0.0 && failedDeployments == 0.0 ==> r == NotANumber
  {
    SubtractFrom(100.0, Scale(Divide(failedDeployments, totalDeployments), 100.0))
  }

  /** `calculateImpact`: feature-work hours as a percentage of all hours;
      with no hours it is infinite (or NaN for 0 / 0). */
  function CalculateImpact(featureWorkHours: real, totalWorkHours: real): (r: Extended)
    ensures totalWorkHours != 0.0 ==> r == Finite(featureWorkHours / totalWorkHours * 100.0)
    ensures totalWorkHours == 0.0 && featureWorkHours > 0.0 ==> r == PosInfinity
    ensures totalWorkHours == 0.0 && featureWorkHours < 0.0 ==> r == NegInfinity
    ensures totalWorkHours == 0.0 && featureWorkHours == 0.0 ==> r == NotANumber
  {
    Scale(Divide(featureWorkHours, totalWorkHours), 100.0)
  }

  /** A share of a positive whole, in percent, lies in 0..100. */
  lemma PercentOfWhole(part: real, whole: real)
    requires 0.0 <= part <= whole && whole > 0.0
    ensures 0.0 <= part / whole * 100.0 <= 100.0
  {
    assert part / whole <= 1.0;
  }

  /** With 0 <= failed <= total the quality score lies in 0..100, and so does the impact score. */
  lemma QualityAndImpactRange(part: real, whole: real)
    requires 0.0 <= part <= whole && whole > 0.0
    ensures CalculateQuality(part, whole).Finite? && 0.0 <= CalculateQuality(part, whole).value <= 100.0
    ensures CalculateImpact(part, whole).Finite? && 0.0 <= CalculateImpact(part, whole).value <= 100.0
    ensures CalculateQuality(part, whole).value + CalculateImpact(part, whole).value == 100.0
  {
    PercentOfWhole(part, whole);
  }

  /** `calculateDXIRoi`: minutes saved per year (gain x developers x minutes
      per point x 52 weeks), in hours, times the hourly rate. */
  function CalculateDxiRoi(dxiGain: real, developerCount: real, timePerPoint: real, hourlyRate: real): (savings: real)
    ensures dxiGain == 0.0 || developerCount == 0.0 || timePerPoint == 0.0 || hourlyRate == 0.0 ==> savings == 0.0
  {
    var minutesPerYear := dxiGain * developerCount * timePerPoint * 52.0;
    var hoursPerYear := minutesPerYear / 60.0;
    hoursPerYear * hourlyRate
  }

  datatype PrimaryValues = PrimaryValues(speed: real, effectiveness: real, quality: real, impact: real)

  /** `calculateRoi`: the DXI gain between two snapshots at 13 minutes per point per week. */
  function CalculateRoi(current: PrimaryValues, previous: PrimaryValues, engineersCount: real, hourlyRate: real): (savings: real)
    ensures current.effectiveness == previous.effectiveness ==> savings == 0.0
  {
    var dxiGain := current.effectiveness - previous.effectiveness;
    var minutesPerWeek := dxiGain * 13.0;
    var hoursPerYear := (minutesPerWeek * engineersCount * 52.0) / 60.0;
    hoursPerYear * hourlyRate
  }

  /** `calculateRoi` is `calculateDXIRoi` of the effectiveness gain with 13 minutes per point. */
  lemma RoiIsDxiRoi(current: PrimaryValues, previous: PrimaryValues, engineersCount: real, hourlyRate: real)
    ensures CalculateRoi(current, previous, engineersCount, hourlyRate) ==
      CalculateDxiRoi(current.effectiveness - previous.effectiveness, engineersCount, 13.0, hourlyRate)
  {
    var g := current.effectiveness - previous.effectiveness;
    assert g * 13.0 * engineersCount * 52.0 == g * engineersCount * 13.0 * 52.0;
  }

  /** No gain, no return; a larger gain never returns less (for a non-negative
      head count, time per point and rate). */
  lemma DxiRoiMonotone(g1: real, g2: real, developerCount: real, timePerPoint: real, hourlyRate: real)
    requires g1 <= g2 && developerCount >= 0.0 && timePerPoint >= 0.0 && hourlyRate >= 0.0
    ensures CalculateDxiRoi(0.0, developerCount, timePerPoint, hourlyRate) == 0.0
    ensures CalculateDxiRoi(g1, developerCount, timePerPoint, hourlyRate)
      <= CalculateDxiRoi(g2, developerCount, timePerPoint, hourlyRate)
  {
    var c := developerCount * timePerPoint * 52.0 / 60.0 * hourlyRate;
    assert c >= 0.0;
    assert CalculateDxiRoi(g1, developerCount, timePerPoint, hourlyRate) == g1 * c;
    assert CalculateDxiRoi(g2, developerCount, timePerPoint, hourlyRate) == g2 * c;
    assert (g2 - g1) * c >= 0.0;
  }

  /** The ROI block of the dashboard data. The two optional figures read as 0
      when absent (`|| 0`). */
  datatype Roi = Roi(
    effectivenessGain: real, developersCount: real, timePerPoint: real, hourlyRate: real,
    annualSavings: real, failureCostReduction: Option<real>, speedImprovementValue: Option<real>)

  /** `x || 0` on an optional number. */
  function OrZero(x: Option<real>): real {
    if x.Some? then x.value else 0.0
  }

  /** JavaScript truthiness of an optional number: present and not 0. */
  predicate Truthy(x: Option<real>) {
    x.Some? && x.value != 0.0
  }

  /** The values of the three ROI cards: effectiveness, quality and speed. */
  function RoiCards(roi: Roi): seq<real> {
    [roi.annualSavings, OrZero(roi.failureCostReduction), OrZero(roi.speedImprovementValue)]
  }

  /** `calculateTotalRoi`: 0 without an ROI block, otherwise the sum of the three parts. */
  function CalculateTotalRoi(roi: Option<Roi>): (r: real)
    ensures roi.None? ==> r == 0.0
  {
    if roi.None? then 0.0
    else roi.value.annualSavings + OrZero(roi.value.failureCostReduction) + OrZero(roi.value.speedImprovementValue)
  }

  /** The "Total Annual ROI" card is the sum of the other three cards. */
  lemma TotalRoiIsSumOfCards(roi: Roi)
    ensures CalculateTotalRoi(Some(roi)) == Sum(RoiCards(roi))
    ensures (roi.annualSavings >= 0.0 && OrZero(roi.failureCostReduction) >= 0.0
             && OrZero(roi.speedImprovementValue) >= 0.0) ==>
            forall card :: card in RoiCards(roi) ==> card <= CalculateTotalRoi(Some(roi))
  {
    assert Sum(RoiCards(roi)) == roi.annualSavings + Sum(RoiCards(roi)[1..]);
    assert Sum(RoiCards(roi)[1..]) == OrZero(roi.failureCostReduction) + Sum(RoiCards(roi)[2..]);
  }

  // ---------------------------------------------------------------------
  // generateInsights

  datatype Kind = Positive | Negative | Warning
  datatype Severity = High | Medium

  /** An insight record; the message and recommendation texts are left out and
      the figure the message quotes (a rounded percentage or an amount) is kept. */
  datatype Insight = Insight(dimension: string, metric: Option<string>, kind: Kind, severity: Severity,
                             figure: Option<Extended>)

  /** One primary dimension: current value, team benchmark and weekly history. */
  datatype Reading = Reading(value: real, benchmark: real, history: seq<real>)

  /** `current.primary` with its benchmarks, in key order speed, effectiveness, quality, impact. */
  datatype Primary = Primary(speed: Reading, effectiveness: Reading, quality: Reading, impact: Reading)

  datatype Tiers = Tiers(low: real, medium: real, high: real)
  datatype Industry = Industry(speed: Tiers, effectiveness: Tiers, quality: Tiers, impact: Tiers)

  datatype SecondaryMetric = SecondaryMetric(metric: string, value: real, benchmark: real)
  datatype SecondaryGroup = SecondaryGroup(dimension: string, metrics: seq<SecondaryMetric>)

  datatype DashboardData = DashboardData(primary: Primary, secondary: seq<SecondaryGroup>, industry: Industry,
                                         roi: Option<Roi>)

  /** The primary dimensions in the order `Object.keys` visits them. */
  function PrimaryList(p: Primary): seq<(string, Reading)> {
    [("speed", p.speed), ("effectiveness", p.effectiveness), ("quality", p.quality), ("impact", p.impact)]
  }

  /** `Math.abs` on an extended number. */
  function AbsExtended(e: Extended): Extended {
    match e
    case Finite(v) => Finite(if v < 0.0 then -v else v)
    case NegInfinity => PosInfinity
    case _ => e
  }

  /** The four rules for one primary dimension, in push order. */
  function PrimaryInsightsFor(dimension: string, r: Reading): (out: seq<Insight>)
    ensures |out| <= 4
    ensures forall i :: i in out ==> i.dimension == dimension && i.metric.None? && i.kind != Warning
  {
    var ratio := Divide(r.value, r.benchmark);
    var trend := Trend(r.history);
    (if r.value > r.benchmark * 1.1
     then [Insight(dimension, None, Positive, High, Some(RoundExtended(Scale(Shift(ratio, -1.0), 100.0))))] else [])
    + (if r.value < r.benchmark * 0.9
       then [Insight(dimension, None, Negative, High, Some(RoundExtended(Scale(SubtractFrom(1.0, ratio), 100.0))))] else [])
    + (if Above(trend, 10.0) then [Insight(dimension, None, Positive, Medium, Some(RoundExtended(trend)))] else [])
    + (if Below(trend, -10.0)
       then [Insight(dimension, None, Negative, Medium, Some(RoundExtended(AbsExtended(trend))))] else [])
  }

  function PrimaryInsightsOf(entries: seq<(string, Reading)>): seq<Insight> {
    if |entries| == 0 then []
    else PrimaryInsightsOf(entries[..|entries| - 1]) + PrimaryInsightsFor(entries[|entries| - 1].0, entries[|entries| - 1].1)
  }

  /** The direction rules of one secondary metric: better and worse than the
      benchmark, with the comparisons swapped for an inverted metric. */
  predicate Better(invert: bool, value: real, benchmark: real) {
    if invert then value < benchmark * 0.9 else value > benchmark * 1.1
  }

  predicate Worse(invert: bool, value: real, benchmark: real) {
    if invert then value > benchmark * 1.1 else value < benchmark * 0.9
  }

  function SecondaryInsightsFor(dimension: string, m: SecondaryMetric): (out: seq<Insight>)
    ensures |out| <= 2
    ensures forall i :: i in out ==>
      i.dimension == dimension && i.metric == Some(m.metric) && i.severity == Medium && i.kind != Warning
  {
    var invert := ShouldInvert(dimension, m.metric);
    (if Better(invert, m.value, m.benchmark) then [Insight(dimension, Some(m.metric), Positive, Medium, None)] else [])
    + (if Worse(invert, m.value, m.benchmark) then [Insight(dimension, Some(m.metric), Negative, Medium, None)] else [])
  }

  function GroupInsights(dimension: string, metrics: seq<SecondaryMetric>): seq<Insight> {
    if |metrics| == 0 then []
    else GroupInsights(dimension, metrics[..|metrics| - 1]) + SecondaryInsightsFor(dimension, metrics[|metrics| - 1])
  }

  function SecondaryInsights(groups: seq<SecondaryGroup>): seq<Insight> {
    if |groups| == 0 then []
    else SecondaryInsights(groups[..|groups| - 1]) + GroupInsights(groups[|groups| - 1].dimension, groups[|groups| - 1].metrics)
  }

  /** The two hard-coded balance rules. */
  function BalanceInsights(p: Primary, industry: Industry): (out: seq<Insight>)
    ensures |out| <= 2
    ensures forall i :: i in out ==> i == Insight("balance", None, Warning, High, None)
  {
    (if p.speed.value > industry.speed.high && p.quality.value < industry.quality.medium
     then [Insight("balance", None, Warning, High, None)] else [])
    + (if p.impact.value > industry.impact.high && p.effectiveness.value < industry.effectiveness.medium
       then [Insight("balance", None, Warning, High, None)] else [])
  }

  /** The ROI insights: the annual savings always, the failure-cost saving when it is truthy. */
  function RoiInsights(roi: Option<Roi>): (out: seq<Insight>)
    ensures |out| <= 2
    ensures forall i :: i in out ==> i.kind == Positive && i.severity == High && i.metric.None?
  {
    if roi.None? then []
    else
      var savings := [Insight("effectiveness", None, Positive, High, Some(Finite(roi.value.annualSavings)))];
      if Truthy(roi.value.failureCostReduction)
      then savings + [Insight("quality", None, Positive, High, Some(Finite(roi.value.failureCostReduction.value)))]
      else savings
  }

  /** Every record `generateInsights` pushes, in push order. */
  function Records(data: DashboardData): (out: seq<Insight>)
    ensures forall i :: i in out <==>
      || i in PrimaryInsightsOf(PrimaryList(data.primary))
      || i in SecondaryInsights(data.secondary)
      || i in BalanceInsights(data.primary, data.industry)
      || i in RoiInsights(data.roi)
  {
    PrimaryInsightsOf(PrimaryList(data.primary)) + SecondaryInsights(data.secondary)
    + BalanceInsights(data.primary, data.industry) + RoiInsights(data.roi)
  }

  /** The sort comparator as written. */
  function CompareAsWritten(a: Insight, b: Insight): (r: int)
    ensures -1 <= r <= 1
    ensures r == 0 <==> a.severity == b.severity && a.kind == b.kind
  {
    if a.severity != b.severity then (if a.severity == High then -1 else 1)
    else if a.kind != b.kind then (if a.kind == Negative then -1 else 1)
    else 0
  }

  /** The order the comparator is evidently meant to impose: high before medium,
      and within a severity negative before everything else. */
  function Rank(i: Insight): real {
    (if i.severity == High then 0.0 else 2.0) + (if i.kind == Negative then 0.0 else 1.0)
  }

  function CompareCorrected(a: Insight, b: Insight): (r: int)
    ensures r < 0 <==> Rank(a) < Rank(b)
    ensures r == 0 <==> Rank(a) == Rank(b)
  {
    if Rank(a) < Rank(b) then -1 else if Rank(a) > Rank(b) then 1 else 0
  }

  /** The comparator as written answers 1 in both directions for a positive
      and a warning insight of the same severity, so it is not a consistent order. */
  lemma ComparatorInconsistent()
    ensures var pos := Insight("effectiveness", None, Positive, High, None);
      var warn := Insight("balance", None, Warning, High, None);
      CompareAsWritten(pos, warn) == 1 && CompareAsWritten(warn, pos) == 1
  {
  }

  /** The corrected comparator agrees with the written one except on the pairs
      of a positive and a warning of the same severity, where it answers 0. */
  lemma CorrectedComparatorAgrees(a: Insight, b: Insight)
    ensures !(a.severity == b.severity && a.kind != b.kind && a.kind != Negative && b.kind != Negative) ==>
      CompareCorrected(a, b) == CompareAsWritten(a, b)
    ensures a.severity == b.severity && a.kind != Negative && b.kind != Negative ==> CompareCorrected(a, b) == 0
  {
  }

  /** The corrected comparator is antisymmetric and transitive: a consistent order. */
  lemma CorrectedComparatorConsistent(a: Insight, b: Insight, c: Insight)
    ensures CompareCorrected(a, b) == -CompareCorrected(b, a)
    ensures CompareCorrected(a, b) <= 0 && CompareCorrected(b, c) <= 0 ==> CompareCorrected(a, c) <= 0
  {
  }

  function InsightRank(): Insight -> real {
    i => Rank(i)
  }

  /** The order the sorted list is guaranteed to have. */
  predicate WeaklyOrdered(s: seq<Insight>) {
    forall i, j :: 0 <= i < j < |s| ==>
      !(s[i].severity == Medium && s[j].severity == High)
      && (s[i].severity == s[j].severity && s[j].kind == Negative ==> s[i].kind == Negative)
  }

  /** The insights sorted by the corrected comparator (stable). */
  function SortInsights(s: seq<Insight>): (r: seq<Insight>)
    ensures multiset(r) == multiset(s)
    ensures forall i, j :: 0 <= i < j < |r| ==> CompareCorrected(r[i], r[j]) <= 0
    ensures WeaklyOrdered(r)
  {
    var sorted := SortByKey(s, InsightRank());
    assert forall i, j :: 0 <= i < j < |sorted| ==> Rank(sorted[i]) <= Rank(sorted[j]);
    sorted
  }

  /** The `forEach` callback over the primary dimensions: the two deviation
      rules and the two trend rules, pushed in that order. */
  method PushPrimaryInsights(insights: seq<Insight>, dimension: string, reading: Reading)
    returns (pushed: seq<Insight>)
    ensures pushed == insights + PrimaryInsightsFor(dimension, reading)
  {
    var value, benchmark := reading.value, reading.benchmark;
    var trend := Trend(reading.history);
    var deviation: seq<Insight> := [];
    if value > benchmark * 1.1 {
      deviation := deviation + [Insight(dimension, None, Positive, High,
        Some(RoundExtended(Scale(Shift(Divide(value, benchmark), -1.0), 100.0))))];
    }
    if value < benchmark * 0.9 {
      deviation := deviation + [Insight(dimension, None, Negative, High,
        Some(RoundExtended(Scale(SubtractFrom(1.0, Divide(value, benchmark)), 100.0))))];
    }
    var trending: seq<Insight> := [];
    if Above(trend, 10.0) {
      trending := trending + [Insight(dimension, None, Positive, Medium, Some(RoundExtended(trend)))];
    }
    if Below(trend, -10.0) {
      trending := trending + [Insight(dimension, None, Negative, Medium, Some(RoundExtended(AbsExtended(trend))))];
    }
    pushed := insights + (deviation + trending);
  }

  /** The `forEach` callback over one dimension's secondary metrics. */
  method PushSecondaryInsights(insights: seq<Insight>, dimension: string, m: SecondaryMetric)
    returns (pushed: seq<Insight>)
    ensures pushed == insights + SecondaryInsightsFor(dimension, m)
  {
    var value, benchmark := m.value, m.benchmark;
    var invert := ShouldInvert(dimension, m.metric);
    var betterThanBenchmark := if invert then value < benchmark * 0.9 else value > benchmark * 1.1;
    var worseThanBenchmark := if invert then value > benchmark * 1.1 else value < benchmark * 0.9;
    pushed := insights;
    if betterThanBenchmark {
      pushed := pushed + [Insight(dimension, Some(m.metric), Positive, Medium, None)];
    }
    if worseThanBenchmark {
      pushed := pushed + [Insight(dimension, Some(m.metric), Negative, Medium, None)];
    }
  }

  /** The `forEach` callback over the secondary dimensions: the inner loop
      over that dimension's metrics. */
  method PushGroupInsights(insights: seq<Insight>, group: SecondaryGroup) returns (pushed: seq<Insight>)
    ensures pushed == insights + GroupInsights(group.dimension, group.metrics)
  {
    var dimension, metrics := group.dimension, group.metrics;
    pushed := insights;
    for m := 0 to |metrics|
      invariant pushed == insights + GroupInsights(dimension, metrics[..m])
    {
      pushed := PushSecondaryInsights(pushed, dimension, metrics[m]);
      GroupInsightsStep(dimension, metrics, m);
      ConcatAssociative(insights, GroupInsights(dimension, metrics[..m]), SecondaryInsightsFor(dimension, metrics[m]));
    }
    assert metrics[..|metrics|] == metrics;
  }

  lemma GroupInsightsStep(dimension: string, metrics: seq<SecondaryMetric>, m: nat)
    requires m < |metrics|
    ensures GroupInsights(dimension, metrics[..m + 1])
      == GroupInsights(dimension, metrics[..m]) + SecondaryInsightsFor(dimension, metrics[m])
  {
    assert metrics[..m + 1][..m] == metrics[..m];
  }

  lemma PrimaryInsightsStep(entries: seq<(string, Reading)>, k: nat)
    requires k < |entries|
    ensures PrimaryInsightsOf(entries[..k + 1]) == PrimaryInsightsOf(entries[..k]) + PrimaryInsightsFor(entries[k].0, entries[k].1)
  {
    assert entries[..k + 1][..k] == entries[..k];
  }

  lemma SecondaryInsightsStep(groups: seq<SecondaryGroup>, g: nat)
    requires g < |groups|
    ensures SecondaryInsights(groups[..g + 1])
      == SecondaryInsights(groups[..g]) + GroupInsights(groups[g].dimension, groups[g].metrics)
  {
    assert groups[..g + 1][..g] == groups[..g];
  }

  lemma ConcatAssociative(a: seq<Insight>, b: seq<Insight>, c: seq<Insight>)
    ensures a + (b + c) == a + b + c
  {
  }

  /** The balance checks and the ROI records, pushed after the loops. */
  method PushBalanceAndRoiInsights(insights: seq<Insight>, data: DashboardData) returns (pushed: seq<Insight>)
    ensures pushed == insights + BalanceInsights(data.primary, data.industry) + RoiInsights(data.roi)
  {
    var current, industry := data.primary, data.industry;
    var rest: seq<Insight> := [];
    if current.speed.value > industry.speed.high && current.quality.value < industry.quality.medium {
      rest := rest + [Insight("balance", None, Warning, High, None)];
    }
    if current.impact.value > industry.impact.high && current.effectiveness.value < industry.effectiveness.medium {
      rest := rest + [Insight("balance", None, Warning, High, None)];
    }
    assert rest == BalanceInsights(current, industry);
    if data.roi.Some? {
      rest := rest + [Insight("effectiveness", None, Positive, High, Some(Finite(data.roi.value.annualSavings)))];
      if Truthy(data.roi.value.failureCostReduction) {
        rest := rest + [Insight("quality", None, Positive, High,
          Some(Finite(data.roi.value.failureCostReduction.value)))];
      }
    }
    assert rest == BalanceInsights(current, industry) + RoiInsights(data.roi);
    ConcatAssociative(insights, BalanceInsights(current, industry), RoiInsights(data.roi));
    pushed := insights + rest;
  }

  /** `generateInsights`: push the records rule by rule, then sort them. */
  method GenerateInsights(data: DashboardData) returns (insights: seq<Insight>)
    ensures insights == SortInsights(Records(data))
    ensures multiset(insights) == multiset(Records(data))
    ensures WeaklyOrdered(insights)
  {
    var pushed: seq<Insight> := [];
    var primary := PrimaryList(data.primary);
    for k := 0 to |primary|
      invariant pushed == PrimaryInsightsOf(primary[..k])
    {
      pushed := PushPrimaryInsights(pushed, primary[k].0, primary[k].1);
      PrimaryInsightsStep(primary, k);
    }
    assert primary[..|primary|] == primary;
    var groups := data.secondary;
    for g := 0 to |groups|
      invariant pushed == PrimaryInsightsOf(primary) + SecondaryInsights(groups[..g])
    {
      pushed := PushGroupInsights(pushed, groups[g]);
      SecondaryInsightsStep(groups, g);
      ConcatAssociative(PrimaryInsightsOf(primary), SecondaryInsights(groups[..g]),
                        GroupInsights(groups[g].dimension, groups[g].metrics));
    }
    assert groups[..|groups|] == groups;
    pushed := PushBalanceAndRoiInsights(pushed, data);
    assert pushed == Records(data);
    insights := SortInsights(pushed);
  }

  // ---------------------------------------------------------------------
  // Properties of the rules

  /** For a positive benchmark a primary dimension gets at most one high
      (deviation) insight, positive exactly when the value exceeds 1.1 times
      the benchmark and negative exactly when it is below 0.9 times it; and at
      most one medium (trend) insight, positive exactly when the trend exceeds
      10 and negative exactly when it is below -10. */
  lemma PrimaryRulesExclusive(dimension: string, r: Reading)
    requires r.benchmark > 0.0
    ensures var out := PrimaryInsightsFor(dimension, r);
      && |Filter(out, (i: Insight) => i.severity == High)| <= 1
      && |Filter(out, (i: Insight) => i.severity == Medium)| <= 1
      && (Insight(dimension, None, Positive, High, Some(Finite(Round((r.value / r.benchmark - 1.0) * 100.0) as real))) in out
          <==> r.value > 1.1 * r.benchmark)
      && (Insight(dimension, None, Negative, High, Some(Finite(Round((1.0 - r.value / r.benchmark) * 100.0) as real))) in out
          <==> r.value < 0.9 * r.benchmark)
      && ((exists i :: i in out && i.severity == Medium && i.kind == Positive) <==> Above(Trend(r.history), 10.0))
      && ((exists i :: i in out && i.severity == Medium && i.kind == Negative) <==> Below(Trend(r.history), -10.0))
      && (forall i :: i in out ==> i.dimension == dimension && i.kind != Warning)
  {
    var out := PrimaryInsightsFor(dimension, r);
    var trend := Trend(r.history);
    assert !(Above(trend, 10.0) && Below(trend, -10.0));
    assert !(r.value > r.benchmark * 1.1 && r.value < r.benchmark * 0.9);
    assert Divide(r.value, r.benchmark) == Finite(r.value / r.benchmark);
  }

  /** A deviation insight for a positive benchmark quotes a figure of at least 10 percent. */
  lemma DeviationFigureAtLeastTen(r: Reading)
    requires r.benchmark > 0.0
    ensures r.value > r.benchmark * 1.1 ==> Round((r.value / r.benchmark - 1.0) * 100.0) >= 10
    ensures r.value < r.benchmark * 0.9 ==> Round((1.0 - r.value / r.benchmark) * 100.0) >= 10
  {
    var q := r.value / r.benchmark;
    RatioCompare(r.value, r.benchmark, 1.1);
    RatioCompare(r.value, r.benchmark, 0.9);
    if r.value > r.benchmark * 1.1 {
      RoundMonotone(10.0, (q - 1.0) * 100.0);
      RoundInteger(10);
    }
    if r.value < r.benchmark * 0.9 {
      RoundMonotone(10.0, (1.0 - q) * 100.0);
      RoundInteger(10);
    }
  }

  /** For a positive benchmark a secondary metric is never both better and
      worse than its benchmark, so it yields at most one insight. */
  lemma SecondaryRulesExclusive(dimension: string, m: SecondaryMetric)
    requires m.benchmark > 0.0
    ensures !(Better(ShouldInvert(dimension, m.metric), m.value, m.benchmark)
              && Worse(ShouldInvert(dimension, m.metric), m.value, m.benchmark))
    ensures |SecondaryInsightsFor(dimension, m)| <= 1
  {
  }

  /** Inversion swaps the two verdicts: what is better for a higher-is-better
      metric is worse for a lower-is-better one, and the other way round. */
  lemma InversionFlips(value: real, benchmark: real)
    ensures Better(true, value, benchmark) <==> Worse(false, value, benchmark)
    ensures Worse(true, value, benchmark) <==> Better(false, value, benchmark)
  {
  }

  /** A negative benchmark makes the written conditions overlap: with
      benchmark -10 a value of -10 is both below 1.1 and above 0.9 times it. */
  lemma NegativeBenchmarkOverlap()
    ensures Better(false, -10.0, -10.0) && Worse(false, -10.0, -10.0)
    ensures |SecondaryInsightsFor("speed", SecondaryMetric("deployment_frequency", -10.0, -10.0))| == 2
  {
  }

  /** The change failure rate 3.8 against a benchmark of 5.2 is lower-is-better
      and more than 10% under the benchmark: one positive insight. */
  lemma ChangeFailureRateExample()
    ensures SecondaryInsightsFor("quality", SecondaryMetric("change_failure_rate", 3.8, 5.2))
      == [Insight("quality", Some("change_failure_rate"), Positive, Medium, None)]
  {
    assert ShouldInvert("quality", "change_failure_rate");
  }

  /** Balance insights are the only warnings; each of the two appears exactly
      when its conjunction holds. */
  lemma BalanceRules(p: Primary, industry: Industry)
    ensures var out := BalanceInsights(p, industry);
      && (forall i :: i in out ==> i == Insight("balance", None, Warning, High, None))
      && |out| == (if p.speed.value > industry.speed.high && p.quality.value < industry.quality.medium then 1 else 0)
                + (if p.impact.value > industry.impact.high && p.effectiveness.value < industry.effectiveness.medium then 1 else 0)
  {
  }

  /** ROI insights appear only with an ROI block, the second only when the
      failure-cost reduction is truthy. */
  lemma RoiRules(roi: Option<Roi>)
    ensures roi.None? ==> RoiInsights(roi) == []
    ensures roi.Some? ==> |RoiInsights(roi)| == if Truthy(roi.value.failureCostReduction) then 2 else 1
    ensures forall i :: i in RoiInsights(roi) ==> i.kind == Positive && i.severity == High
  {
  }

  /** Secondary insights are all medium and carry their metric; none is a warning. */
  lemma {:induction false} SecondaryInsightsShape(groups: seq<SecondaryGroup>)
    ensures forall i :: i in SecondaryInsights(groups) ==>
      i.severity == Medium && i.metric.Some? && i.kind != Warning
  {
    if |groups| > 0 {
      SecondaryInsightsShape(groups[..|groups| - 1]);
      GroupInsightsShape(groups[|groups| - 1].dimension, groups[|groups| - 1].metrics);
    }
  }

  lemma {:induction false} GroupInsightsShape(dimension: string, metrics: seq<SecondaryMetric>)
    ensures forall i :: i in GroupInsights(dimension, metrics) ==>
      i.severity == Medium && i.metric.Some? && i.kind != Warning && i.dimension == dimension
  {
    if |metrics| > 0 {
      GroupInsightsShape(dimension, metrics[..|metrics| - 1]);
    }
  }

  /** The only warnings among the records are the balance insights. */
  lemma WarningsAreBalance(data: DashboardData)
    ensures forall i :: i in Records(data) && i.kind == Warning ==> i.dimension == "balance"
  {
    SecondaryInsightsShape(data.secondary);
    var primary := PrimaryList(data.primary);
    PrimaryNoWarnings(primary);
  }

  lemma {:induction false} PrimaryNoWarnings(entries: seq<(string, Reading)>)
    ensures forall i :: i in PrimaryInsightsOf(entries) ==> i.kind != Warning && i.metric.None?
  {
    if |entries| > 0 {
      PrimaryNoWarnings(entries[..|entries| - 1]);
    }
  }

  /** `SAMPLE_DATA.roi` as shipped. */
  const SampleRoi: Roi := Roi(7.0, 18.0, 13.0, 90.0, 145152.0, Some(126000.0), Some(92800.0))

  /** The stored annual savings disagree with the formula its own comment
      gives (and with `calculateDXIRoi`): 7 x 18 x 13 x 52 / 60 x 90 = 127764. */
  lemma SampleAnnualSavingsDisagrees()
    ensures CalculateDxiRoi(SampleRoi.effectivenessGain, SampleRoi.developersCount,
                            SampleRoi.timePerPoint, SampleRoi.hourlyRate) == 127764.0
    ensures SampleRoi.annualSavings != 127764.0
  {
  }

  /** The ROI block with the annual savings derived from its own inputs. */
  function DerivedRoi(roi: Roi): (r: Roi)
    ensures r.annualSavings == CalculateDxiRoi(roi.effectivenessGain, roi.developersCount, roi.timePerPoint, roi.hourlyRate)
    ensures r.failureCostReduction == roi.failureCostReduction && r.speedImprovementValue == roi.speedImprovementValue
    ensures r.effectivenessGain == roi.effectivenessGain && r.developersCount == roi.developersCount
    ensures r.timePerPoint == roi.timePerPoint && r.hourlyRate == roi.hourlyRate
  {
    roi.(annualSavings := CalculateDxiRoi(roi.effectivenessGain, roi.developersCount, roi.timePerPoint, roi.hourlyRate))
  }

  /** With the derived savings the sample's total ROI is 127764 + 126000 + 92800. */
  lemma SampleTotalRoiDerived()
    ensures DerivedRoi(SampleRoi).annualSavings == 127764.0
    ensures CalculateTotalRoi(Some(DerivedRoi(SampleRoi))) == 346564.0
    ensures CalculateTotalRoi(Some(SampleRoi)) == 363952.0
  {
  }
}
