/** The pure parts of the results view (components/hearing-test-results-new.tsx): the two
    display classifiers, the per-frequency readout, and the payload handed to the e-mail
    collaborator. */
module ResultsView {
  import opened RealMath
  import opened Wrappers
  import opened HearingTestData

  /** The label the view prints under each ear. */
  datatype HearingLevel = Good | Fair | Loss | SignificantLoss {

    /** Position on the label scale: 0 for good up to 3 for significant loss. */
    function Rank(): nat {
      match this
      case Good => 0
      case Fair => 1
      case Loss => 2
      case SignificantLoss => 3
    }
  }

  /** `getAssessmentSeverity`: the overall percentage read as a severity, 90 and above normal,
      75 to 89 mild, 50 to 74 moderate, below 50 severe. */
  function AssessmentSeverity(percentage: int): (a: Assessment)
    ensures a == Normal <==> percentage >= 90
    ensures a == MildLoss <==> 75 <= percentage < 90
    ensures a == ModerateLoss <==> 50 <= percentage < 75
    ensures a == SevereLoss <==> percentage < 50
  {
    if percentage >= 90 then Normal
    else if percentage >= 75 then MildLoss
    else if percentage >= 50 then ModerateLoss
    else SevereLoss
  }

  /** `getHearingLevel`: an ear's mean threshold read as a label, below 0.25 good, below 0.4
      fair, below 0.6 loss, and significant loss from 0.6 up. */
  function LevelOf(threshold: real): (l: HearingLevel)
    ensures l == Good <==> threshold < 0.25
    ensures l == Fair <==> 0.25 <= threshold < 0.4
    ensures l == Loss <==> 0.4 <= threshold < 0.6
    ensures l == SignificantLoss <==> threshold >= 0.6
  {
    if threshold < 0.25 then Good
    else if threshold < 0.4 then Fair
    else if threshold < 0.6 then Loss
    else SignificantLoss
  }

  /** The per-ear average the view labels; the source divides by the list length, so only a
      non-empty list has one. It agrees with the engine's percentage to within rounding. */
  function EarAverage(results: seq<Sample>): (avg: real)
    requires |results| > 0
    ensures ValidResults(results) ==> 0.0 <= avg <= 1.0
    ensures HearingPercentage(results) as real - 0.5 <= avg * 100.0 < HearingPercentage(results) as real + 0.5
  {
    Mean(Thresholds(results))
  }

  /** The percentage printed beside each frequency: `Math.round((1 - threshold) * 100)`. */
  function FrequencyDisplayPercentage(threshold: real): (p: int)
    ensures p as real - 0.5 <= (1.0 - threshold) * 100.0 < p as real + 0.5
    ensures 0.0 <= threshold <= 1.0 ==> 0 <= p <= 100
  {
    if 0.0 <= threshold <= 1.0 then RoundPercent((1.0 - threshold) * 100.0); Round((1.0 - threshold) * 100.0)
    else Round((1.0 - threshold) * 100.0)
  }

  /** The severity the view shows and sends: the overall percentage read by
      `AssessmentSeverity`. */
  function DisplayedSeverity(result: HearingTestResult): (a: Assessment)
    requires |result.leftEarResults| > 0 && |result.rightEarResults| > 0
    ensures var p := OverallPercentage(result.leftEarResults, result.rightEarResults);
      && (a == Normal <==> p >= 90)
      && (a == SevereLoss <==> p < 50)
      && (a.Rank() <= 1 <==> p >= 75)
  {
    AssessmentSeverity(OverallPercentage(result.leftEarResults, result.rightEarResults))
  }

  /** `{ ...result, overallAssessment: currentSeverity }`: the result with only its assessment
      replaced by the displayed severity. */
  function SentResult(result: HearingTestResult): (sent: HearingTestResult)
    requires |result.leftEarResults| > 0 && |result.rightEarResults| > 0
    ensures sent.overallAssessment == DisplayedSeverity(result)
    ensures sent.theoreticalScore == result.theoreticalScore
    ensures sent.leftEarResults == result.leftEarResults && sent.rightEarResults == result.rightEarResults
    ensures sent.recommendations == result.recommendations && sent.hearingTips == result.hearingTips
  {
    result.(overallAssessment := DisplayedSeverity(result))
  }

  /** The JSON body posted to the e-mail collaborator. */
  datatype EmailPayload<C> = EmailPayload(
    customerData: C,
    testResults: HearingTestResult,
    leftEarResults: seq<Sample>,
    rightEarResults: seq<Sample>)

  /** An ear-results prop as the component sees it: a missing prop takes the default `[]`. */
  function PropWithDefault(prop: Option<seq<Sample>>): seq<Sample> {
    prop.GetOr([])
  }

  /** JavaScript `a || b` with an array on the left: every array, the empty one included, is
      truthy, so the result is always `a`. */
  function ArrayOr(a: seq<Sample>, b: seq<Sample>): seq<Sample> {
    a
  }

  /** `leftEarResults || result.leftEarResults` as written, after the prop's default. */
  function PayloadEarsAsWritten(prop: Option<seq<Sample>>, fromResult: seq<Sample>): (ears: seq<Sample>)
    ensures prop.None? ==> ears == []
    ensures prop.Some? ==> ears == prop.value
  {
    ArrayOr(PropWithDefault(prop), fromResult)
  }

  /** The ear list as evidently intended: the prop when it holds samples, otherwise the
      result's own list. */
  function PayloadEars(prop: Option<seq<Sample>>, fromResult: seq<Sample>): (ears: seq<Sample>)
    ensures prop.None? ==> ears == fromResult
    ensures |PropWithDefault(prop)| == 0 ==> ears == fromResult
    ensures prop.Some? && |prop.value| > 0 ==> ears == prop.value
    ensures |fromResult| > 0 ==> |ears| > 0
  {
    var given := PropWithDefault(prop);
    if |given| > 0 then given else fromResult
  }

  /** The payload the view sends as written: each ear's prop, or the default `[]` when the
      prop is missing, never the result's own list. */
  function EmailPayloadAsWritten<C>(
    customer: C, result: HearingTestResult,
    leftProp: Option<seq<Sample>>, rightProp: Option<seq<Sample>>): (p: EmailPayload<C>)
    requires |result.leftEarResults| > 0 && |result.rightEarResults| > 0
    ensures p.customerData == customer
    ensures p.testResults == result.(overallAssessment := DisplayedSeverity(result))
    ensures leftProp.None? ==> p.leftEarResults == []
    ensures rightProp.None? ==> p.rightEarResults == []
    ensures leftProp.Some? ==> p.leftEarResults == leftProp.value
    ensures rightProp.Some? ==> p.rightEarResults == rightProp.value
  {
    EmailPayload(customer, SentResult(result),
      PayloadEarsAsWritten(leftProp, result.leftEarResults),
      PayloadEarsAsWritten(rightProp, result.rightEarResults))
  }

  /** The corrected payload: the customer data, the result with the displayed severity,
      and each ear's samples, falling back to the result's own lists. */
  function EmailPayloadFor<C>(
    customer: C, result: HearingTestResult,
    leftProp: Option<seq<Sample>>, rightProp: Option<seq<Sample>>): (p: EmailPayload<C>)
    requires |result.leftEarResults| > 0 && |result.rightEarResults| > 0
    ensures p.customerData == customer
    ensures p.testResults == result.(overallAssessment := DisplayedSeverity(result))
    ensures |p.leftEarResults| > 0 && |p.rightEarResults| > 0
    ensures leftProp.None? ==> p.leftEarResults == result.leftEarResults
    ensures rightProp.None? ==> p.rightEarResults == result.rightEarResults
  {
    EmailPayload(customer, SentResult(result),
      PayloadEars(leftProp, result.leftEarResults), PayloadEars(rightProp, result.rightEarResults))
  }
}
