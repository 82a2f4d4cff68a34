/** Properties of the results view, including where its scale meets the engine's. */
module ViewProperties {
  import opened RealMath
  import opened Wrappers
  import opened HearingTestData
  import opened ResultsView

  /** A higher percentage never shows a more severe class. */
  lemma SeverityMonotone(p: int, q: int)
    requires p <= q
    ensures AssessmentSeverity(q).Rank() <= AssessmentSeverity(p).Rank()
  {
  }

  /** A higher mean threshold never shows a better label. */
  lemma LevelMonotone(t1: real, t2: real)
    requires t1 <= t2
    ensures LevelOf(t1).Rank() <= LevelOf(t2).Rank()
  {
  }

  /** A higher threshold never shows a higher per-frequency percentage. */
  lemma DisplayPercentageAntitone(t1: real, t2: real)
    requires t1 <= t2
    ensures FrequencyDisplayPercentage(t2) <= FrequencyDisplayPercentage(t1)
  {
    RoundMonotone((1.0 - t2) * 100.0, (1.0 - t1) * 100.0);
  }

  /** The mean of a single threshold is that threshold. */
  lemma MeanOfOne(t: real)
    ensures Mean([t]) == t
  {
    assert [t][..0] == [];
    assert Sum([t]) == t;
  }

  /** For one sample, the per-frequency readout and the engine's percentage are complementary
      up to rounding: they add up to 100, or 101 when the engine's value sits on a half. */
  lemma DisplayComplementsEngine(frequency: real, t: real)
    ensures var sum := FrequencyDisplayPercentage(t) + HearingPercentage([Sample(frequency, t)]);
      sum == 100 || sum == 101
  {
    assert Thresholds([Sample(frequency, t)]) == [t];
    MeanOfOne(t);
  }

  /** The two classification schemes point in opposite directions: a subject who hears every
      tone at volume 0 and reports no trouble is normal for the engine but shown as severe
      loss, and one who needs full volume everywhere with a score of 100 is severe loss for
      the engine but shown as normal. */
  lemma ClassificationSchemesDisagree()
    ensures
      var quiet := [Sample(1000.0, 0.0)];
      var r := HearingTestResult(0, quiet, quiet, Normal, [], []);
      && OverallAssessment(0, quiet, quiet) == Normal
      && DisplayedSeverity(r) == SevereLoss
    ensures
      var loud := [Sample(1000.0, 1.0)];
      var r := HearingTestResult(100, loud, loud, SevereLoss, [], []);
      && OverallAssessment(100, loud, loud) == SevereLoss
      && DisplayedSeverity(r) == Normal
  {
    MeanOfOne(0.0);
    MeanOfOne(1.0);
    MeanOfConcat([0.0], [0.0]);
    MeanOfConcat([1.0], [1.0]);
    assert Thresholds([Sample(1000.0, 0.0)]) == [0.0];
    assert Thresholds([Sample(1000.0, 1.0)]) == [1.0];
    assert Thresholds([Sample(1000.0, 0.0)] + [Sample(1000.0, 0.0)]) == [0.0] + [0.0];
    assert Thresholds([Sample(1000.0, 1.0)] + [Sample(1000.0, 1.0)]) == [1.0] + [1.0];
  }

  /** The e-mailed result differs from the computed one in at most its assessment. */
  lemma SentResultChangesOnlyAssessment(result: HearingTestResult)
    requires |result.leftEarResults| > 0 && |result.rightEarResults| > 0
    ensures SentResult(result).(overallAssessment := result.overallAssessment) == result
    ensures SentResult(result) == result <==> result.overallAssessment == DisplayedSeverity(result)
  {
  }

  /** As written, the fallback to the result's lists never happens: a component given no
      ear-results prop sends an empty list even when the result holds samples. */
  lemma FallbackIsDead(prop: Option<seq<Sample>>, fromResult: seq<Sample>)
    ensures PayloadEarsAsWritten(None, fromResult) == []
    ensures prop.Some? ==> PayloadEarsAsWritten(prop, fromResult) == prop.value
  {
  }

  /** The payload as written and the corrected one send the same customer data and result;
      they part on an ear whose prop is missing while the result holds samples for it. */
  lemma PayloadsPartOnMissingProp<C>(
    customer: C, result: HearingTestResult,
    leftProp: Option<seq<Sample>>, rightProp: Option<seq<Sample>>)
    requires |result.leftEarResults| > 0 && |result.rightEarResults| > 0
    ensures EmailPayloadAsWritten(customer, result, leftProp, rightProp).testResults
         == EmailPayloadFor(customer, result, leftProp, rightProp).testResults
    ensures leftProp.None? ==>
      EmailPayloadAsWritten(customer, result, leftProp, rightProp).leftEarResults
      != EmailPayloadFor(customer, result, leftProp, rightProp).leftEarResults
    ensures rightProp.None? ==>
      EmailPayloadAsWritten(customer, result, leftProp, rightProp).rightEarResults
      != EmailPayloadFor(customer, result, leftProp, rightProp).rightEarResults
  {
  }
}
