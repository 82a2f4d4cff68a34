/** The scoring engine of the hearing self-test (lib/hearing-test-data.ts): pure functions
    that turn questionnaire answers and per-ear thresholds into a percentage, a four-level
    assessment and fixed guidance text.

    A threshold is the normalised playback volume (0 to 1) at which the subject first heard
    the tone. The source's comments disagree on its direction; the model states only what the
    arithmetic does: `HearingPercentage` grows with the thresholds, and so does the severity
    that `OverallAssessment` assigns. */
module HearingTestData {
  import opened RealMath

  /** The four screening outcomes, from no loss to severe loss. */
  datatype Assessment = Normal | MildLoss | ModerateLoss | SevereLoss {

    /** Position on the severity scale: 0 for normal up to 3 for severe loss. */
    function Rank(): nat {
      match this
      case Normal => 0
      case MildLoss => 1
      case ModerateLoss => 2
      case SevereLoss => 3
    }
  }

  /** One measured point of an ear: the tone frequency in Hz and the threshold volume. */
  datatype Sample = Sample(frequency: real, threshold: real)

  /** A questionnaire item; an answer is an index into `options`. */
  datatype Question = Question(id: string, question: string, options: seq<string>, weight: int)

  /** The record the engine hands to the results view and the e-mail collaborator. */
  datatype HearingTestResult = HearingTestResult(
    theoreticalScore: int,
    leftEarResults: seq<Sample>,
    rightEarResults: seq<Sample>,
    overallAssessment: Assessment,
    recommendations: seq<string>,
    hearingTips: seq<string>)

  /** The number of scored questions. */
  const QuestionCount := 7

  /** The index of the ear-preference question ("q6"), which is scored as present or absent. */
  const EarPreferenceIndex := 5

  /** The how-often answer scale shared by the graded questions, least trouble first. */
  const OccurrenceScale: seq<string> := ["Never", "Rarely", "Occasionally", "Often", "Always"]

  /** The seven weighted questions, in the order their answers arrive. */
  function TheoreticalQuestions(): (qs: seq<Question>)
    ensures |qs| == QuestionCount
    ensures forall i :: 0 <= i < |qs| ==> qs[i].weight == [5, 4, 4, 5, 4, 3, 4][i]
    ensures forall i :: 0 <= i < |qs| ==> (qs[i].id == "q6" <==> i == EarPreferenceIndex)
    ensures forall i :: 0 <= i < |qs| ==> |qs[i].options| == if i == EarPreferenceIndex then 3 else 5
  {
    [ Question("q1", Q1Text, SelfRatingScale, 5),
      Question("q2", Q2Text, OccurrenceScale, 4),
      Question("q3", Q3Text, OccurrenceScale, 4),
      Question("q4", Q4Text, OccurrenceScale, 5),
      Question("q5", Q5Text, OccurrenceScale, 4),
      Question("q6", Q6Text, EarPreferenceOptions, 3),
      Question("q7", Q7Text, OccurrenceScale, 4) ]
  }

  const SelfRatingScale: seq<string> :=
    ["Excellent", "Good", "I have a little trouble", "I have some trouble", "I have a lot of trouble"]
  const EarPreferenceOptions: seq<string> := ["Both about the same", "Left", "Right"]
  const Q1Text := "How would you describe your hearing?"
  const Q2Text := "In conversations in a quiet environment, do people seem to mumble?"
  const Q3Text := "Do you find it hard to have a conversation on the phone?"
  const Q4Text :=
    "Do you find it hard to follow conversations in a noisy environment? (such as in noisy restaurants or in a crowd)"
  const Q5Text := "Do you often ask people to repeat themselves?"
  const Q6Text := "Do you feel like one ear hears significantly better than the other one? If so, which one?"
  const Q7Text := "Do you have difficulty hearing the television or radio at normal volume?"

  /** The standard audiometric test frequencies in Hz, lowest first. */
  function TestFrequencies(): (fs: seq<real>)
    ensures |fs| == 7
    ensures fs[0] == 50.0 && fs[|fs| - 1] == 8000.0
    ensures forall i, j :: 0 <= i < j < |fs| ==> fs[i] < fs[j]
  {
    [50.0, 250.0, 500.0, 1000.0, 2000.0, 4000.0, 8000.0]
  }

  /** The threshold volumes of a result list, in order. */
  function Thresholds(results: seq<Sample>): (ts: seq<real>)
    ensures |ts| == |results|
    ensures forall i :: 0 <= i < |results| ==> ts[i] == results[i].threshold
  {
    seq(|results|, i requires 0 <= i < |results| => results[i].threshold)
  }

  /** Every threshold of the list lies in [0, 1]. */
  predicate ValidResults(results: seq<Sample>) {
    InUnit(Thresholds(results))
  }

  /** `calculateHearingPercentages`: the mean threshold as a whole-number percentage. */
  function HearingPercentage(results: seq<Sample>): (p: int)
    requires |results| > 0
    ensures p as real - 0.5 <= Mean(Thresholds(results)) * 100.0 < p as real + 0.5
    ensures ValidResults(results) ==> 0 <= p <= 100
  {
    var avg := Mean(Thresholds(results));
    if ValidResults(results) then RoundPercent(avg * 100.0); Round(avg * 100.0)
    else Round(avg * 100.0)
  }

  /** `calculateOverallPercentage`: the rounded mean of the two per-ear percentages. */
  function OverallPercentage(left: seq<Sample>, right: seq<Sample>): (p: int)
    requires |left| > 0 && |right| > 0
    ensures ValidResults(left) && ValidResults(right) ==> 0 <= p <= 100
  {
    Round((HearingPercentage(left) + HearingPercentage(right)) as real / 2.0)
  }

  /** What answer `answer` to question `index` adds to the questionnaire score. */
  function Contribution(index: nat, answer: int): (c: int)
    requires index < QuestionCount
    ensures index == EarPreferenceIndex ==> c == if answer > 0 then 3 else 0
    ensures index != EarPreferenceIndex ==> c == answer * [5, 4, 4, 5, 4, 3, 4][index]
  {
    var q := TheoreticalQuestions()[index];
    if q.id == "q6" then (if answer > 0 then q.weight else 0) else answer * q.weight
  }

  /** Every answer is a non-negative option index. */
  predicate NonNegativeAnswers(answers: seq<int>) {
    forall i :: 0 <= i < |answers| ==> answers[i] >= 0
  }

  /** `calculateTheoreticalScore`, as the fold its `forEach` performs: answers beyond the
      seventh are skipped and absent answers add nothing. */
  function TheoreticalScore(answers: seq<int>): (score: int)
    ensures NonNegativeAnswers(answers) ==> score >= 0
  {
    if |answers| == 0 then 0
    else
      var index := |answers| - 1;
      var init := answers[..index];
      assert NonNegativeAnswers(answers) ==> NonNegativeAnswers(init) by {
        assert forall i :: 0 <= i < index ==> init[i] == answers[i];
      }
      TheoreticalScore(init) + (if index < QuestionCount then Contribution(index, answers[index]) else 0)
  }

  /** The `forEach` loop of `calculateTheoreticalScore`, run over the answers in order. */
  method CalculateTheoreticalScore(answers: seq<int>) returns (totalScore: int)
    ensures totalScore == TheoreticalScore(answers)
    ensures NonNegativeAnswers(answers) ==> totalScore >= 0
  {
    totalScore := 0;
    var index := 0;
    while index < |answers|
      invariant 0 <= index <= |answers|
      invariant totalScore == TheoreticalScore(answers[..index])
    {
      assert answers[..index + 1][..index] == answers[..index];
      if index < QuestionCount {
        totalScore := totalScore + Contribution(index, answers[index]);
      }
      index := index + 1;
    }
    assert answers[..index] == answers;
  }

  /** The mean threshold over both ears, every sample weighted alike. */
  function AverageThreshold(left: seq<Sample>, right: seq<Sample>): (avg: real)
    requires |left| + |right| > 0
    ensures ValidResults(left) && ValidResults(right) ==> 0.0 <= avg <= 1.0
  {
    var all := Thresholds(left + right);
    if ValidResults(left) && ValidResults(right) then
      assert all == Thresholds(left) + Thresholds(right);
      Mean(all)
    else Mean(all)
  }

  /** `calculateOverallAssessment`: the mean threshold over both ears times 80 is the
      estimated loss, the score over 100 the questionnaire factor. The first rule needs both
      signals low, each later rule only one, so every class is characterised as below. */
  function OverallAssessment(theoreticalScore: int, left: seq<Sample>, right: seq<Sample>): (a: Assessment)
    requires |left| + |right| > 0
    ensures var loss := AverageThreshold(left, right) * 80.0;
            var factor := theoreticalScore as real / 100.0;
      && (a == Normal <==> loss < 15.0 && factor < 0.3)
      && (a == MildLoss <==> !(loss < 15.0 && factor < 0.3) && (loss < 30.0 || factor < 0.5))
      && (a == ModerateLoss <==> loss >= 30.0 && factor >= 0.5 && (loss < 55.0 || factor < 0.7))
      && (a == SevereLoss <==> loss >= 55.0 && factor >= 0.7)
  {
    var estimatedLoss := AverageThreshold(left, right) * 80.0;
    var theoreticalFactor := theoreticalScore as real / 100.0;
    if estimatedLoss < 15.0 && theoreticalFactor < 0.3 then Normal
    else if estimatedLoss < 30.0 || theoreticalFactor < 0.5 then MildLoss
    else if estimatedLoss < 55.0 || theoreticalFactor < 0.7 then ModerateLoss
    else SevereLoss
  }

  /** `generateRecommendations`: a fixed list per assessment. */
  function Recommendations(assessment: Assessment): (rs: seq<string>)
    ensures |rs| == match assessment
      case Normal => 4
      case MildLoss => 5
      case ModerateLoss => 5
      case SevereLoss => 6
  {
    match assessment
    case Normal => NormalAdvice
    case MildLoss => MildAdvice
    case ModerateLoss => ModerateAdvice
    case SevereLoss => SevereAdvice
  }

  const NormalAdvice: seq<string> := [
    "Your hearing appears to be within normal range.",
    "Continue to protect your hearing from loud noises and use hearing protection when necessary.",
    "Schedule regular hearing check-ups every 2-3 years to monitor your hearing health.",
    "Maintain a healthy lifestyle with proper nutrition and exercise to support overall ear health."]

  const MildAdvice: seq<string> := [
    "Your results suggest mild hearing loss in certain frequencies.",
    "We recommend scheduling a comprehensive audiological evaluation with our certified audiologists.",
    "Early intervention can prevent further hearing deterioration and improve quality of life.",
    "Consider using hearing protection in noisy environments to prevent additional damage.",
    "Modern hearing aids can significantly improve your hearing in challenging listening situations."]

  const ModerateAdvice: seq<string> := [
    "Your results indicate moderate hearing loss that may be affecting your daily communication.",
    "We strongly recommend scheduling an appointment with our audiologists for a complete evaluation.",
    "Hearing aids are highly recommended and can dramatically improve your quality of life.",
    "Our audiologists can help you find the perfect hearing solution tailored to your lifestyle.",
    "Don't delay - addressing hearing loss early leads to better outcomes and adaptation."]

  const SevereAdvice: seq<string> := [
    "Your results suggest significant hearing challenges that require immediate professional attention.",
    "Please schedule an appointment with our audiologists as soon as possible for a comprehensive evaluation.",
    "Advanced hearing aid technology or cochlear implants may be appropriate solutions for you.",
    "Untreated hearing loss can lead to social isolation and cognitive decline - early treatment is crucial.",
    "We offer free consultations and can help you explore all available treatment options.",
    "Our team specializes in severe hearing loss and can provide the support you need."]

  /** `generateHearingTips`: the same ten tips for every result. */
  function HearingTips(): (ts: seq<string>)
    ensures |ts| == 10
  {
    Tips
  }

  const Tips: seq<string> := [
    "Protect Your Ears: Use earplugs or earmuffs in noisy environments (concerts, construction sites, loud machinery).",
    "Lower the Volume: Keep personal audio devices at 60% volume or lower and take listening breaks every hour.",
    "Maintain Ear Hygiene: Keep ears clean and dry. Never insert cotton swabs deep into the ear canal.",
    "Exercise Regularly: Good cardiovascular health improves blood flow to the ears and supports hearing health.",
    "Eat a Balanced Diet: Foods rich in omega-3 fatty acids, vitamins A, C, and E support ear health.",
    "Avoid Smoking: Smoking restricts blood flow to the ears and increases risk of hearing loss.",
    "Manage Stress: Chronic stress can affect hearing. Practice relaxation techniques and get adequate sleep.",
    "Regular Check-ups: Schedule annual hearing tests, especially if you're over 50 or work in noisy environments.",
    "Stay Alert to Warning Signs: Ringing in ears (tinnitus), muffled sounds, or difficulty understanding speech warrant immediate attention.",
    "Use Assistive Devices: Don't hesitate to use hearing aids if recommended - they significantly improve quality of life."]
}
