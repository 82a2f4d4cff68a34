/** Properties of the scoring engine that relate several calls or hold for all inputs. */
module ScoringProperties {
  import opened RealMath
  import opened HearingTestData

  /** A list of `k` zero answers. */
  function Zeros(k: nat): (zs: seq<int>)
    ensures |zs| == k
    ensures forall i :: 0 <= i < k ==> zs[i] == 0
  {
    seq(k, _ => 0)
  }

  /** Two answers to one question compare in the same order as what they add to the score. */
  lemma ContributionMonotone(index: nat, x: int, y: int)
    requires index < QuestionCount && x <= y
    ensures Contribution(index, x) <= Contribution(index, y)
  {
  }

  /** A mean threshold of one half gives fifty percent: [0, 1] averages to 50. */
  lemma HalfwayIsFifty()
    ensures HearingPercentage([Sample(1000.0, 0.0), Sample(1000.0, 1.0)]) == 50
  {
    var rs := [Sample(1000.0, 0.0), Sample(1000.0, 1.0)];
    assert Thresholds(rs) == [0.0, 1.0];
    assert Sum([0.0, 1.0]) == 1.0 by {
      assert [0.0, 1.0][..1] == [0.0];
      assert [0.0][..0] == [];
    }
  }

  /** Which ear is passed as left does not matter to the overall percentage. */
  lemma OverallPercentageSymmetric(left: seq<Sample>, right: seq<Sample>)
    requires |left| > 0 && |right| > 0
    ensures OverallPercentage(left, right) == OverallPercentage(right, left)
  {
    var lp := HearingPercentage(left);
    var rp := HearingPercentage(right);
    assert (lp + rp) as real == (rp + lp) as real;
  }

  /** Measuring the same list for both ears gives that list's own percentage. */
  lemma SameEarTwice(results: seq<Sample>)
    requires |results| > 0
    ensures OverallPercentage(results, results) == HearingPercentage(results)
  {
    var p := HearingPercentage(results);
    assert (p + p) as real / 2.0 == p as real;
    RoundOfInt(p);
  }

  /** Changing one answer changes the score by exactly the change in that answer's
      contribution; an answer past the seventh changes nothing. */
  lemma {:induction false} ScoreUpdate(answers: seq<int>, index: nat, x: int)
    requires index < |answers|
    ensures TheoreticalScore(answers[index := x]) ==
      TheoreticalScore(answers) +
      (if index < QuestionCount then Contribution(index, x) - Contribution(index, answers[index]) else 0)
  {
    var n := |answers| - 1;
    var updated := answers[index := x];
    if index == n {
      assert updated[..n] == answers[..n];
    } else {
      assert updated[..n] == answers[..n][index := x];
      ScoreUpdate(answers[..n], index, x);
    }
  }

  /** Answers after the seventh are ignored: extending a complete answer list leaves the score alone. */
  lemma {:induction false} ScoreIgnoresExtraAnswers(answers: seq<int>, extra: seq<int>)
    requires |answers| >= QuestionCount
    ensures TheoreticalScore(answers + extra) == TheoreticalScore(answers)
  {
    if |extra| > 0 {
      var init := extra[..|extra| - 1];
      assert (answers + extra)[..|answers + extra| - 1] == answers + init;
      ScoreIgnoresExtraAnswers(answers, init);
    } else {
      assert answers + extra == answers;
    }
  }

  /** Missing answers count as zero: padding with zeros never changes the score. */
  lemma {:induction false} ScorePaddedWithZeros(answers: seq<int>, k: nat)
    ensures TheoreticalScore(answers + Zeros(k)) == TheoreticalScore(answers)
  {
    if k > 0 {
      var padded := answers + Zeros(k);
      assert padded[..|padded| - 1] == answers + Zeros(k - 1);
      ScorePaddedWithZeros(answers, k - 1);
    } else {
      assert answers + Zeros(0) == answers;
    }
  }

  /** One more answer among the first seven adds its contribution. */
  lemma ScoreStep(answers: seq<int>, k: nat)
    requires k < |answers| && k < QuestionCount
    ensures TheoreticalScore(answers[..k + 1]) == TheoreticalScore(answers[..k]) + Contribution(k, answers[k])
  {
    assert answers[..k + 1][..k] == answers[..k];
  }

  /** For a full answer list the score is the weighted sum 5,4,4,5,4 and 4 of the graded
      answers, plus 3 when the ear-preference answer is any non-zero option. */
  lemma ScoreClosedForm(a: seq<int>)
    requires |a| == QuestionCount
    ensures TheoreticalScore(a) ==
      5 * a[0] + 4 * a[1] + 4 * a[2] + 5 * a[3] + 4 * a[4] + (if a[5] > 0 then 3 else 0) + 4 * a[6]
  {
    assert a[..0] == [];
    var k := 0;
    while k < QuestionCount
      invariant 0 <= k <= QuestionCount
      invariant TheoreticalScore(a[..k]) == PartialClosedForm(a, k)
    {
      ScoreStep(a, k);
      k := k + 1;
    }
    assert a[..7] == a;
    assert PartialClosedForm(a, 1) == 5 * a[0];
    assert PartialClosedForm(a, 2) == 5 * a[0] + 4 * a[1];
    assert PartialClosedForm(a, 3) == 5 * a[0] + 4 * a[1] + 4 * a[2];
    assert PartialClosedForm(a, 4) == 5 * a[0] + 4 * a[1] + 4 * a[2] + 5 * a[3];
    assert PartialClosedForm(a, 5) == 5 * a[0] + 4 * a[1] + 4 * a[2] + 5 * a[3] + 4 * a[4];
  }

  /** The closed form restricted to the first `k` answers. */
  function PartialClosedForm(a: seq<int>, k: nat): int
    requires k <= |a| && k <= QuestionCount
  {
    if k == 0 then 0 else
      var i := k - 1;
      PartialClosedForm(a, i) + (if i == EarPreferenceIndex then (if a[i] > 0 then 3 else 0) else a[i] * [5, 4, 4, 5, 4, 3, 4][i])
  }

  /** Four in every graded question and option 1 ("Left") in the ear-preference question score 107. */
  lemma ScoreExample()
    ensures TheoreticalScore([4, 4, 4, 4, 4, 1, 4]) == 107
  {
    ScoreClosedForm([4, 4, 4, 4, 4, 1, 4]);
  }

  /** The ear-preference answer adds its full weight 3 when it is positive and 0 otherwise,
      whatever its magnitude. */
  lemma EarPreferenceIsPresence(answers: seq<int>, x: int)
    requires |answers| > EarPreferenceIndex
    ensures TheoreticalScore(answers[EarPreferenceIndex := x]) ==
      TheoreticalScore(answers[EarPreferenceIndex := 0]) + (if x > 0 then 3 else 0)
  {
    var zeroed := answers[EarPreferenceIndex := 0];
    assert answers[EarPreferenceIndex := x] == zeroed[EarPreferenceIndex := x];
    ScoreUpdate(zeroed, EarPreferenceIndex, x);
  }

  /** Every other answer among the first seven adds answer times its question's weight. */
  lemma GradedAnswerScalesByWeight(answers: seq<int>, index: nat, x: int)
    requires index < |answers| && index < QuestionCount && index != EarPreferenceIndex
    ensures TheoreticalScore(answers[index := x]) ==
      TheoreticalScore(answers[index := 0]) + x * TheoreticalQuestions()[index].weight
  {
    var zeroed := answers[index := 0];
    assert answers[index := x] == zeroed[index := x];
    ScoreUpdate(zeroed, index, x);
  }

  /** Raising any answers never lowers the score. */
  lemma {:induction false} ScoreMonotone(a: seq<int>, b: seq<int>)
    requires |a| == |b|
    requires forall i :: 0 <= i < |a| ==> a[i] <= b[i]
    ensures TheoreticalScore(a) <= TheoreticalScore(b)
  {
    if |a| > 0 {
      var n := |a| - 1;
      assert forall i :: 0 <= i < n ==> a[..n][i] == a[i] && b[..n][i] == b[i];
      ScoreMonotone(a[..n], b[..n]);
      if n < QuestionCount {
        ContributionMonotone(n, a[n], b[n]);
      }
    }
  }

  /** Higher thresholds (pointwise, same list lengths) and a higher questionnaire score
      never yield a milder overall assessment. */
  lemma OverallAssessmentMonotone(
    score1: int, left1: seq<Sample>, right1: seq<Sample>,
    score2: int, left2: seq<Sample>, right2: seq<Sample>)
    requires |left1| + |right1| > 0
    requires score1 <= score2
    requires PointwiseLe(Thresholds(left1), Thresholds(left2))
    requires PointwiseLe(Thresholds(right1), Thresholds(right2))
    ensures OverallAssessment(score1, left1, right1).Rank() <= OverallAssessment(score2, left2, right2).Rank()
  {
    var all1 := Thresholds(left1 + right1);
    var all2 := Thresholds(left2 + right2);
    assert all1 == Thresholds(left1) + Thresholds(right1);
    assert all2 == Thresholds(left2) + Thresholds(right2);
    assert PointwiseLe(all1, all2);
    MeanMonotone(all1, all2);
  }

  /** The normal rule uses a strict `< 15`: a mean threshold of exactly 0.1875 (loss 15)
      with score 29 is already mild loss, and 0.18 with score 29 is normal; score 31 at
      0.1875 is mild loss through the threshold leg of the second rule. */
  lemma NormalBoundary()
    ensures OverallAssessment(29, [Sample(1000.0, 0.1875)], [Sample(1000.0, 0.1875)]) == MildLoss
    ensures OverallAssessment(31, [Sample(1000.0, 0.1875)], [Sample(1000.0, 0.1875)]) == MildLoss
    ensures OverallAssessment(29, [Sample(1000.0, 0.18)], [Sample(1000.0, 0.18)]) == Normal
  {
    MeanOfConcat([0.1875], [0.1875]);
    MeanOfConcat([0.18], [0.18]);
    assert Sum([0.1875]) == 0.1875 by { assert [0.1875][..0] == []; }
    assert Sum([0.18]) == 0.18 by { assert [0.18][..0] == []; }
    assert Thresholds([Sample(1000.0, 0.1875)] + [Sample(1000.0, 0.1875)]) == [0.1875] + [0.1875];
    assert Thresholds([Sample(1000.0, 0.18)] + [Sample(1000.0, 0.18)]) == [0.18] + [0.18];
  }

  /** When both ears have the same number of samples, the rounded overall percentage is
      within one point of the combined mean threshold that the assessment uses, times 100. */
  lemma OverallPercentageTracksAverage(left: seq<Sample>, right: seq<Sample>)
    requires |left| == |right| > 0
    ensures -1.0 <= OverallPercentage(left, right) as real - AverageThreshold(left, right) * 100.0 <= 1.0
  {
    var tl := Thresholds(left);
    var tr := Thresholds(right);
    assert Thresholds(left + right) == tl + tr;
    MeanOfConcat(tl, tr);
  }

  /** The four classes receive four different recommendation lists. */
  lemma RecommendationsDistinguishClasses(a: Assessment, b: Assessment)
    requires a != b
    ensures Recommendations(a) != Recommendations(b)
  {
    if {a, b} == {MildLoss, ModerateLoss} {
      assert |MildAdvice[0]| != |ModerateAdvice[0]|;
    }
  }
}
