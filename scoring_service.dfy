/**
 * `calculateScores`: the nested loops that fill `typeScores` and the two counters, followed by
 * the breakdown and the classification.
 */
module ScoringService {
  import opened Wrappers
  import opened QuizData
  import opened Personality
  import opened ScoringTally
  import opened ScoreBreakdown

  /** `ScoringResult`; `breakdown` percentages are tenths of a percent. */
  datatype ScoringResult = ScoringResult(
    primaryType: PersonalityType,
    secondaryType: Option<PersonalityType>,
    isChameleon: bool,
    scores: map<string, int>,
    breakdown: seq<BreakdownEntry>,
    totalQuestions: nat,
    answeredQuestions: nat)

  const UnableToDetermine: string := "Unable to determine personality type"

  /** The part of `calculateScores` after the loops: breakdown, primary, secondary, chameleon,
      and the error thrown when no primary type is found. */
  function Classify(t: Tally): (r: Result<ScoringResult, string>)
    ensures r.Ok?
    ensures r.value.breakdown == Breakdown(t.scores, t.answered)
    ensures r.value.scores == t.scores
    ensures r.value.totalQuestions == t.total && r.value.answeredQuestions == t.answered
  {
    PrimaryIsTop(t.scores, t.answered);
    var b := Breakdown(t.scores, t.answered);
    match Primary(b)
    case None => Err(UnableToDetermine)
    case Some(p) => Ok(ScoringResult(p, Secondary(b), IsChameleon(b), t.scores, b, t.total, t.answered))
  }

  /** The whole of `calculateScores` as a function of its two inputs. */
  function ScoreAnswers(quiz: Quiz, answers: Answers): (r: Result<ScoringResult, string>)
    ensures r.Ok?
    ensures r.value.breakdown == Breakdown(r.value.scores, r.value.answeredQuestions)
  {
    Classify(TallyAnswers(quiz, answers))
  }

  /** What a caller of `calculateScores` may rely on: it never throws; the counters satisfy
      `answeredQuestions <= totalQuestions` with `totalQuestions` the input count of the answered
      steps that exist; the breakdown is `Breakdown` of the returned scores, so it lists the
      seven types, each once with its own score and percentage, in descending percentage with
      ties in declaration order; the primary type is the first entry's; the secondary type is present
      exactly when the second percentage is above 70; the chameleon flag is set exactly when at least three
      percentages exceed 30, the top one is below 40 and the second above 25, and a chameleon
      never has a secondary type. */
  lemma ScoreAnswersSpec(quiz: Quiz, answers: Answers)
    ensures ScoreAnswers(quiz, answers).Ok?
    ensures var r := ScoreAnswers(quiz, answers).value;
      && r.answeredQuestions <= r.totalQuestions
      && r.totalQuestions == AnsweredStepsInputCount(quiz.steps, answers, |quiz.steps|)
      && r.breakdown == Breakdown(r.scores, r.answeredQuestions)
      && |r.breakdown| == |TypeIds|
      && StablySorted(r.breakdown)
      && r.primaryType.id == r.breakdown[0].typeId
      && (r.secondaryType.Some? <==> r.breakdown[1].tenths > SecondaryThreshold)
      && (r.isChameleon <==> CountAbove(r.breakdown, ChameleonHighThreshold) >= 3
                              && r.breakdown[0].tenths < ChameleonPrimaryBelow
                              && r.breakdown[1].tenths > ChameleonSecondaryAbove)
      && (r.isChameleon ==> r.secondaryType.None?)
      && (forall id :: id in TypeIds ==> id in r.scores)
  {
    var t := TallyAnswers(quiz, answers);
    var b := Breakdown(t.scores, t.answered);
    var r := ScoreAnswers(quiz, answers).value;
    assert r.scores == t.scores && r.answeredQuestions == t.answered && r.totalQuestions == t.total;
    assert r.primaryType == Primary(b).value && r.secondaryType == Secondary(b) && r.isChameleon == IsChameleon(b);
    QuestionCounts(quiz, answers);
    ScoresCoverTypeIds(quiz, answers);
    BreakdownSorted(t.scores, t.answered);
    PrimaryIsTop(t.scores, t.answered);
    SecondaryIff(t.scores, t.answered);
    if IsChameleon(b) {
      ChameleonProfile(b);
    }
  }

  /** `PERSONALITY_TYPES.forEach(type => { typeScores[type.id] = 0; })`, over the list of ids
      it is given (called with `TypeIds`). */
  method ZeroScores(ids: seq<string>) returns (typeScores: map<string, int>)
    ensures typeScores == map id | id in ids :: 0
  {
    typeScores := map[];
    for i := 0 to |ids|
      invariant typeScores == map id | id in ids[..i] :: 0
    {
      assert ids[..i + 1] == ids[..i] + [ids[i]];
      typeScores := typeScores[ids[i] := 0];
    }
    assert ids[..|ids|] == ids;
  }

  /** `Object.entries(selectedOption.scores).forEach(...)`: each numeric weight is added to the
      score of its mapped key. */
  method AddOptionScores(typeScores: map<string, int>, weights: ScoreWeights) returns (updated: map<string, int>)
    ensures updated == AddWeights(typeScores, weights)
    ensures forall id :: ScoreOf(updated, id) == ScoreOf(typeScores, id) + WeightFor(weights, id)
  {
    updated := typeScores;
    for w := 0 to |weights|
      invariant updated == AddWeights(typeScores, weights[..w])
    {
      var (key, weight) := weights[w];
      if weight.Number? {
        var typeId := MapScoreKeyToTypeId(key);
        updated := updated[typeId := (if typeId in updated then updated[typeId] else 0) + weight.n];
      }
      assert weights[..w + 1][..w] == weights[..w];
    }
    assert weights[..|weights|] == weights;
    forall id | true ensures ScoreOf(updated, id) == ScoreOf(typeScores, id) + WeightFor(weights, id) {
      AddWeightsScores(typeScores, weights, id);
    }
  }

  /** `step.inputs.forEach(...)`: one more question per input, one more answered question per
      non-empty answer, and the selected option's weights added. */
  method ScoreStepInputs(t: Tally, inputs: seq<Input>, stepAnswers: StepAnswers) returns (after: Tally)
    ensures after == TallyInputs(t, inputs, stepAnswers)
    ensures after.total == t.total + |inputs|
    ensures after.answered == t.answered + AnsweredCount(inputs, stepAnswers)
  {
    var typeScores, total, answered := t.scores, t.total, t.answered;
    for j := 0 to |inputs|
      invariant Tally(typeScores, total, answered) == TallyInputs(t, inputs[..j], stepAnswers)
    {
      var input := inputs[j];
      total := total + 1;
      var answer := if input.name in stepAnswers then stepAnswers[input.name] else "";
      if answer != "" {
        answered := answered + 1;
        typeScores := AddOptionScores(typeScores, SelectedWeights(input, answer));
      }
      assert inputs[..j + 1][..j] == inputs[..j];
    }
    assert inputs[..|inputs|] == inputs;
    after := Tally(typeScores, total, answered);
    TallyInputsCounts(t, inputs, stepAnswers);
  }

  /** `calculateScores(quizData, answers)`. Answer-map keys are visited in ascending step order,
      which is the order `Object.entries` yields integer keys in; keys naming no step are skipped. */
  method CalculateScores(quiz: Quiz, answers: Answers) returns (r: Result<ScoringResult, string>)
    ensures r == ScoreAnswers(quiz, answers)
    ensures r.Ok?
    ensures r.value.answeredQuestions <= r.value.totalQuestions
    ensures r.value.totalQuestions == AnsweredStepsInputCount(quiz.steps, answers, |quiz.steps|)
    ensures |r.value.breakdown| == |TypeIds| && StablySorted(r.value.breakdown)
    ensures r.value.primaryType.id == r.value.breakdown[0].typeId
    ensures r.value.secondaryType.Some? <==> r.value.breakdown[1].tenths > SecondaryThreshold
    ensures r.value.breakdown == Breakdown(r.value.scores, r.value.answeredQuestions)
    ensures r.value.isChameleon <==> CountAbove(r.value.breakdown, ChameleonHighThreshold) >= 3
                                     && r.value.breakdown[0].tenths < ChameleonPrimaryBelow
                                     && r.value.breakdown[1].tenths > ChameleonSecondaryAbove
    ensures r.value.isChameleon ==> r.value.secondaryType.None?
  {
    var typeScores := ZeroScores(TypeIds);
    var t := Tally(typeScores, 0, 0);
    ghost var start := t;
    var k := 0;
    while k < |quiz.steps|
      invariant 0 <= k <= |quiz.steps|
      invariant t == TallySteps(start, quiz.steps, answers, k)
    {
      if k in answers {
        t := ScoreStepInputs(t, quiz.steps[k].inputs, answers[k]);
      }
      k := k + 1;
    }
    assert t == TallyAnswers(quiz, answers);
    r := Classify(t);
    assert r == ScoreAnswers(quiz, answers);
    ScoreAnswersSpec(quiz, answers);
  }
}
