/**
 * The accumulation half of `calculateScores`: per-type score totals and the two question
 * counters, as functions folded over the quiz in the order the source visits it.
 */
module ScoringTally {
  import opened Wrappers
  import opened QuizData
  import opened Personality

  /** The running state of the scoring loops: `typeScores`, `totalQuestions`, `answeredQuestions`. */
  datatype Tally = Tally(scores: map<string, int>, total: nat, answered: nat)

  /** `typeScores[id] || 0`. */
  function ScoreOf(scores: map<string, int>, id: string): int {
    if id in scores then scores[id] else 0
  }

  /** Every declared type id starts at 0, and no other key is present. */
  function InitialScores(): (scores: map<string, int>)
    ensures scores.Keys == set id | id in TypeIds
    ensures forall id :: id in TypeIds ==> scores[id] == 0
  {
    map id | id in TypeIds :: 0
  }

  // ---------------------------------------------------------------------------------------------
  // Adding an option's weights

  /** One entry of `Object.entries(selectedOption.scores)`: a number is added under the mapped
      key, anything else is skipped. */
  function AddWeight(scores: map<string, int>, w: (string, Weight)): map<string, int> {
    if w.1.Number? then
      var id := MapScoreKeyToTypeId(w.0);
      scores[id := ScoreOf(scores, id) + w.1.n]
    else scores
  }

  /** All entries of an option's `scores`, in enumeration order. */
  function AddWeights(scores: map<string, int>, ws: ScoreWeights): map<string, int>
  {
    if ws == [] then scores else AddWeight(AddWeights(scores, ws[..|ws| - 1]), ws[|ws| - 1])
  }

  /** Reference definition: the sum of the numeric weights whose key maps to `id`. */
  function WeightFor(ws: ScoreWeights, id: string): int
  {
    if ws == [] then 0
    else
      var w := ws[|ws| - 1];
      WeightFor(ws[..|ws| - 1], id) + (if w.1.Number? && MapScoreKeyToTypeId(w.0) == id then w.1.n else 0)
  }

  /** The keys an option's weights introduce: the mapped keys of its numeric entries. */
  function WeightKeys(ws: ScoreWeights): set<string>
  {
    if ws == [] then {}
    else
      var w := ws[|ws| - 1];
      WeightKeys(ws[..|ws| - 1]) + (if w.1.Number? then {MapScoreKeyToTypeId(w.0)} else {})
  }

  /** Adding weights raises each type's score by exactly the sum of its numeric weights, after
      display names are mapped to ids. */
  lemma {:induction false} AddWeightsScores(scores: map<string, int>, ws: ScoreWeights, id: string)
    ensures ScoreOf(AddWeights(scores, ws), id) == ScoreOf(scores, id) + WeightFor(ws, id)
  {
    if ws != [] {
      AddWeightsScores(scores, ws[..|ws| - 1], id);
    }
  }

  /** Adding weights adds exactly the mapped keys of the numeric entries to the dictionary. */
  lemma {:induction false} AddWeightsKeys(scores: map<string, int>, ws: ScoreWeights)
    ensures AddWeights(scores, ws).Keys == scores.Keys + WeightKeys(ws)
  {
    if ws != [] {
      AddWeightsKeys(scores, ws[..|ws| - 1]);
    }
  }

  // ---------------------------------------------------------------------------------------------
  // Finding the selected option

  /** The match test of `input.options?.find(...)`: a string option must equal the answer, a
      record option matches on its label or its value. */
  predicate OptionMatches(o: OptionItem, answer: string) {
    match o
    case PlainOption(t) => t == answer
    case Choice(l, v, _) => l == answer || v == answer
  }

  /** The index of the first option that matches the answer. */
  function FindOption(options: seq<OptionItem>, answer: string): (r: Option<nat>)
    ensures r.Some? ==> r.value < |options| && OptionMatches(options[r.value], answer)
    ensures r.Some? ==> forall j :: 0 <= j < r.value ==> !OptionMatches(options[j], answer)
    ensures r.None? <==> forall j :: 0 <= j < |options| ==> !OptionMatches(options[j], answer)
  {
    if options == [] then None
    else if OptionMatches(options[0], answer) then Some(0)
    else
      match FindOption(options[1..], answer)
      case None => None
      case Some(k) => Some(k + 1)
  }

  /** The weights the answer selects: those of the first matching option when it is a record
      that carries `scores`, and none otherwise. */
  function SelectedWeights(input: Input, answer: string): (ws: ScoreWeights)
    ensures ws != [] ==> input.options.Some? && FindOption(input.options.value, answer).Some?
    ensures ws != [] ==> var o := input.options.value[FindOption(input.options.value, answer).value];
              o.Choice? && o.scores == Some(ws)
  {
    if input.options.None? then []
    else
      match FindOption(input.options.value, answer)
      case None => []
      case Some(k) =>
        var o := input.options.value[k];
        if o.Choice? && o.scores.Some? then o.scores.value else []
  }

  // ---------------------------------------------------------------------------------------------
  // The loops

  /** `stepAnswers[input.name]`, with a missing entry read as the empty string (both are falsy). */
  function AnswerFor(input: Input, stepAnswers: StepAnswers): string {
    if input.name in stepAnswers then stepAnswers[input.name] else ""
  }

  /** One iteration of the inner `forEach` over a step's inputs. */
  function TallyInput(t: Tally, input: Input, stepAnswers: StepAnswers): Tally {
    var answer := AnswerFor(input, stepAnswers);
    if answer == "" then t.(total := t.total + 1)
    else Tally(AddWeights(t.scores, SelectedWeights(input, answer)), t.total + 1, t.answered + 1)
  }

  /** The inner `forEach` over `inputs`, in order. */
  function TallyInputs(t: Tally, inputs: seq<Input>, stepAnswers: StepAnswers): Tally {
    if inputs == [] then t
    else TallyInput(TallyInputs(t, inputs[..|inputs| - 1], stepAnswers), inputs[|inputs| - 1], stepAnswers)
  }

  /** The outer loop over the answered steps among the first `n`: an answer-map key that does
      not name a step of the quiz is skipped. */
  function TallySteps(t: Tally, steps: seq<Step>, answers: Answers, n: nat): Tally
    requires n <= |steps|
  {
    if n == 0 then t
    else
      var before := TallySteps(t, steps, answers, n - 1);
      if n - 1 in answers then TallyInputs(before, steps[n - 1].inputs, answers[n - 1]) else before
  }

  /** The accumulated state once every answered step has been processed. */
  function TallyAnswers(quiz: Quiz, answers: Answers): Tally {
    TallySteps(Tally(InitialScores(), 0, 0), quiz.steps, answers, |quiz.steps|)
  }

  // ---------------------------------------------------------------------------------------------
  // Counting

  /** Reference count: how many of `inputs` have a non-empty answer. */
  function AnsweredCount(inputs: seq<Input>, stepAnswers: StepAnswers): nat {
    if inputs == [] then 0
    else AnsweredCount(inputs[..|inputs| - 1], stepAnswers)
         + (if AnswerFor(inputs[|inputs| - 1], stepAnswers) != "" then 1 else 0)
  }

  /** Reference count: the inputs of those among the first `n` steps that have an answer entry. */
  function AnsweredStepsInputCount(steps: seq<Step>, answers: Answers, n: nat): nat
    requires n <= |steps|
  {
    if n == 0 then 0
    else AnsweredStepsInputCount(steps, answers, n - 1) + (if n - 1 in answers then |steps[n - 1].inputs| else 0)
  }

  /** A step adds one question per input, and one answered question per non-empty answer. */
  lemma {:induction false} TallyInputsCounts(t: Tally, inputs: seq<Input>, sa: StepAnswers)
    ensures TallyInputs(t, inputs, sa).total == t.total + |inputs|
    ensures TallyInputs(t, inputs, sa).answered == t.answered + AnsweredCount(inputs, sa)
    ensures AnsweredCount(inputs, sa) <= |inputs|
  {
    if inputs != [] {
      TallyInputsCounts(t, inputs[..|inputs| - 1], sa);
    }
  }

  /** `totalQuestions` grows by the input counts of exactly the steps that are both in the quiz
      and in the answer map, and `answeredQuestions` never grows faster. */
  lemma {:induction false} TallyStepsCounts(t: Tally, steps: seq<Step>, answers: Answers, n: nat)
    requires n <= |steps|
    ensures TallySteps(t, steps, answers, n).total == t.total + AnsweredStepsInputCount(steps, answers, n)
    ensures t.answered <= TallySteps(t, steps, answers, n).answered
    ensures TallySteps(t, steps, answers, n).answered - t.answered
            <= TallySteps(t, steps, answers, n).total - t.total
  {
    if n > 0 {
      TallyStepsCounts(t, steps, answers, n - 1);
      if n - 1 in answers {
        TallyInputsCounts(TallySteps(t, steps, answers, n - 1), steps[n - 1].inputs, answers[n - 1]);
      }
    }
  }

  /** `answeredQuestions <= totalQuestions`, and `totalQuestions` is the number of inputs of the
      answered steps that exist; indices with no step are ignored. */
  lemma QuestionCounts(quiz: Quiz, answers: Answers)
    ensures TallyAnswers(quiz, answers).answered <= TallyAnswers(quiz, answers).total
    ensures TallyAnswers(quiz, answers).total == AnsweredStepsInputCount(quiz.steps, answers, |quiz.steps|)
  {
    TallyStepsCounts(Tally(InitialScores(), 0, 0), quiz.steps, answers, |quiz.steps|);
  }

  /** Answer-map keys that name no step have no effect at all. */
  lemma {:induction false} UnknownStepsIgnored(steps: seq<Step>, answers: Answers, k: int, sa: StepAnswers, t: Tally, n: nat)
    requires n <= |steps|
    requires k < 0 || k >= |steps|
    ensures TallySteps(t, steps, answers[k := sa], n) == TallySteps(t, steps, answers, n)
  {
    if n > 0 {
      UnknownStepsIgnored(steps, answers, k, sa, t, n - 1);
    }
  }

  // ---------------------------------------------------------------------------------------------
  // Answers that add nothing

  /** A missing or empty answer counts the question and nothing else. */
  lemma BlankAnswerCountsOnlyQuestion(t: Tally, input: Input, sa: StepAnswers)
    requires input.name !in sa || sa[input.name] == ""
    ensures TallyInput(t, input, sa) == Tally(t.scores, t.total + 1, t.answered)
  {
  }

  /** A step whose answers are all blank leaves every score and `answeredQuestions` unchanged. */
  lemma {:induction false} BlankStepLeavesScores(t: Tally, inputs: seq<Input>, sa: StepAnswers)
    requires forall i :: 0 <= i < |inputs| ==> AnswerFor(inputs[i], sa) == ""
    ensures TallyInputs(t, inputs, sa) == Tally(t.scores, t.total + |inputs|, t.answered)
  {
    if inputs != [] {
      BlankStepLeavesScores(t, inputs[..|inputs| - 1], sa);
    }
  }

  /** A non-empty answer that matches no option, matches a plain-string option, or matches a
      record without `scores` counts as answered but adds nothing to any score. */
  lemma AnswerWithoutWeightsAddsNothing(t: Tally, input: Input, sa: StepAnswers)
    requires AnswerFor(input, sa) != ""
    requires || input.options.None?
             || FindOption(input.options.value, AnswerFor(input, sa)).None?
             || input.options.value[FindOption(input.options.value, AnswerFor(input, sa)).value].PlainOption?
             || input.options.value[FindOption(input.options.value, AnswerFor(input, sa)).value].scores.None?
    ensures TallyInput(t, input, sa) == Tally(t.scores, t.total + 1, t.answered + 1)
  {
  }

  /** A non-empty answer raises each type's score by the weights of the first option whose label
      or value equals it. */
  lemma AnswerAddsSelectedWeights(t: Tally, input: Input, sa: StepAnswers, id: string)
    requires AnswerFor(input, sa) != ""
    ensures TallyInput(t, input, sa).answered == t.answered + 1
    ensures ScoreOf(TallyInput(t, input, sa).scores, id)
            == ScoreOf(t.scores, id) + WeightFor(SelectedWeights(input, AnswerFor(input, sa)), id)
  {
    AddWeightsScores(t.scores, SelectedWeights(input, AnswerFor(input, sa)), id);
  }

  // ---------------------------------------------------------------------------------------------
  // Keys of the score dictionary

  /** Scoring only ever adds keys: every declared type id stays present. */
  lemma {:induction false} TallyInputsKeepsKeys(t: Tally, inputs: seq<Input>, sa: StepAnswers)
    ensures t.scores.Keys <= TallyInputs(t, inputs, sa).scores.Keys
  {
    if inputs != [] {
      var before := TallyInputs(t, inputs[..|inputs| - 1], sa);
      TallyInputsKeepsKeys(t, inputs[..|inputs| - 1], sa);
      var answer := AnswerFor(inputs[|inputs| - 1], sa);
      if answer != "" {
        AddWeightsKeys(before.scores, SelectedWeights(inputs[|inputs| - 1], answer));
      }
    }
  }

  lemma {:induction false} TallyStepsKeepsKeys(t: Tally, steps: seq<Step>, answers: Answers, n: nat)
    requires n <= |steps|
    ensures t.scores.Keys <= TallySteps(t, steps, answers, n).scores.Keys
  {
    if n > 0 {
      TallyStepsKeepsKeys(t, steps, answers, n - 1);
      if n - 1 in answers {
        TallyInputsKeepsKeys(TallySteps(t, steps, answers, n - 1), steps[n - 1].inputs, answers[n - 1]);
      }
    }
  }

  /** Every declared type id is a key of the final `scores`; other keys may appear too. */
  lemma ScoresCoverTypeIds(quiz: Quiz, answers: Answers)
    ensures forall id :: id in TypeIds ==> id in TallyAnswers(quiz, answers).scores
  {
    TallyStepsKeepsKeys(Tally(InitialScores(), 0, 0), quiz.steps, answers, |quiz.steps|);
  }

  /** With no answers at all nothing is counted and every score is still 0. */
  lemma {:induction false} NoAnswersNoScores(steps: seq<Step>, t: Tally, n: nat)
    requires n <= |steps|
    ensures TallySteps(t, steps, map[], n) == t
  {
    if n > 0 { NoAnswersNoScores(steps, t, n - 1); }
  }
}
