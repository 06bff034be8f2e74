/**
 * `useQuiz`: the quiz viewer's state while a visitor takes a quiz — the loaded quiz, the form
 * values, the current step, the session id the server handed out, and whether the last step was
 * submitted. The URL, `fetch` and the server's answers are parameters of the handlers.
 */
module UseQuiz {
  import opened Wrappers
  import opened QuizData
  import opened Text
  import ScoringTally
  import QuizRoutes

  const NoQuizId: string := "No quiz ID provided. Please add ?quiz_id=YOUR_QUIZ_ID to the URL."

  /** What `fetch` of the quiz produced: a JSON quiz or array of quizzes, an HTTP error status,
      or a network failure with its message. */
  datatype QuizPayload = SingleQuiz(quiz: Quiz) | QuizArray(quizzes: seq<Quiz>)
  datatype FetchOutcome =
    | Loaded(payload: QuizPayload)
    | HttpError(status: int, statusText: string)
    | NetworkError(message: string)

  /** How the answer POST went: a JSON body that may carry a session id, or a failure. */
  datatype PostOutcome = Responded(sessionId: Option<string>) | PostFailed

  /** The body of the answer POST. */
  datatype StepSubmission = StepSubmission(sessionId: Option<string>, stepIndex: int, stepAnswers: StepAnswers)

  /** The quiz shown: an array payload shows its first element, and nothing when empty. */
  function PayloadQuiz(p: QuizPayload): (q: Option<Quiz>)
    ensures p.SingleQuiz? ==> q == Some(p.quiz)
    ensures p.QuizArray? ==> (q.Some? <==> p.quizzes != []) && (q.Some? ==> q.value == p.quizzes[0])
  {
    match p
    case SingleQuiz(q) => Some(q)
    case QuizArray(qs) => if qs == [] then None else Some(qs[0])
  }

  /** The error shown when loading fails. */
  function LoadError(f: FetchOutcome): (msg: string)
    requires !f.Loaded?
  {
    var reason := if f.HttpError? then "Failed to fetch quiz: " + IntToString(f.status) + " " + f.statusText
                  else f.message;
    "Failed to load quiz: " + reason
  }

  /** `form[name] || ''`: a missing field reads as the empty string. */
  function FieldValue(form: map<string, string>, name: string): string {
    if name in form then form[name] else ""
  }

  /** The names of a step's inputs. */
  function InputNames(inputs: seq<Input>): set<string> {
    set i | 0 <= i < |inputs| :: inputs[i].name
  }

  /** The answers sent for a step: one entry per input name, holding the form's value or `''`. */
  function StepAnswersFor(inputs: seq<Input>, form: map<string, string>): (sa: StepAnswers)
    ensures sa.Keys == InputNames(inputs)
    ensures forall n :: n in sa ==> sa[n] == FieldValue(form, n)
  {
    map n | n in InputNames(inputs) :: FieldValue(form, n)
  }

  /** The loop that fills `stepAnswers`, input by input. */
  method BuildStepAnswers(inputs: seq<Input>, form: map<string, string>) returns (sa: StepAnswers)
    ensures sa == StepAnswersFor(inputs, form)
  {
    sa := map[];
    for i := 0 to |inputs|
      invariant sa.Keys == InputNames(inputs[..i])
      invariant forall n :: n in sa ==> sa[n] == FieldValue(form, n)
    {
      assert InputNames(inputs[..i + 1]) == InputNames(inputs[..i]) + {inputs[i].name} by {
        assert forall k :: 0 <= k < i ==> inputs[..i + 1][k] == inputs[..i][k];
      }
      sa := sa[inputs[i].name := FieldValue(form, inputs[i].name)];
    }
    assert inputs[..|inputs|] == inputs;
  }

  /** What the scorer later reads for each input of the step is exactly the form's value, so a
      field left blank or never touched counts as unanswered and one filled in as answered. */
  lemma ScorerSeesFormValues(inputs: seq<Input>, form: map<string, string>, i: nat)
    requires i < |inputs|
    ensures ScoringTally.AnswerFor(inputs[i], StepAnswersFor(inputs, form)) == FieldValue(form, inputs[i].name)
    ensures ScoringTally.AnswerFor(inputs[i], StepAnswersFor(inputs, form)) == ""
      <==> inputs[i].name !in form || form[inputs[i].name] == ""
  {
    assert inputs[i].name in InputNames(inputs);
  }

  /** The hook's state. */
  class QuizView {
    var quiz: Option<Quiz>
    var form: map<string, string>
    var step: int
    var submitted: bool
    var sessionId: Option<string>
    var error: Option<string>
    var loading: bool

    /** The step shown always exists once a quiz with steps is loaded, and is 0 before. */
    predicate Valid()
      reads this
    {
      0 <= step
      && (quiz.None? ==> step == 0)
      && (quiz.Some? ==> step == 0 || step < |quiz.value.steps|)
    }

    constructor ()
      ensures Valid()
      ensures quiz == None && form == map[] && step == 0 && !submitted
      ensures sessionId == None && error == None && loading
    {
      quiz := None;
      form := map[];
      step := 0;
      submitted := false;
      sessionId := None;
      error := None;
      loading := true;
    }

    /** The mount effect: read `quiz_id` from the URL and fetch the quiz. It runs once, while
        the view is still loading. */
    method Load(quizId: Option<string>, fetched: FetchOutcome)
      requires Valid() && loading && quiz.None?
      modifies this
      ensures Valid() && !loading
      ensures form == old(form) && step == old(step) && submitted == old(submitted) && sessionId == old(sessionId)
      ensures quizId.None? || quizId.value == "" ==> quiz == None && error == Some(NoQuizId)
      ensures quizId.Some? && quizId.value != "" && fetched.Loaded? ==>
        quiz == PayloadQuiz(fetched.payload) && error == old(error)
      ensures quizId.Some? && quizId.value != "" && !fetched.Loaded? ==>
        quiz == None && error == Some(LoadError(fetched))
    {
      if quizId.None? || quizId.value == "" {
        error := Some(NoQuizId);
      } else if fetched.Loaded? {
        quiz := PayloadQuiz(fetched.payload);
      } else {
        error := Some(LoadError(fetched));
      }
      loading := false;
    }

    /** `handleChange(name, value)`. */
    method HandleChange(name: string, value: string)
      requires Valid()
      modifies this
      ensures Valid()
      ensures form == old(form)[name := value]
      ensures forall n :: n != name ==> (n in form <==> n in old(form)) && (n in form ==> form[n] == old(form)[n])
      ensures quiz == old(quiz) && step == old(step) && submitted == old(submitted) && sessionId == old(sessionId)
      ensures error == old(error) && loading == old(loading)
    {
      form := form[name := value];
    }

    /** `handlePrevious()`: back one step, never below the first. */
    method HandlePrevious()
      requires Valid()
      modifies this
      ensures Valid()
      ensures old(step) > 0 ==> step == old(step) - 1
      ensures old(step) == 0 ==> step == 0
      ensures quiz == old(quiz) && form == old(form) && submitted == old(submitted) && sessionId == old(sessionId)
      ensures error == old(error) && loading == old(loading)
    {
      if step > 0 {
        step := step - 1;
      }
    }

    /** `handleNext()`. The answers of the current step are posted with the current session id;
        whatever the POST's fate, the view moves on — to the next step, or, on the last one, to
        the submitted state. `request` is the POST sent, if any. Without a quiz, without steps
        (reading the current step fails) or without a quiz id in the URL nothing happens. */
    method HandleNext(quizIdInUrl: bool, post: PostOutcome) returns (request: Option<StepSubmission>)
      requires Valid()
      modifies this
      ensures Valid()
      ensures quiz == old(quiz) && form == old(form)
      ensures error == old(error) && loading == old(loading)
      ensures old(quiz).None? || |old(quiz).value.steps| == 0 || !quizIdInUrl ==>
        request == None && step == old(step) && submitted == old(submitted) && sessionId == old(sessionId)
      ensures old(quiz).Some? && |old(quiz).value.steps| > 0 && quizIdInUrl ==>
        && request == Some(StepSubmission(old(sessionId), old(step),
                                          StepAnswersFor(old(quiz).value.steps[old(step)].inputs, old(form))))
        && (post.Responded? && QuizRoutes.Truthy(post.sessionId) ==> sessionId == post.sessionId)
        && (!(post.Responded? && QuizRoutes.Truthy(post.sessionId)) ==> sessionId == old(sessionId))
        && (old(step) < |old(quiz).value.steps| - 1 ==> step == old(step) + 1 && submitted == old(submitted))
        && (old(step) == |old(quiz).value.steps| - 1 ==> step == old(step) && submitted)
    {
      if quiz.None? {
        return None;
      }
      var steps := quiz.value.steps;
      if step >= |steps| {
        return None;
      }
      var stepAnswers := BuildStepAnswers(steps[step].inputs, form);
      if !quizIdInUrl {
        return None;
      }
      request := Some(StepSubmission(sessionId, step, stepAnswers));
      if post.Responded? && QuizRoutes.Truthy(post.sessionId) {
        sessionId := post.sessionId;
      }
      if step < |steps| - 1 {
        step := step + 1;
      } else {
        submitted := true;
      }
    }
  }

  /** Walking forward from the first step, a quiz of `n` steps is submitted after exactly `n`
      presses of "next", each posting the step it was on. */
  method TakeQuiz(view: QuizView, posts: seq<PostOutcome>) returns (requests: seq<StepSubmission>)
    requires view.Valid() && view.quiz.Some? && view.step == 0 && !view.submitted
    requires |posts| == |view.quiz.value.steps| > 0
    modifies view
    ensures view.Valid() && view.submitted
    ensures view.step == |posts| - 1
    ensures |requests| == |posts|
    ensures forall k :: 0 <= k < |requests| ==> requests[k].stepIndex == k
  {
    requests := [];
    var k := 0;
    while k < |posts|
      invariant 0 <= k <= |posts|
      invariant view.Valid() && view.quiz == old(view.quiz)
      invariant k < |posts| ==> view.step == k && !view.submitted
      invariant k == |posts| ==> view.step == k - 1 && view.submitted
      invariant |requests| == k
      invariant forall j :: 0 <= j < k ==> requests[j].stepIndex == j
    {
      var r := view.HandleNext(true, posts[k]);
      requests := requests + [r.value];
      k := k + 1;
    }
  }
}
