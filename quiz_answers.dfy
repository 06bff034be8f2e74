/**
 * `QuizAnswers`: the admin view of stored responses. Each stored step is headed by its step's
 * title and each answer by its input's label, with fallbacks when the quiz no longer has them,
 * and each answer value is turned into text.
 */
module QuizAnswers {
  import opened Wrappers
  import opened QuizData
  import opened Text

  /** `"Step " + (stepIndex + 1)`. */
  function FallbackTitle(stepIndex: int): string {
    "Step " + IntToString(stepIndex + 1)
  }

  /** `getStepTitle(stepIndex)`: the step's title when the step exists and its title is not
      empty, the numbered fallback otherwise. Never empty. */
  function GetStepTitle(quiz: Quiz, stepIndex: int): (t: string)
    ensures t != ""
    ensures 0 <= stepIndex < |quiz.steps| && quiz.steps[stepIndex].title != "" ==>
      t == quiz.steps[stepIndex].title
    ensures !(0 <= stepIndex < |quiz.steps| && quiz.steps[stepIndex].title != "") ==>
      t == FallbackTitle(stepIndex)
  {
    if 0 <= stepIndex < |quiz.steps| && quiz.steps[stepIndex].title != "" then quiz.steps[stepIndex].title
    else FallbackTitle(stepIndex)
  }

  /** Steps that have no title of their own get different headings. */
  lemma FallbackTitlesDistinct(i: int, j: int)
    requires i != j
    ensures FallbackTitle(i) != FallbackTitle(j)
  {
    var p := "Step ";
    if FallbackTitle(i) == FallbackTitle(j) {
      assert IntToString(i + 1) == FallbackTitle(i)[|p|..] == FallbackTitle(j)[|p|..] == IntToString(j + 1);
      IntToStringInjective(i + 1, j + 1);
    }
  }

  /** `inputs.find(input => input.name === name)`: the position of the first input so named. */
  function FindInput(inputs: seq<Input>, name: string): (r: Option<nat>)
    ensures r.Some? ==> r.value < |inputs| && inputs[r.value].name == name
    ensures r.Some? ==> forall k :: 0 <= k < r.value ==> inputs[k].name != name
    ensures r.None? <==> forall k :: 0 <= k < |inputs| ==> inputs[k].name != name
  {
    if inputs == [] then None
    else if inputs[0].name == name then Some(0)
    else
      match FindInput(inputs[1..], name)
      case None => None
      case Some(k) => Some(k + 1)
  }

  /** Input `k` is the first one called `name`. */
  predicate FirstNamed(inputs: seq<Input>, name: string, k: int) {
    0 <= k < |inputs| && inputs[k].name == name && forall m :: 0 <= m < k ==> inputs[m].name != name
  }

  /** `getInputLabel(stepIndex, name)`: the label of the first input of that step with that
      name, or the name itself when there is no such step or input or its label is empty. */
  function GetInputLabel(quiz: Quiz, stepIndex: int, name: string): (l: string)
    ensures name != "" ==> l != ""
    ensures 0 <= stepIndex < |quiz.steps| ==> forall k :: FirstNamed(quiz.steps[stepIndex].inputs, name, k) ==>
      (quiz.steps[stepIndex].inputs[k].labelText != "" ==> l == quiz.steps[stepIndex].inputs[k].labelText)
      && (quiz.steps[stepIndex].inputs[k].labelText == "" ==> l == name)
    ensures !(0 <= stepIndex < |quiz.steps|) ==> l == name
    ensures 0 <= stepIndex < |quiz.steps| &&
      (forall k :: 0 <= k < |quiz.steps[stepIndex].inputs| ==> quiz.steps[stepIndex].inputs[k].name != name)
      ==> l == name
  {
    if !(0 <= stepIndex < |quiz.steps|) then name
    else
      match FindInput(quiz.steps[stepIndex].inputs, name)
      case None => name
      case Some(k) =>
        var caption := quiz.steps[stepIndex].inputs[k].labelText;
        if caption != "" then caption else name
  }

  /** The answer values the view prints: strings, whole numbers, booleans and lists of strings. */
  datatype AnswerValue = Text(text: string) | Whole(n: int) | Flag(b: bool) | Items(items: seq<string>)

  /** `formatAnswer(answer)`. */
  function FormatAnswer(a: AnswerValue): (s: string)
    ensures a.Text? ==> s == a.text
    ensures a.Items? ==> s == Join(a.items, ", ")
  {
    match a
    case Text(t) => t
    case Whole(n) => IntToString(n)
    case Flag(b) => if b then "true" else "false"
    case Items(xs) => Join(xs, ", ")
  }

  /** Total length of some strings. */
  function TotalLength(xs: seq<string>): nat {
    if xs == [] then 0 else |xs[0]| + TotalLength(xs[1..])
  }

  /** A list prints as its items with two characters between neighbours, and an empty list as
      nothing. */
  lemma {:induction false} FormatItemsLength(xs: seq<string>)
    requires xs != []
    ensures |FormatAnswer(Items(xs))| == TotalLength(xs) + 2 * (|xs| - 1)
  {
    if |xs| > 1 {
      FormatItemsLength(xs[1..]);
    }
  }

  /** A one-item list prints as the item itself, like a plain string. */
  lemma FormatSingleItem(x: string)
    ensures FormatAnswer(Items([x])) == FormatAnswer(Text(x))
    ensures FormatAnswer(Items([])) == ""
  {
  }

  /** Numbers print as their decimal digits, read back as the same number. */
  lemma FormatWholeRoundTrip(n: nat)
    ensures ParseDigits(FormatAnswer(Whole(n))) == n
  {
    NatToStringRoundTrip(n);
  }
}
