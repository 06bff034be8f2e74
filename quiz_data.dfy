/**
 * The quiz document as the scorer, the server and the two front ends see it: a quiz is an
 * ordered list of steps, a step an ordered list of inputs, an input an optional list of options.
 */
module QuizData {
  import opened Wrappers

  /** One entry of an option's `scores` object: only JavaScript numbers are added up. */
  datatype Weight = Number(n: int) | NonNumber

  /** The entries of an option's `scores` object, in their enumeration order. */
  type ScoreWeights = seq<(string, Weight)>

  /** An option is either a bare string (the declared `options?: string[]` type) or a record
      (the stored option schema, which requires a non-empty `label` and `value`). An empty
      `label` or `value` stands for a missing one; the scorer only compares them with a
      non-empty answer and the radio field tests `value` for truthiness, where the two agree.
      The radio field's checked test is where they part (`RadioField.IsSelected`). */
  datatype OptionItem =
    | PlainOption(text: string)
    | Choice(labelText: string, value: string, scores: Option<ScoreWeights>)

  /** A question; `labelText` is the source's `label` and `kind` its `type` ("text", "radio", ...),
      both Dafny keywords. */
  datatype Input = Input(labelText: string, kind: string, name: string, required: bool,
                         options: Option<seq<OptionItem>>)

  datatype Step = Step(title: string, inputs: seq<Input>)

  datatype Quiz = Quiz(title: string, steps: seq<Step>)

  /** One step's answers: input name to submitted string. */
  type StepAnswers = map<string, string>

  /** A session's answers: step index to that step's answers. */
  type Answers = map<int, StepAnswers>
}
