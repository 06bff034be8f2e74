# Toursona quiz platform, modelled in Dafny

Toursona is a travel-personality quiz. An administrator edits quizzes: a quiz has a title and an ordered list of steps, a step has an ordered list of inputs, and an input may have options. An option is a bare string or a record with a label, a value and per-type score weights. A visitor takes a quiz one step at a time. Each step's answers are posted to the server, which keeps them in an answer session. When the quiz is done, the viewer scores the answers. It adds the weights of the chosen options per personality type, turns the totals into percentages, sorts the seven types, and names a primary type, an optional secondary type and a "chameleon" flag.

This project models:

- the scoring engine: `ScoringTally`, `ScoreBreakdown`, `ScoringService` and `Personality`;
- the server's quiz and answer-session routes: `QuizRoutes`, and `LegacyQuizRoutes` for the older JavaScript routes;
- the viewer's quiz-taking state: `UseQuiz`;
- the drag-to-rank list: `StackRanking`;
- the radio-button derivations: `RadioField`;
- the admin quiz editor: `QuizEditor`;
- the admin answer view's helpers: `QuizAnswers`.

`QuizData` holds the shared document types. `Text` holds the string operations the code relies on: decimal printing, `trim`, `split` and `join`. `Wrappers` holds `Option` and `Result`.

Modelling conventions:

- Code that updates state step by step is modelled imperatively:
  - the server's collections are a class with map fields (`QuizRoutes.QuizStore`);
  - the React state of the editor, the quiz view and the ranking list are classes too;
  - `calculateScores` is a method whose loops are proved against fold functions.
- Pure code is modelled as functions and lemmas.
- Percentages are integer tenths of a percent. `Math.round(score / answered * 100 * 10)` is `(2000 * score + answered) / (2 * answered)`, and 0 when nothing was answered. A threshold such as "above 70" is written as "above 700 tenths".
- Answers are a map from integer step index to a map from input name to string. The scorer visits step indices in ascending order, which is the order `Object.entries` yields integer keys in.
- An empty `label` or `value` on an option stands for a missing one. The option schema in `server/models/Quiz.ts` requires both, so a stored option has neither empty nor missing. Elsewhere the scorer and the editor only test them for truthiness or compare them with a non-empty answer, and there the two behave alike. The radio field is the one place where they differ; see `RadioField.IsSelected` under "## Left out".

## Model

| member | source | states |
|---|---|---|
| Personality.MapScoreKeyToTypeId | quiz-viewer/src/services/scoringService.ts:119-130 | a type's display name becomes that type's id; any other key is returned unchanged |
| Personality.MapScoreKeyIdempotent | quiz-viewer/src/services/scoringService.ts:119-130 | mapping a key twice gives the same as mapping it once: no id is also a display name |
| Personality.NamesAreNotIds | quiz-viewer/src/services/scoringService.ts:36-114 | no declared display name equals a declared id |
| Personality.MappingMatchesTypes | quiz-viewer/src/services/scoringService.ts:120-128 | the mapping table pairs each declared type's name with its id, names are distinct, ids are non-empty |
| Personality.TypeIdsDistinct | quiz-viewer/src/services/scoringService.ts:36-114 | there are seven types whose ids are pairwise distinct, listed in declaration order |
| Personality.FindById | quiz-viewer/src/services/scoringService.ts:238-240 | `find` by id: a result exists iff some type has the id, and then it is one of the types and has that id |
| Personality.GetPersonalityType | quiz-viewer/src/services/scoringService.ts:238-240 | a type is returned iff the id is declared, and it is the declared type with that id |
| Personality.DeclIndex | quiz-viewer/src/services/scoringService.ts:36-114 | the declaration position of an id, below 7 exactly for declared ids |
| ScoringTally.InitialScores | quiz-viewer/src/services/scoringService.ts:143-146 | every declared type id starts at 0 and no other key is present |
| ScoringTally.FindOption | quiz-viewer/src/services/scoringService.ts:174-180 | the matched option is the first whose string, label or value equals the answer; none iff no option matches |
| ScoringTally.AddWeights | quiz-viewer/src/services/scoringService.ts:186-192 | definition: the option's weight entries applied one after another in enumeration order; AddWeightsScores and AddWeightsKeys state its effect |
| ScoringTally.AddWeightsScores | quiz-viewer/src/services/scoringService.ts:184-192 | adding an option's weights raises each type's score by exactly the sum of its numeric weights, after names are mapped to ids; non-numeric weights add nothing |
| ScoringTally.AddWeightsKeys | quiz-viewer/src/services/scoringService.ts:186-192 | the only keys added to the score dictionary are the mapped keys of numeric weights |
| ScoringTally.SelectedWeights | quiz-viewer/src/services/scoringService.ts:174-184 | weights are selected only from the first option that matches the answer, and only when it is a record whose `scores` they are |
| ScoringTally.TallyInput | quiz-viewer/src/services/scoringService.ts:163-195 | definition: one iteration of the inner loop; BlankAnswerCountsOnlyQuestion and AnswerAddsSelectedWeights state its two cases |
| ScoringTally.TallyInputs | quiz-viewer/src/services/scoringService.ts:162-196 | definition: the inner loop over a step's inputs in order; TallyInputsCounts and TallyInputsKeepsKeys state its effect |
| ScoringTally.TallySteps | quiz-viewer/src/services/scoringService.ts:152-197 | definition: the outer loop over the answered steps in ascending index; TallyStepsCounts, UnknownStepsIgnored and TallyStepsKeepsKeys state its effect |
| ScoringTally.TallyAnswers | quiz-viewer/src/services/scoringService.ts:139-197 | definition: both loops run from the zeroed scores; QuestionCounts, ScoresCoverTypeIds and NoAnswersNoScores state its effect |
| ScoringTally.TallyInputsCounts | quiz-viewer/src/services/scoringService.ts:162-172 | a step adds one question per input and one answered question per non-empty answer |
| ScoringTally.TallyStepsCounts | quiz-viewer/src/services/scoringService.ts:152-172 | the question count grows by the input counts of the answered steps that exist; the answered count never grows faster |
| ScoringTally.QuestionCounts | quiz-viewer/src/services/scoringService.ts:152-172 | `answeredQuestions <= totalQuestions`, and `totalQuestions` is the sum of input counts of answered steps that exist |
| ScoringTally.UnknownStepsIgnored | quiz-viewer/src/services/scoringService.ts:152-157 | an answer entry for an index with no step has no effect at all |
| ScoringTally.BlankAnswerCountsOnlyQuestion | quiz-viewer/src/services/scoringService.ts:163-170 | a missing or empty answer counts the question and changes neither the scores nor the answered count |
| ScoringTally.BlankStepLeavesScores | quiz-viewer/src/services/scoringService.ts:162-170 | a step with only blank answers leaves the scores and the answered count unchanged |
| ScoringTally.AnswerWithoutWeightsAddsNothing | quiz-viewer/src/services/scoringService.ts:172-195 | an answer that matches no option, a plain-string option or a record without scores counts as answered and adds nothing |
| ScoringTally.AnswerAddsSelectedWeights | quiz-viewer/src/services/scoringService.ts:172-192 | a non-empty answer counts as answered and adds the weights of the first matching option |
| ScoringTally.TallyInputsKeepsKeys | quiz-viewer/src/services/scoringService.ts:162-196 | scoring a step never removes a key from the score dictionary |
| ScoringTally.TallyStepsKeepsKeys | quiz-viewer/src/services/scoringService.ts:152-197 | scoring the steps never removes a key from the score dictionary |
| ScoringTally.ScoresCoverTypeIds | quiz-viewer/src/services/scoringService.ts:143-197 | every declared type id is a key of the final scores |
| ScoringTally.NoAnswersNoScores | quiz-viewer/src/services/scoringService.ts:152-197 | with an empty answer map nothing is counted and no score changes |
| ScoreBreakdown.Tenths | quiz-viewer/src/services/scoringService.ts:202-206 | the percentage in tenths is `score * 1000 / answered` rounded half up, and 0 when nothing was answered |
| ScoreBreakdown.TenthsRange | quiz-viewer/src/services/scoringService.ts:202-206 | a score between 0 and the answered count gives a percentage from 0 to 100 |
| ScoreBreakdown.TenthsMonotone | quiz-viewer/src/services/scoringService.ts:202-206 | a higher score never gets a lower percentage |
| ScoreBreakdown.EntriesFor | quiz-viewer/src/services/scoringService.ts:200-207 | one entry per type, in order, holding its score, 0 when the key is missing, and its percentage |
| ScoreBreakdown.InsertByPercentage | quiz-viewer/src/services/scoringService.ts:208 | insertion keeps every entry and adds the new one |
| ScoreBreakdown.SortByPercentage | quiz-viewer/src/services/scoringService.ts:208 | the sort is a permutation of its input |
| ScoreBreakdown.InsertKeepsSorted | quiz-viewer/src/services/scoringService.ts:208 | inserting an entry declared before all others keeps the stable descending order |
| ScoreBreakdown.SortIsStable | quiz-viewer/src/services/scoringService.ts:200-208 | sorting entries listed in declaration order gives descending percentages with ties in declaration order |
| ScoreBreakdown.StablySortedUnique | quiz-viewer/src/services/scoringService.ts:208 | only one arrangement of the entries is in the stable order, so the breakdown does not depend on the sorting algorithm |
| ScoreBreakdown.Breakdown | quiz-viewer/src/services/scoringService.ts:200-208 | the breakdown is a permutation of the seven per-type entries, so it has exactly seven entries |
| ScoreBreakdown.BreakdownSorted | quiz-viewer/src/services/scoringService.ts:200-208 | the breakdown is the seven entries, rearranged into the stable descending order |
| ScoreBreakdown.BreakdownEntriesFaithful | quiz-viewer/src/services/scoringService.ts:200-207 | every breakdown entry is a declared type with its own score and percentage; other score keys never appear |
| ScoreBreakdown.BreakdownCoversTypes | quiz-viewer/src/services/scoringService.ts:200-208 | every declared type appears in the breakdown exactly once |
| ScoreBreakdown.Primary | quiz-viewer/src/services/scoringService.ts:210 | a primary type is found iff the breakdown is non-empty and its first entry's id is declared, and it is then the declared type with that id |
| ScoreBreakdown.Secondary | quiz-viewer/src/services/scoringService.ts:211-212 | a secondary type is found iff there is a second entry above 70% whose id is declared, and it is then the declared type with that id |
| ScoreBreakdown.CountAbove | quiz-viewer/src/services/scoringService.ts:215 | the count of entries above the threshold: at most the length, 0 iff no entry is above it, the whole length iff every entry is |
| ScoreBreakdown.IsChameleon | quiz-viewer/src/services/scoringService.ts:215-218 | the chameleon rule; it can only hold for a breakdown of at least three entries |
| ScoreBreakdown.CountAboveIsPrefix | quiz-viewer/src/services/scoringService.ts:215 | in a non-increasing breakdown the entries above a threshold are exactly a prefix |
| ScoreBreakdown.ChameleonProfile | quiz-viewer/src/services/scoringService.ts:211-218 | a chameleon's top three percentages lie above 30 and below 40, so it never has a secondary type |
| ScoreBreakdown.SecondaryMeansTwoStrongTypes | quiz-viewer/src/services/scoringService.ts:211-212 | a secondary type means both top percentages are above 70, and it is the second entry's type |
| ScoreBreakdown.PrimaryIsTop | quiz-viewer/src/services/scoringService.ts:210-222 | the primary type always exists, so the throw is unreachable; it is the first entry's type, which precedes every other entry |
| ScoreBreakdown.SecondaryIff | quiz-viewer/src/services/scoringService.ts:211-212 | the secondary type is present iff the second percentage is above 70, and it is then the second entry's type |
| ScoreBreakdown.NothingAnsweredOrder | quiz-viewer/src/services/scoringService.ts:200-208 | with nothing answered every percentage is 0 and the breakdown keeps declaration order |
| ScoreBreakdown.NothingAnsweredClassification | quiz-viewer/src/services/scoringService.ts:200-222 | with nothing answered the first declared type is primary, with no secondary type and no chameleon |
| ScoringService.Classify | quiz-viewer/src/services/scoringService.ts:199-232 | the classification never fails, so the "Unable to determine personality type" throw is unreachable; the result carries the tally's scores and counters and the `Breakdown` of those scores |
| ScoringService.ScoreAnswers | quiz-viewer/src/services/scoringService.ts:135-233 | `calculateScores` as a function: it never fails, and the returned breakdown is the `Breakdown` of the returned scores and answered count |
| ScoringService.ScoreAnswersSpec | quiz-viewer/src/services/scoringService.ts:135-233 | scoring never fails and satisfies the following: the counters are related as above; the breakdown is `Breakdown` of the returned scores, that is the seven types each once with its own score and percentage, stably sorted; primary is the first entry; secondary is present iff the second percentage is above 70; chameleon holds iff at least three percentages are above 30, the first is below 40 and the second above 25, and a chameleon has no secondary; every type id is scored |
| ScoringService.ZeroScores | quiz-viewer/src/services/scoringService.ts:144-146 | the initialisation loop maps every given id to 0 |
| ScoringService.AddOptionScores | quiz-viewer/src/services/scoringService.ts:186-192 | the weight loop raises each type's score by the sum of its numeric weights |
| ScoringService.ScoreStepInputs | quiz-viewer/src/services/scoringService.ts:162-196 | the input loop computes the step's fold, adding one question per input and one answered question per non-empty answer |
| ScoringService.CalculateScores | quiz-viewer/src/services/scoringService.ts:135-233 | the loops compute exactly the scoring function; the result never fails, its counters are related as in ScoreAnswersSpec, its breakdown is `Breakdown` of its own scores, stably sorted, and its primary, secondary and chameleon values follow the rules stated there, both directions of each iff included |
| QuizRoutes.ApplyPatch | server/routes/quizzes.ts:98-110 | fields present in the body replace the stored ones; absent fields are kept |
| QuizRoutes.ApplyPatchIdempotent | server/routes/quizzes.ts:100 | applying a body twice equals applying it once, and an empty body changes nothing |
| QuizRoutes.NewSession | server/routes/quizzes.ts:33-41 | a new session holds the route's quiz id, only the submitted step, and the given scores or `{}` |
| QuizRoutes.RecordStep | server/routes/quizzes.ts:21-32 | the step's entry is replaced wholesale, every other step is kept, and the scores change only when the request carries some |
| QuizRoutes.RecordStepOverwrites | server/routes/quizzes.ts:28 | submitting the same step twice keeps only the second submission |
| QuizRoutes.ReplayLastWriteWins | server/routes/quizzes.ts:18-32 | after any run of submissions each step holds its last submission, other steps are kept, and the owner and scores are unchanged |
| QuizRoutes.QuizStore.constructor | server/routes/quizzes.ts:2-6 | the quiz and answer-session collections start empty |
| QuizRoutes.QuizStore.SubmitStep | server/routes/quizzes.ts:10-51 | unknown quiz gives 404 "Quiz not found"; an unknown truthy session gives 404 "Session not found"; otherwise 201 with the session's id, the session updated or created, quizzes unchanged; the session's quiz id is not compared with the route's |
| QuizRoutes.QuizStore.CreateQuiz | server/routes/quizzes.ts:54-64 | the quiz is stored under a fresh id and returned with 201 |
| QuizRoutes.QuizStore.GetQuiz | server/routes/quizzes.ts:67-80 | 200 with the stored quiz iff it exists, otherwise 404 "Quiz not found" |
| QuizRoutes.QuizStore.GetSession | server/routes/quizzes.ts:124-136 | 200 with the stored session iff it exists, otherwise 404 "Session not found"; the route's quiz id plays no part |
| QuizRoutes.QuizStore.DeleteQuiz | server/routes/quizzes.ts:83-95 | only the named quiz is removed, sessions stay; 404 when it is missing |
| QuizRoutes.QuizStore.PatchQuiz | server/routes/quizzes.ts:98-110 | a missing quiz gives 404 and no change; otherwise the body is applied and the updated quiz returned |
| QuizRoutes.QuizStore.PutQuiz | server/routes/quizzes.ts:150-162 | the same update as PATCH: fields absent from the body are kept |
| QuizRoutes.TwoStepSession | server/routes/quizzes.ts:18-46 | posting step 0 without a session and step 1 with the returned id yields one session holding both steps |
| LegacyQuizRoutes.RecordStep | server/routes/quizzes.js:15-20 | only the submitted step's entry is replaced |
| LegacyQuizRoutes.AgreesWithCurrentRoutes | server/routes/quizzes.js:8-33 | the older routes store the same owner and answers as the newer ones, without scores |
| LegacyQuizRoutes.LegacyQuizStore.constructor | server/routes/quizzes.js:3-5 | the quiz and answer-session collections start empty |
| LegacyQuizRoutes.LegacyQuizStore.SubmitStep | server/routes/quizzes.js:8-33 | unknown quiz or unknown truthy session gives 404 and no change; otherwise 201 with the session updated or created |
| LegacyQuizRoutes.LegacyQuizStore.CreateQuiz | server/routes/quizzes.js:36-45 | the quiz is stored under a fresh id and returned with 201 |
| LegacyQuizRoutes.LegacyQuizStore.GetQuiz | server/routes/quizzes.js:48-57 | 200 with the stored quiz iff it exists, otherwise 404 |
| LegacyQuizRoutes.LegacyQuizStore.DeleteQuiz | server/routes/quizzes.js:60-68 | only the named quiz is removed; 404 when it is missing |
| LegacyQuizRoutes.LegacyQuizStore.PatchQuiz | server/routes/quizzes.js:71-79 | a missing quiz gives 404 and no change; otherwise the body is applied |
| UseQuiz.PayloadQuiz | quiz-viewer/src/hooks/useQuiz.ts:38-41 | an array payload shows its first quiz, and none when empty; a single quiz shows itself |
| UseQuiz.StepAnswersFor | quiz-viewer/src/hooks/useQuiz.ts:67-70 | the step's answers have exactly the step's input names as keys, each holding the form's value or `''` |
| UseQuiz.BuildStepAnswers | quiz-viewer/src/hooks/useQuiz.ts:67-70 | the `forEach` loop builds exactly those answers |
| UseQuiz.ScorerSeesFormValues | quiz-viewer/src/hooks/useQuiz.ts:67-70 | the scorer reads each input's form value, and sees it as blank iff the field is absent or empty |
| UseQuiz.QuizView.constructor | quiz-viewer/src/hooks/useQuiz.ts:6-12 | the initial state: no quiz, empty form, step 0, not submitted, no session, no error, loading |
| UseQuiz.QuizView.Load | quiz-viewer/src/hooks/useQuiz.ts:20-47 | a missing quiz id sets the fixed error; a loaded payload sets the quiz; a failed fetch sets "Failed to load quiz: …"; loading ends |
| UseQuiz.QuizView.HandleChange | quiz-viewer/src/hooks/useQuiz.ts:49-51 | only the named form field changes; the quiz, step, submitted flag, session id, error and loading flag keep their values |
| UseQuiz.QuizView.HandlePrevious | quiz-viewer/src/hooks/useQuiz.ts:53-57 | back one step, except at step 0; every other field, error and loading flag included, keeps its value |
| UseQuiz.QuizView.HandleNext | quiz-viewer/src/hooks/useQuiz.ts:59-98 | with a quiz, a current step and a quiz id, the step's answers are posted with the current session id; the session id changes only to a truthy returned one; the view advances, or on the last step sets submitted, whatever the POST's fate; otherwise nothing changes; the quiz, form, error and loading flag never change |
| UseQuiz.TakeQuiz | quiz-viewer/src/hooks/useQuiz.ts:59-98 | from step 0, n presses of next on an n-step quiz post steps 0..n-1 in order and end submitted on the last step |
| StackRanking.RemoveAt | quiz-viewer/src/components/StackRanking.tsx:86 | `splice(d, 1)` keeps the elements before `d` and shifts the rest left |
| StackRanking.Moved | quiz-viewer/src/components/StackRanking.tsx:82-89 | the moved list has the same length and holds the dragged item at the hover index; MovedSpec states the rest |
| StackRanking.MovedSameElements | quiz-viewer/src/components/StackRanking.tsx:82-89 | moving an element keeps the multiset of elements |
| StackRanking.MovedSpec | quiz-viewer/src/components/StackRanking.tsx:82-89 | the moved list is a permutation with the dragged element at `h` and the others in their previous relative order |
| StackRanking.MovedInPlace | quiz-viewer/src/components/StackRanking.tsx:86-89 | moving an element onto its own position changes nothing |
| StackRanking.Rerank | quiz-viewer/src/components/StackRanking.tsx:92-95 | the i-th item gets rank i + 1 and is otherwise unchanged |
| StackRanking.RerankSpec | quiz-viewer/src/components/StackRanking.tsx:92-95 | after re-ranking the ranks are the positions, and the items without ranks are unchanged |
| StackRanking.UnrankedMoved | quiz-viewer/src/components/StackRanking.tsx:81-95 | removing ranks commutes with moving |
| StackRanking.Ranking.constructor | quiz-viewer/src/components/StackRanking.tsx:77-79 | the initial list keeps the given order, with the i-th item ranked i + 1 |
| StackRanking.Ranking.MoveItem | quiz-viewer/src/components/StackRanking.tsx:81-102 | the new list is the moved, re-ranked list, a permutation of the items; the dragged item is at `h` and the others keep their order; the callback receives the new list |
| StackRanking.Ranking.Hover | quiz-viewer/src/components/StackRanking.tsx:39-44 | when the indices differ the list becomes `moveItem`'s: the moved list re-ranked; when they are equal nothing changes; the dragged index becomes the hovered one |
| StackRanking.Ranking.ResetRanking | quiz-viewer/src/components/StackRanking.tsx:104-110 | back to the given order with ranks 1..n, whatever was shown; the callback receives it |
| QuizEditor.FilterOutIndex | quiz-admin/src/components/QuizEditor.tsx:23 | exactly the element at `i` is dropped; an index out of range changes nothing |
| QuizEditor.SpliceStart | quiz-admin/src/components/QuizEditor.tsx:46 | `splice`'s start: a negative start counts from the end, and the result is clamped to the list |
| QuizEditor.SpliceOut | quiz-admin/src/components/QuizEditor.tsx:46 | `splice(j, 1)` removes the element at the resolved start, when there is one |
| QuizEditor.SetField | quiz-admin/src/components/QuizEditor.tsx:52-55 | exactly the named field of the input is replaced |
| QuizEditor.SetFieldTwice | quiz-admin/src/components/QuizEditor.tsx:52-55 | writing the same field twice keeps the second value |
| QuizEditor.NewInput | quiz-admin/src/components/QuizEditor.tsx:34-39 | a new input is labelled "New Input", of type text, not required, without options, and named `input_` plus the clock reading |
| QuizEditor.NewInputNamesDistinct | quiz-admin/src/components/QuizEditor.tsx:37 | inputs added at different instants get different names |
| QuizEditor.NonBlank | quiz-admin/src/components/QuizEditor.tsx:229 | the kept lines are exactly the input lines that are not blank: every kept line is an input line and not blank, and every input line that is not blank is kept |
| QuizEditor.NonBlankAppend | quiz-admin/src/components/QuizEditor.tsx:229 | filtering a concatenation gives the filtered first part followed by the filtered second part, so the kept lines stay in their input order |
| QuizEditor.ParseOptionLines | quiz-admin/src/components/QuizEditor.tsx:229 | the options are exactly the non-blank lines of the text, as strings: each option is a non-blank line of the text without a line feed, and each non-blank line of the text is an option |
| QuizEditor.ParseOptionLinesAppend | quiz-admin/src/components/QuizEditor.tsx:229 | text made of two parts joined by a line feed parses into the first part's options followed by the second part's, so the options keep the order of their lines |
| QuizEditor.ParseOptionLine | quiz-admin/src/components/QuizEditor.tsx:229 | a single line parses to no option when blank and to itself, untrimmed, otherwise |
| QuizEditor.NonBlankKeepsAll | quiz-admin/src/components/QuizEditor.tsx:229 | a list in which no line is blank is returned unchanged: same lines, same order, untrimmed |
| QuizEditor.OptionsText | quiz-admin/src/components/QuizEditor.tsx:228 | definition: the textarea shows the options joined by line feeds, a record as `[object Object]`, and nothing when there are no options; OptionsTextRoundTrip is its partner |
| QuizEditor.OptionsTextRoundTrip | quiz-admin/src/components/QuizEditor.tsx:228-229 | showing non-blank one-line string options in the textarea and reading them back gives the same options, including no options at all |
| QuizEditor.BlankLinesDropped | quiz-admin/src/components/QuizEditor.tsx:229 | a blank line between two options is dropped |
| QuizEditor.HandleSave | quiz-admin/src/components/QuizEditor.tsx:59-74 | a blank title is refused, then an empty step list; otherwise the trimmed, non-empty title and the steps are saved |
| QuizEditor.SaveIdempotent | quiz-admin/src/components/QuizEditor.tsx:59-74 | saving a saved quiz again gives the same quiz |
| QuizEditor.Editor.constructor | quiz-admin/src/components/QuizEditor.tsx:11-12 | the form starts from the edited quiz, or empty |
| QuizEditor.Editor.SetTitle | quiz-admin/src/components/QuizEditor.tsx:117 | only the title changes |
| QuizEditor.Editor.AddStep | quiz-admin/src/components/QuizEditor.tsx:14-20 | one step titled "Step n+1" with no inputs is appended; existing steps are unchanged |
| QuizEditor.Editor.RemoveStep | quiz-admin/src/components/QuizEditor.tsx:22-24 | exactly step `i` is removed and the rest keep their order |
| QuizEditor.Editor.UpdateStepTitle | quiz-admin/src/components/QuizEditor.tsx:26-30 | only step `i`'s title changes; a missing step changes nothing |
| QuizEditor.Editor.AddInput | quiz-admin/src/components/QuizEditor.tsx:32-42 | the new input is appended to step `i` only |
| QuizEditor.Editor.RemoveInput | quiz-admin/src/components/QuizEditor.tsx:44-48 | input `j` of step `i` is removed, and nothing else changes |
| QuizEditor.Editor.UpdateInput | quiz-admin/src/components/QuizEditor.tsx:50-57 | one field of one input changes; every other field, input and step is unchanged |
| QuizEditor.Editor.UpdateOptionsText | quiz-admin/src/components/QuizEditor.tsx:227-229 | the input's options become the parsed lines of the textarea |
| QuizEditor.Editor.Save | quiz-admin/src/components/QuizEditor.tsx:59-74 | the save button validates the current title and steps |
| QuizAnswers.GetStepTitle | quiz-admin/src/components/QuizAnswers.tsx:19-21 | the step's title when the step exists and its title is non-empty, else "Step i+1"; never empty |
| QuizAnswers.FallbackTitlesDistinct | quiz-admin/src/components/QuizAnswers.tsx:20 | different step indices get different fallback titles |
| QuizAnswers.FindInput | quiz-admin/src/components/QuizAnswers.tsx:25 | the first input with the name, or none iff no input has it |
| QuizAnswers.GetInputLabel | quiz-admin/src/components/QuizAnswers.tsx:23-27 | the label of the first input so named when non-empty, else the name itself, also when the step or input is missing |
| QuizAnswers.FormatAnswer | quiz-admin/src/components/QuizAnswers.tsx:11-17 | a string prints unchanged and a list prints as its items joined by ", " |
| QuizAnswers.FormatItemsLength | quiz-admin/src/components/QuizAnswers.tsx:14 | a printed list is its items plus two characters between neighbours |
| QuizAnswers.FormatSingleItem | quiz-admin/src/components/QuizAnswers.tsx:14 | a one-item list prints as its item, and an empty list as nothing |
| QuizAnswers.FormatWholeRoundTrip | quiz-admin/src/components/QuizAnswers.tsx:13 | a printed whole number reads back as itself |
| RadioField.OptionLabel | quiz-viewer/src/components/RadioField.tsx:21 | definition: a string's caption is itself and a record's is its label |
| RadioField.Renders | quiz-viewer/src/components/RadioField.tsx:19 | definition: only the empty string is falsy among options; a record always renders |
| RadioField.IsSelected | quiz-viewer/src/components/RadioField.tsx:23 | definition: checked iff the field holds a value equal to the option's value; an untouched field checks nothing (see "## Left out") |
| RadioField.OptionValue | quiz-viewer/src/components/RadioField.tsx:21-22 | a string's value is itself; a record's is its value, falling back to its label |
| RadioField.Button | quiz-viewer/src/components/RadioField.tsx:17-44 | a falsy option renders nothing; otherwise the caption is the label, the value the derived value, checked iff the field's value equals it |
| RadioField.Buttons | quiz-viewer/src/components/RadioField.tsx:17-48 | one button slot per option, in order, and none without options |
| RadioField.ClickChecksButton | quiz-viewer/src/components/RadioField.tsx:23-39 | after a click the clicked button is checked, and any other exactly when it has the same value |
| RadioField.CheckedButtonsShareValue | quiz-viewer/src/components/RadioField.tsx:23 | two buttons are checked together only when they carry the same value |
| RadioField.ScorerFindsChosenOption | quiz-viewer/src/components/RadioField.tsx:22-39 | the submitted value always matches an option in the scorer: the clicked one or an earlier one, and the clicked one when no earlier option matches |
| RadioField.CollidingOptions | quiz-viewer/src/components/RadioField.tsx:21-23 | when one record's value is another's label, clicking the second checks both and the scorer credits the first |
| RadioField.SubmittedValueNonEmpty | quiz-viewer/src/components/RadioField.tsx:19-22 | a rendered option submits an empty value iff it is a record with neither value nor label |
| Text.IntToString | quiz-admin/src/components/QuizAnswers.tsx:13 | decimal printing: digits, with a leading "-" exactly for negatives |
| Text.NatToStringRoundTrip | quiz-admin/src/components/QuizAnswers.tsx:13 | printed digits parse back to the number |
| Text.IntToStringInjective | quiz-admin/src/components/QuizEditor.tsx:37 | different integers print differently |
| Text.TrimStartIn | quiz-admin/src/components/QuizEditor.tsx:70 | trimming the start drops exactly a white-space prefix |
| Text.TrimEndIn | quiz-admin/src/components/QuizEditor.tsx:70 | trimming the end drops exactly a white-space suffix |
| Text.Trim | quiz-admin/src/components/QuizEditor.tsx:60 | the trimmed text is no longer than the input and neither starts nor ends with white space |
| Text.TrimEmptyIffAllSpace | quiz-admin/src/components/QuizEditor.tsx:60 | `trim()` is empty iff the string is all white space |
| Text.TrimIdempotent | quiz-admin/src/components/QuizEditor.tsx:70 | trimming twice equals trimming once |
| Text.Split | quiz-admin/src/components/QuizEditor.tsx:229 | `split` gives at least one part, and no part contains the separator |
| Text.SplitAppend | quiz-admin/src/components/QuizEditor.tsx:229 | splitting two texts joined by the separator gives the first text's parts followed by the second's |
| Text.Join | quiz-admin/src/components/QuizEditor.tsx:228 | definition: the parts with the separator between neighbours; JoinSplit and SplitJoin are its partners |
| Text.JoinSplit | quiz-admin/src/components/QuizEditor.tsx:228-229 | joining the parts of a split gives back the text |
| Text.SplitJoin | quiz-admin/src/components/QuizEditor.tsx:228-229 | splitting a join of separator-free parts gives back the parts |

## Left out

- I/O is modelled as parameters. This covers Express, MongoDB and `fetch`, and the console and `alert` output. In detail:
  - the server's collections are the fields of `QuizRoutes.QuizStore`;
  - the fetch result and the POST response are the `FetchOutcome` and `PostOutcome` arguments of the view's handlers;
  - the URL's `quiz_id` is a parameter of `Load` and a boolean of `HandleNext`;
  - `alert` is the `Rejected` outcome of `HandleSave`.
- The database's id generation is the `newId` parameter of the create and submit routes. It must be fresh, which is the `requires` on those methods.
- `Date.now()` in `addInput` is the `now` parameter. `submittedAt` and `createdAt` timestamps are not modelled.
- The list routes are not part of this model: GET `/` and GET `/:id/answers`. They only query and sort by those timestamps.
- The 400 replies are not modelled. They come from malformed ids and other database exceptions.
- Concurrent requests are not modelled. Neither is whether Mongoose persists a nested assignment to `answers[stepIndex]` on a schema-less field. Both are outside the handler's own logic.
- Floating point is not modelled. Scores and weights are integers and percentages are integer tenths. Fractional weights and the binary rounding of `Math.round` on inexact values are not captured.
- Answer-map keys are integers. A non-canonical key such as `"01"` or `"1.5"` is not modelled, and neither is a non-integer `stepIndex`. Nor are score keys that collide with `Object.prototype` properties: for a key such as `"constructor"`, `mapScoreKeyToTypeId` would read an inherited value rather than fall back to the key.
- QuizEditor.Editor.UpdateInput: for a step that exists and an input index at or past the end, the source writes a new partial input record at that index (leaving holes beyond the end). The model leaves the steps unchanged there.
- `UpdateStepTitle`, `AddInput` and `RemoveInput` on a missing step make the source throw before the state is set. The model shows that as no change.
- The editor's array copies are shallow. The source mutates the step objects it shares with the previous state and with the quiz being edited. The model has value semantics, so that aliasing is not captured.
- `formatAnswer` prints objects with `JSON.stringify`, and numbers other than whole numbers with JavaScript's float formatting. Neither is modelled. Strings, whole numbers, booleans and lists of strings are.
- UseQuiz.QuizView.Load: the effect is modelled as one atomic step. The interleaving of the asynchronous fetch with other handlers is not captured.
- UseQuiz.QuizView.HandleNext: the POST is modelled as completed before the step changes, as the `await` makes it. Responses whose `sessionId` is not a string are not modelled.
- `App.jsx` and `App.tsx` are not part of this model, and neither are the presentation components. One consequence: the older viewer sends `undefined` rather than `''` for an untouched field.
- RadioField.IsSelected: an option record with neither `value` nor `label` has the value `undefined` in the source, and an untouched field's value is `undefined` too, so the source shows that button checked before any click. The model reads both as the empty string and an untouched field as `None`, so it shows the button unchecked. The option schema requires a non-empty label and value, so a stored quiz never has such an option.
- The drag-and-drop library is not part of this model. `StackRanking.Ranking.Hover` takes the dragged and hovered indices as arguments.
- The personality types' names, descriptions, colours and other display fields are not part of this model. Only ids, display names and declaration order matter to the logic.
