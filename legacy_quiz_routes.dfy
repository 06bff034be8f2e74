/**
 * The older JavaScript version of the quiz routes: the same progressive submission, but answer
 * sessions carry no computed scores, and there is neither a session read nor a PUT route.
 */
module LegacyQuizRoutes {
  import opened Wrappers
  import opened QuizData
  import QuizRoutes

  /** A stored answer session of the older schema. */
  datatype LegacyAnswerDoc = LegacyAnswerDoc(quizId: string, answers: Answers)

  /** A later submission: only the step's entry changes. */
  function RecordStep(doc: LegacyAnswerDoc, stepIndex: int, stepAnswers: StepAnswers): (r: LegacyAnswerDoc)
    ensures r.quizId == doc.quizId
    ensures stepIndex in r.answers && r.answers[stepIndex] == stepAnswers
    ensures forall k :: k != stepIndex ==> (k in r.answers <==> k in doc.answers)
    ensures forall k :: k != stepIndex && k in doc.answers ==> r.answers[k] == doc.answers[k]
  {
    doc.(answers := doc.answers[stepIndex := stepAnswers])
  }

  /** The older routes store what the newer ones store, less the scores: recording a step gives
      the same owner and answers whichever version handles it. */
  lemma AgreesWithCurrentRoutes(doc: QuizRoutes.AnswerDoc, stepIndex: int, stepAnswers: StepAnswers,
                                calculatedScores: Option<map<string, int>>)
    ensures var legacy := RecordStep(LegacyAnswerDoc(doc.quizId, doc.answers), stepIndex, stepAnswers);
      var current := QuizRoutes.RecordStep(doc, stepIndex, stepAnswers, calculatedScores);
      legacy.quizId == current.quizId && legacy.answers == current.answers
    ensures var legacy := LegacyAnswerDoc(doc.quizId, map[stepIndex := stepAnswers]);
      var current := QuizRoutes.NewSession(doc.quizId, stepIndex, stepAnswers, calculatedScores);
      legacy.quizId == current.quizId && legacy.answers == current.answers
  {
  }

  class LegacyQuizStore {
    var quizzes: map<string, Quiz>
    var sessions: map<string, LegacyAnswerDoc>

    constructor ()
      ensures quizzes == map[] && sessions == map[]
    {
      quizzes := map[];
      sessions := map[];
    }

    /** POST `/:id/answers`, with `newId` the fresh non-empty id the database assigns. */
    method SubmitStep(quizId: string, sessionId: Option<string>, stepIndex: int,
                      stepAnswers: StepAnswers, newId: string) returns (reply: QuizRoutes.Reply)
      requires newId != "" && newId !in sessions
      modifies this
      ensures quizzes == old(quizzes)
      ensures quizId !in quizzes ==>
        reply == QuizRoutes.Reply(404, QuizRoutes.ErrorMessage(QuizRoutes.QuizNotFound))
        && sessions == old(sessions)
      ensures quizId in quizzes && QuizRoutes.Truthy(sessionId) && sessionId.value !in old(sessions) ==>
        reply == QuizRoutes.Reply(404, QuizRoutes.ErrorMessage(QuizRoutes.SessionNotFound))
        && sessions == old(sessions)
      ensures quizId in quizzes && QuizRoutes.Truthy(sessionId) && sessionId.value in old(sessions) ==>
        reply == QuizRoutes.Reply(201, QuizRoutes.SubmitAck(QuizRoutes.StepSubmitted, sessionId.value))
        && sessions == old(sessions)[sessionId.value :=
             RecordStep(old(sessions)[sessionId.value], stepIndex, stepAnswers)]
      ensures quizId in quizzes && !QuizRoutes.Truthy(sessionId) ==>
        reply == QuizRoutes.Reply(201, QuizRoutes.SubmitAck(QuizRoutes.StepSubmitted, newId))
        && sessions == old(sessions)[newId := LegacyAnswerDoc(quizId, map[stepIndex := stepAnswers])]
    {
      if quizId !in quizzes {
        return QuizRoutes.Reply(404, QuizRoutes.ErrorMessage(QuizRoutes.QuizNotFound));
      }
      var id: string;
      var doc: LegacyAnswerDoc;
      if QuizRoutes.Truthy(sessionId) {
        id := sessionId.value;
        if id !in sessions {
          return QuizRoutes.Reply(404, QuizRoutes.ErrorMessage(QuizRoutes.SessionNotFound));
        }
        doc := sessions[id];
        doc := doc.(answers := doc.answers[stepIndex := stepAnswers]);
      } else {
        id := newId;
        doc := LegacyAnswerDoc(quizId, map[stepIndex := stepAnswers]);
      }
      sessions := sessions[id := doc];
      reply := QuizRoutes.Reply(201, QuizRoutes.SubmitAck(QuizRoutes.StepSubmitted, id));
    }

    /** POST `/`. */
    method CreateQuiz(quiz: Quiz, newId: string) returns (reply: QuizRoutes.Reply)
      requires newId !in quizzes
      modifies this
      ensures quizzes == old(quizzes)[newId := quiz] && sessions == old(sessions)
      ensures reply == QuizRoutes.Reply(201, QuizRoutes.QuizDocument(newId, quiz))
    {
      quizzes := quizzes[newId := quiz];
      reply := QuizRoutes.Reply(201, QuizRoutes.QuizDocument(newId, quiz));
    }

    /** GET `/:id`. */
    function GetQuiz(id: string): (reply: QuizRoutes.Reply)
      reads this
      ensures reply.status == 200 <==> id in quizzes
      ensures id in quizzes ==> reply.body == QuizRoutes.QuizDocument(id, quizzes[id])
      ensures id !in quizzes ==> reply == QuizRoutes.Reply(404, QuizRoutes.ErrorMessage(QuizRoutes.QuizNotFound))
    {
      if id in quizzes then QuizRoutes.Reply(200, QuizRoutes.QuizDocument(id, quizzes[id]))
      else QuizRoutes.Reply(404, QuizRoutes.ErrorMessage(QuizRoutes.QuizNotFound))
    }

    /** DELETE `/:id`: only the named quiz goes. */
    method DeleteQuiz(id: string) returns (reply: QuizRoutes.Reply)
      modifies this
      ensures quizzes == old(quizzes) - {id} && sessions == old(sessions)
      ensures id in old(quizzes) ==> reply == QuizRoutes.Reply(200, QuizRoutes.Message(QuizRoutes.QuizDeleted))
      ensures id !in old(quizzes) ==>
        reply == QuizRoutes.Reply(404, QuizRoutes.ErrorMessage(QuizRoutes.QuizNotFound))
    {
      if id !in quizzes {
        return QuizRoutes.Reply(404, QuizRoutes.ErrorMessage(QuizRoutes.QuizNotFound));
      }
      quizzes := quizzes - {id};
      reply := QuizRoutes.Reply(200, QuizRoutes.Message(QuizRoutes.QuizDeleted));
    }

    /** PATCH `/:id`. */
    method PatchQuiz(id: string, patch: QuizRoutes.QuizPatch) returns (reply: QuizRoutes.Reply)
      modifies this
      ensures sessions == old(sessions)
      ensures id !in old(quizzes) ==>
        reply == QuizRoutes.Reply(404, QuizRoutes.ErrorMessage(QuizRoutes.QuizNotFound))
        && quizzes == old(quizzes)
      ensures id in old(quizzes) ==>
        quizzes == old(quizzes)[id := QuizRoutes.ApplyPatch(old(quizzes)[id], patch)]
        && reply == QuizRoutes.Reply(200, QuizRoutes.QuizDocument(id, quizzes[id]))
    {
      if id !in quizzes {
        return QuizRoutes.Reply(404, QuizRoutes.ErrorMessage(QuizRoutes.QuizNotFound));
      }
      var updated := QuizRoutes.ApplyPatch(quizzes[id], patch);
      quizzes := quizzes[id := updated];
      reply := QuizRoutes.Reply(200, QuizRoutes.QuizDocument(id, updated));
    }
  }
}
