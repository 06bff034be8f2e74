/**
 * The quiz routes of the TypeScript server: a store of quiz documents and of answer sessions,
 * and the handlers that read and change them. A session is filled one step at a time: the first
 * submission creates it, later ones replace a single step's answers.
 */
module QuizRoutes {
  import opened Wrappers
  import opened QuizData

  const QuizNotFound: string := "Quiz not found"
  const SessionNotFound: string := "Session not found"
  const StepSubmitted: string := "Step answers submitted"
  const QuizDeleted: string := "Quiz deleted"

  /** A stored answer session: the quiz it was created for, the answers by step index, and the
      scores the client computed. */
  datatype AnswerDoc = AnswerDoc(quizId: string, answers: Answers, calculatedScores: map<string, int>)

  /** The JSON body of a response. */
  datatype Body =
    | ErrorMessage(error: string)
    | SubmitAck(message: string, sessionId: string)
    | QuizDocument(id: string, quiz: Quiz)
    | SessionDocument(id: string, session: AnswerDoc)
    | Message(message: string)

  datatype Reply = Reply(status: nat, body: Body)

  /** The fields a PATCH or PUT body may carry; an absent field is left as stored. */
  datatype QuizPatch = QuizPatch(title: Option<string>, steps: Option<seq<Step>>)

  /** A request's `sessionId` selects an existing session only when it is truthy: absent, `null`
      and the empty string all start a new one. */
  predicate Truthy(sessionId: Option<string>) {
    sessionId.Some? && sessionId.value != ""
  }

  /** `findByIdAndUpdate(id, body)`: the fields present in the body replace the stored ones. */
  function ApplyPatch(q: Quiz, p: QuizPatch): (r: Quiz)
    ensures p.title.Some? ==> r.title == p.title.value
    ensures p.title.None? ==> r.title == q.title
    ensures p.steps.Some? ==> r.steps == p.steps.value
    ensures p.steps.None? ==> r.steps == q.steps
  {
    Quiz(p.title.GetOr(q.title), p.steps.GetOr(q.steps))
  }

  /** Applying the same body twice is the same as applying it once, and an empty body changes
      nothing. */
  lemma ApplyPatchIdempotent(q: Quiz, p: QuizPatch)
    ensures ApplyPatch(ApplyPatch(q, p), p) == ApplyPatch(q, p)
    ensures ApplyPatch(q, QuizPatch(None, None)) == q
  {
  }

  /** The document created by a first submission. */
  function NewSession(quizId: string, stepIndex: int, stepAnswers: StepAnswers,
                      calculatedScores: Option<map<string, int>>): (r: AnswerDoc)
    ensures r.quizId == quizId
    ensures r.answers.Keys == {stepIndex} && r.answers[stepIndex] == stepAnswers
    ensures calculatedScores.Some? ==> r.calculatedScores == calculatedScores.value
    ensures calculatedScores.None? ==> r.calculatedScores == map[]
  {
    AnswerDoc(quizId, map[stepIndex := stepAnswers], calculatedScores.GetOr(map[]))
  }

  /** A later submission to an existing session: the step's entry is replaced wholesale, every
      other step and the owning quiz stay as they were, and the scores change only when the
      request carries some. */
  function RecordStep(doc: AnswerDoc, stepIndex: int, stepAnswers: StepAnswers,
                      calculatedScores: Option<map<string, int>>): (r: AnswerDoc)
    ensures r.quizId == doc.quizId
    ensures stepIndex in r.answers && r.answers[stepIndex] == stepAnswers
    ensures forall k :: k != stepIndex ==> (k in r.answers <==> k in doc.answers)
    ensures forall k :: k != stepIndex && k in doc.answers ==> r.answers[k] == doc.answers[k]
    ensures calculatedScores.Some? ==> r.calculatedScores == calculatedScores.value
    ensures calculatedScores.None? ==> r.calculatedScores == doc.calculatedScores
  {
    doc.(answers := doc.answers[stepIndex := stepAnswers],
         calculatedScores := calculatedScores.GetOr(doc.calculatedScores))
  }

  /** Submitting the same step twice keeps only the second submission. */
  lemma RecordStepOverwrites(doc: AnswerDoc, i: int, a1: StepAnswers, a2: StepAnswers)
    ensures RecordStep(RecordStep(doc, i, a1, None), i, a2, None) == RecordStep(doc, i, a2, None)
  {
  }

  /** A sequence of later submissions (step index and answers) without scores, in order. */
  function Replay(doc: AnswerDoc, subs: seq<(int, StepAnswers)>): AnswerDoc {
    if subs == [] then doc
    else RecordStep(Replay(doc, subs[..|subs| - 1]), subs[|subs| - 1].0, subs[|subs| - 1].1, None)
  }

  /** The answers most recently submitted for step `k`, if any. */
  function LastSubmitted(subs: seq<(int, StepAnswers)>, k: int): Option<StepAnswers> {
    if subs == [] then None
    else if subs[|subs| - 1].0 == k then Some(subs[|subs| - 1].1)
    else LastSubmitted(subs[..|subs| - 1], k)
  }

  /** Last write wins, step by step: after any sequence of submissions a step holds the answers
      submitted for it last, a step never submitted keeps what it had, and the owning quiz and
      the scores are untouched. */
  lemma {:induction false} ReplayLastWriteWins(doc: AnswerDoc, subs: seq<(int, StepAnswers)>, k: int)
    ensures Replay(doc, subs).quizId == doc.quizId
    ensures Replay(doc, subs).calculatedScores == doc.calculatedScores
    ensures LastSubmitted(subs, k).Some? ==>
      k in Replay(doc, subs).answers && Replay(doc, subs).answers[k] == LastSubmitted(subs, k).value
    ensures LastSubmitted(subs, k).None? ==>
      (k in Replay(doc, subs).answers <==> k in doc.answers)
      && (k in doc.answers ==> Replay(doc, subs).answers[k] == doc.answers[k])
  {
    if subs != [] {
      ReplayLastWriteWins(doc, subs[..|subs| - 1], k);
    }
  }

  /** The quiz and answer-session collections, and the route handlers over them. */
  class QuizStore {
    var quizzes: map<string, Quiz>
    var sessions: map<string, AnswerDoc>

    constructor ()
      ensures quizzes == map[] && sessions == map[]
    {
      quizzes := map[];
      sessions := map[];
    }

    /** POST `/:id/answers`. `newId` is the id the database assigns to a created session: fresh
        and non-empty. The quiz must exist; a truthy `sessionId` must name a stored session, whose
        owning quiz is not compared with the route's. */
    method SubmitStep(quizId: string, sessionId: Option<string>, stepIndex: int,
                      stepAnswers: StepAnswers, calculatedScores: Option<map<string, int>>,
                      newId: string) returns (reply: Reply)
      requires newId != "" && newId !in sessions
      modifies this
      ensures quizzes == old(quizzes)
      ensures quizId !in quizzes ==>
        reply == Reply(404, ErrorMessage(QuizNotFound)) && sessions == old(sessions)
      ensures quizId in quizzes && Truthy(sessionId) && sessionId.value !in old(sessions) ==>
        reply == Reply(404, ErrorMessage(SessionNotFound)) && sessions == old(sessions)
      ensures quizId in quizzes && Truthy(sessionId) && sessionId.value in old(sessions) ==>
        reply == Reply(201, SubmitAck(StepSubmitted, sessionId.value))
        && sessions == old(sessions)[sessionId.value :=
             RecordStep(old(sessions)[sessionId.value], stepIndex, stepAnswers, calculatedScores)]
      ensures quizId in quizzes && !Truthy(sessionId) ==>
        reply == Reply(201, SubmitAck(StepSubmitted, newId))
        && sessions == old(sessions)[newId := NewSession(quizId, stepIndex, stepAnswers, calculatedScores)]
      ensures reply.status == 201 ==>
        reply.body.SubmitAck? && reply.body.sessionId != "" && reply.body.sessionId in sessions
        && stepIndex in sessions[reply.body.sessionId].answers
        && sessions[reply.body.sessionId].answers[stepIndex] == stepAnswers
    {
      if quizId !in quizzes {
        return Reply(404, ErrorMessage(QuizNotFound));
      }
      var id: string;
      var doc: AnswerDoc;
      if Truthy(sessionId) {
        id := sessionId.value;
        if id !in sessions {
          return Reply(404, ErrorMessage(SessionNotFound));
        }
        doc := sessions[id];
        doc := doc.(answers := doc.answers[stepIndex := stepAnswers]);
        if calculatedScores.Some? {
          doc := doc.(calculatedScores := calculatedScores.value);
        }
      } else {
        id := newId;
        doc := AnswerDoc(quizId, map[stepIndex := stepAnswers],
                         if calculatedScores.Some? then calculatedScores.value else map[]);
      }
      sessions := sessions[id := doc];
      reply := Reply(201, SubmitAck(StepSubmitted, id));
    }

    /** POST `/`: store a new quiz under the id the database assigns. */
    method CreateQuiz(quiz: Quiz, newId: string) returns (reply: Reply)
      requires newId !in quizzes
      modifies this
      ensures quizzes == old(quizzes)[newId := quiz] && sessions == old(sessions)
      ensures reply == Reply(201, QuizDocument(newId, quiz))
    {
      quizzes := quizzes[newId := quiz];
      reply := Reply(201, QuizDocument(newId, quiz));
    }

    /** GET `/:id`. */
    function GetQuiz(id: string): (reply: Reply)
      reads this
      ensures reply.status == 200 <==> id in quizzes
      ensures id in quizzes ==> reply.body == QuizDocument(id, quizzes[id])
      ensures id !in quizzes ==> reply == Reply(404, ErrorMessage(QuizNotFound))
    {
      if id in quizzes then Reply(200, QuizDocument(id, quizzes[id]))
      else Reply(404, ErrorMessage(QuizNotFound))
    }

    /** GET `/:id/answers/:sessionId`: the route's quiz id plays no part. */
    function GetSession(sessionId: string): (reply: Reply)
      reads this
      ensures reply.status == 200 <==> sessionId in sessions
      ensures sessionId in sessions ==> reply.body == SessionDocument(sessionId, sessions[sessionId])
      ensures sessionId !in sessions ==> reply == Reply(404, ErrorMessage(SessionNotFound))
    {
      if sessionId in sessions then Reply(200, SessionDocument(sessionId, sessions[sessionId]))
      else Reply(404, ErrorMessage(SessionNotFound))
    }

    /** DELETE `/:id`: only the named quiz goes; its answer sessions stay. */
    method DeleteQuiz(id: string) returns (reply: Reply)
      modifies this
      ensures quizzes == old(quizzes) - {id} && sessions == old(sessions)
      ensures id in old(quizzes) ==> reply == Reply(200, Message(QuizDeleted))
      ensures id !in old(quizzes) ==> reply == Reply(404, ErrorMessage(QuizNotFound))
    {
      if id !in quizzes {
        return Reply(404, ErrorMessage(QuizNotFound));
      }
      quizzes := quizzes - {id};
      reply := Reply(200, Message(QuizDeleted));
    }

    /** PATCH `/:id`: the updated document is returned. */
    method PatchQuiz(id: string, patch: QuizPatch) returns (reply: Reply)
      modifies this
      ensures sessions == old(sessions)
      ensures id !in old(quizzes) ==>
        reply == Reply(404, ErrorMessage(QuizNotFound)) && quizzes == old(quizzes)
      ensures id in old(quizzes) ==>
        quizzes == old(quizzes)[id := ApplyPatch(old(quizzes)[id], patch)]
        && reply == Reply(200, QuizDocument(id, quizzes[id]))
    {
      if id !in quizzes {
        return Reply(404, ErrorMessage(QuizNotFound));
      }
      var updated := ApplyPatch(quizzes[id], patch);
      quizzes := quizzes[id := updated];
      reply := Reply(200, QuizDocument(id, updated));
    }

    /** PUT `/:id`: the same update as PATCH; fields absent from the body are kept. */
    method PutQuiz(id: string, patch: QuizPatch) returns (reply: Reply)
      modifies this
      ensures sessions == old(sessions)
      ensures id !in old(quizzes) ==>
        reply == Reply(404, ErrorMessage(QuizNotFound)) && quizzes == old(quizzes)
      ensures id in old(quizzes) ==>
        quizzes == old(quizzes)[id := ApplyPatch(old(quizzes)[id], patch)]
        && reply == Reply(200, QuizDocument(id, quizzes[id]))
    {
      reply := PatchQuiz(id, patch);
    }
  }

  /** Two steps submitted the way the quiz viewer does it: the first without a session creates
      one, the second names it (the id the database would have assigned to a second session goes
      unused), and reading the session back shows both steps. */
  method TwoStepSession(store: QuizStore, quizId: string, a0: StepAnswers, a1: StepAnswers,
                        newId: string, spareId: string) returns (reply: Reply)
    requires quizId in store.quizzes
    requires newId != "" && newId !in store.sessions
    requires spareId != "" && spareId !in store.sessions && spareId != newId
    modifies store
    ensures reply.status == 200 && reply.body.SessionDocument?
    ensures reply.body.session.quizId == quizId
    ensures reply.body.session.answers == map[0 := a0, 1 := a1]
  {
    var first := store.SubmitStep(quizId, None, 0, a0, None, newId);
    var second := store.SubmitStep(quizId, Some(first.body.sessionId), 1, a1, None, spareId);
    reply := store.GetSession(first.body.sessionId);
    assert store.sessions[newId].answers == map[0 := a0][1 := a1];
  }
}
