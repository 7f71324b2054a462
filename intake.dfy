/** Submission intake: the checks a submission request goes through and the
  * Submitted record it produces. Nothing is graded here; every processed
  * answer starts with no marks. */
module SubmissionIntake {
  import opened Core
  import opened Assessments
  import opened Questions
  import opened Submissions

  datatype AnswerInput = AnswerInput(questionId: string, studentAnswer: Option<string>)

  /** `answers` is `None` when the field is missing or is not an array. */
  datatype SubmitRequest = SubmitRequest(
    assessmentId: Option<Id>,
    studentId: Option<Id>,
    answers: Option<seq<AnswerInput>>,
    timeTaken: Option<real>)

  const MissingFields := "Missing required fields: assessment_id, student_id, answers (array)"
  const AlreadySubmittedMessage := "You have already submitted this assessment"

  /** The question map: question id to question; a later question with the
    * same id replaces an earlier one. */
  function QuestionIndex(qs: seq<Question>): map<string, Question>
  {
    if qs == [] then map[]
    else QuestionIndex(qs[..|qs| - 1])[qs[|qs| - 1].questionId := qs[|qs| - 1]]
  }

  /** The map holds exactly the ids of the set. */
  lemma {:induction false} QuestionIndexHas(qs: seq<Question>, id: string)
    ensures id in QuestionIndex(qs) <==> exists k :: 0 <= k < |qs| && qs[k].questionId == id
    decreases |qs|
  {
    if qs != [] {
      var init := qs[..|qs| - 1];
      QuestionIndexHas(init, id);
      if exists k :: 0 <= k < |qs| && qs[k].questionId == id {
        var k :| 0 <= k < |qs| && qs[k].questionId == id;
        if k < |init| {
          assert init[k] == qs[k];
        }
      }
      if id in QuestionIndex(init) {
        var k :| 0 <= k < |init| && init[k].questionId == id;
        assert qs[k] == init[k];
      }
    }
  }

  /** Each id maps to the last question carrying it. */
  lemma {:induction false} QuestionIndexLastWins(qs: seq<Question>, id: string, k: nat)
    requires k < |qs| && qs[k].questionId == id
    requires forall l :: k < l < |qs| ==> qs[l].questionId != id
    ensures id in QuestionIndex(qs) && QuestionIndex(qs)[id] == qs[k]
    decreases |qs|
  {
    if k < |qs| - 1 {
      var init := qs[..|qs| - 1];
      assert init[k] == qs[k];
      QuestionIndexLastWins(init, id, k);
    }
  }

  /** Every question in the map sits under its own id. */
  lemma {:induction false} QuestionIndexKeys(qs: seq<Question>)
    ensures forall id :: id in QuestionIndex(qs) ==> QuestionIndex(qs)[id].questionId == id
    decreases |qs|
  {
    if qs != [] {
      QuestionIndexKeys(qs[..|qs| - 1]);
    }
  }

  /** The test that picks out an answer naming no question of the map. */
  function UnknownIn(index: map<string, Question>): AnswerInput -> bool
  {
    (a: AnswerInput) => a.questionId !in index
  }

  /** The stored form of one answer to a known question. */
  function ProcessedAnswer(a: AnswerInput, q: Question): Answer
  {
    NewAnswer(q.questionId, q.text, a.studentAnswer, None, MarksOrZero(q))
  }

  function ProcessAll(answers: seq<AnswerInput>, index: map<string, Question>): (ps: seq<Answer>)
    requires forall k :: 0 <= k < |answers| ==> answers[k].questionId in index
    ensures |ps| == |answers|
  {
    seq(|answers|, k requires 0 <= k < |answers| => ProcessedAnswer(answers[k], index[answers[k].questionId]))
  }

  function MaxMarksOf(ps: seq<Answer>): (ms: seq<real>)
    ensures |ms| == |ps|
  {
    seq(|ps|, k requires 0 <= k < |ps| => ps[k].maxMarks)
  }

  /** The answers in stored form, or the message naming the first answer
    * whose question is not in the map. */
  function Process(answers: seq<AnswerInput>, index: map<string, Question>): (r: Result<seq<Answer>>)
    requires forall id :: id in index ==> index[id].questionId == id
    ensures r.Ok? ==> |r.value| == |answers|
    ensures r.Ok? ==> forall k :: 0 <= k < |answers| ==>
      answers[k].questionId in index && r.value[k] == ProcessedAnswer(answers[k], index[answers[k].questionId])
    ensures r.Err? <==> exists k :: 0 <= k < |answers| && answers[k].questionId !in index
  {
    match FindFirst(answers, UnknownIn(index))
    case Some(u) => Err("Question " + answers[u].questionId + " not found")
    case None => Ok(ProcessAll(answers, index))
  }

  /** Fills the question map one question at a time. */
  method BuildIndex(questions: seq<Question>) returns (index: map<string, Question>)
    ensures index == QuestionIndex(questions)
    ensures forall id :: id in index ==> index[id].questionId == id
  {
    index := map[];
    var i := 0;
    while i < |questions|
      invariant 0 <= i <= |questions|
      invariant index == QuestionIndex(questions[..i])
    {
      assert questions[..i + 1][..i] == questions[..i];
      index := index[questions[i].questionId := questions[i]];
      i := i + 1;
    }
    assert questions[..i] == questions;
    QuestionIndexKeys(questions);
  }

  /** Walks the answers in order, stopping at the first unknown question and
    * otherwise accumulating the answered questions' marks. */
  method ProcessAnswers(answers: seq<AnswerInput>, index: map<string, Question>)
    returns (processed: Result<seq<Answer>>, totalMarks: real)
    requires forall id :: id in index ==> index[id].questionId == id
    ensures processed == Process(answers, index)
    ensures processed.Ok? ==> totalMarks == Sum(MaxMarksOf(processed.value))
  {
    var done: seq<Answer> := [];
    totalMarks := 0.0;
    var j := 0;
    while j < |answers|
      invariant 0 <= j <= |answers|
      invariant forall k :: 0 <= k < j ==> answers[k].questionId in index
      invariant done == ProcessAll(answers[..j], index)
      invariant totalMarks == Sum(MaxMarksOf(done))
    {
      var question := answers[j].questionId;
      if question !in index {
        FindFirstAt(answers, UnknownIn(index), j);
        return Err("Question " + question + " not found"), totalMarks;
      }
      var q := index[question];
      var entry := ProcessedAnswer(answers[j], q);
      assert MaxMarksOf(done + [entry]) == MaxMarksOf(done) + [entry.maxMarks];
      SumAppend(MaxMarksOf(done), entry.maxMarks);
      totalMarks := totalMarks + MarksOrZero(q);
      done := done + [entry];
      assert answers[..j + 1][..j] == answers[..j];
      j := j + 1;
    }
    assert answers[..j] == answers;
    processed := Ok(done);
  }

  /** Whether the student already has a submission for the assessment. */
  predicate AlreadySubmitted(docs: seq<Submission>, assessmentId: Id, studentId: Id)
  {
    exists k :: 0 <= k < |docs| && docs[k].assessmentId == assessmentId && docs[k].studentId == studentId
  }

  /** The reply to a submission request, given the stored assessments,
    * question sets and submissions, the id the new record gets and the time. */
  function Submit(req: SubmitRequest, assessments: seq<Assessment>, sets: seq<QuestionSet>,
                  docs: seq<Submission>, newId: Id, now: int): (r: Response<Submission>)
    ensures req.assessmentId.None? || req.studentId.None? || req.answers.None? ==>
      r == Failure(400, MissingFields)
    ensures r.Success? ==> (r.code == 201
      && Assessments.IndexOf(assessments, r.body.assessmentId).Some?
      && assessments[Assessments.IndexOf(assessments, r.body.assessmentId).value].status == Active
      && !AlreadySubmitted(docs, r.body.assessmentId, r.body.studentId))
    ensures r.Success? ==> var s := r.body;
      s.status == Submitted && s.totalMarksObtained == 0.0 && s.percentage == 0.0
      && s.gradedAt.None? && s.submittedAt == now && s.id == newId
      && s.timeTaken == req.timeTaken.GetOr(0.0)
      && s.totalMarks == Sum(MaxMarksOf(s.answers))
      && req.answers.Some? && |s.answers| == |req.answers.value|
      && forall k :: 0 <= k < |s.answers| ==>
           s.answers[k].questionId == req.answers.value[k].questionId
           && s.answers[k].studentAnswer == req.answers.value[k].studentAnswer
           && s.answers[k].marksObtained == 0.0 && !s.answers[k].isCorrect
           && s.answers[k].correctAnswer.None? && s.answers[k].aiFeedback.None?
  {
    if req.assessmentId.None? || req.studentId.None? || req.answers.None? then
      Failure(400, MissingFields)
    else
      var aid, sid, answers := req.assessmentId.value, req.studentId.value, req.answers.value;
      match Assessments.IndexOf(assessments, aid)
      case None => Failure(404, "Assessment not found")
      case Some(ai) =>
        if assessments[ai].status != Active then
          Failure(400, "Assessment is not active. Current status: " + Assessments.StatusName(assessments[ai].status))
        else if AlreadySubmitted(docs, aid, sid) then
          Failure(400, AlreadySubmittedMessage)
        else match SetFor(sets, aid)
          case None => Failure(404, "Questions not found for this assessment")
          case Some(qset) =>
            QuestionIndexKeys(qset.questions);
            match Process(answers, QuestionIndex(qset.questions))
            case Err(message) => Failure(400, message)
            case Ok(ps) =>
              var sub := NewSubmission(newId, aid, sid, ps, Sum(MaxMarksOf(ps)),
                                       req.timeTaken.GetOr(0.0), now);
              if Submissions.ValidationErrors(sub) != [] then Failure(500, "Internal server error")
              else Success(201, sub)
  }

  /** `submitAssessment`: on success the new record is appended to the
    * collection; on every other reply the collection is unchanged. */
  method SubmitAssessment(req: SubmitRequest, assessments: seq<Assessment>, sets: seq<QuestionSet>,
                          store: SubmissionStore, newId: Id, now: int) returns (r: Response<Submission>)
    modifies store
    ensures r == Submit(req, assessments, sets, old(store.docs), newId, now)
    ensures store.docs == if r.Success? then old(store.docs) + [r.body] else old(store.docs)
  {
    if req.assessmentId.None? || req.studentId.None? || req.answers.None? {
      return Failure(400, MissingFields);
    }
    var aid, sid, answers := req.assessmentId.value, req.studentId.value, req.answers.value;
    var ai := Assessments.IndexOf(assessments, aid);
    if ai.None? {
      return Failure(404, "Assessment not found");
    }
    var assessment := assessments[ai.value];
    if assessment.status != Active {
      return Failure(400, "Assessment is not active. Current status: " + Assessments.StatusName(assessment.status));
    }
    if AlreadySubmitted(store.docs, aid, sid) {
      return Failure(400, AlreadySubmittedMessage);
    }
    var found := SetFor(sets, aid);
    if found.None? {
      return Failure(404, "Questions not found for this assessment");
    }
    var index := BuildIndex(found.value.questions);
    var processed, totalMarks := ProcessAnswers(answers, index);
    if processed.Err? {
      return Failure(400, processed.error);
    }
    var submission := NewSubmission(newId, aid, sid, processed.value, totalMarks, req.timeTaken.GetOr(0.0), now);
    if Submissions.ValidationErrors(submission) != [] {
      return Failure(500, "Internal server error");
    }
    store.docs := store.docs + [submission];
    return Success(201, submission);
  }

  /** The first element satisfying `p` is at `j` when none before it does. */
  lemma FindFirstAt<T>(s: seq<T>, p: T -> bool, j: nat)
    requires j < |s| && p(s[j])
    requires forall k :: 0 <= k < j ==> !p(s[k])
    ensures FindFirst(s, p) == Some(j)
  {
    var r := FindFirst(s, p);
    assert r.Some?;
  }

  /** A student can submit an assessment at most once: once a submission has
    * been stored, the same request is refused. */
  lemma SecondSubmissionRejected(req: SubmitRequest, assessments: seq<Assessment>, sets: seq<QuestionSet>,
                                 docs: seq<Submission>, newId: Id, nextId: Id, now: int, later: int)
    requires Submit(req, assessments, sets, docs, newId, now).Success?
    ensures var stored := docs + [Submit(req, assessments, sets, docs, newId, now).body];
      Submit(req, assessments, sets, stored, nextId, later) == Failure(400, AlreadySubmittedMessage)
  {
    var s := Submit(req, assessments, sets, docs, newId, now).body;
    var stored := docs + [s];
    assert stored[|docs|] == s;
    assert AlreadySubmitted(stored, s.assessmentId, s.studentId);
  }

  /** An answer naming a question outside the set rejects the whole request
    * and nothing is created. */
  lemma UnknownQuestionRejected(req: SubmitRequest, assessments: seq<Assessment>, sets: seq<QuestionSet>,
                                docs: seq<Submission>, newId: Id, now: int, k: nat, aid: Id)
    requires req.assessmentId == Some(aid) && req.studentId.Some? && req.answers.Some?
    requires SetFor(sets, aid).Some?
    requires k < |req.answers.value|
    requires forall q :: q in SetFor(sets, aid).value.questions ==> q.questionId != req.answers.value[k].questionId
    ensures Submit(req, assessments, sets, docs, newId, now).Failure?
  {
    var index := QuestionIndex(SetFor(sets, aid).value.questions);
    QuestionIndexHas(SetFor(sets, aid).value.questions, req.answers.value[k].questionId);
    assert req.answers.value[k].questionId !in index;
  }
}
