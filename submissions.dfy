/** The Submission record: a student's answers to one assessment, the
  * grading status it moves through, its defaults, and the stored collection. */
module Submissions {
  import opened Core

  datatype SubmissionStatus = Submitted | Grading | Graded

  function StatusName(s: SubmissionStatus): string
  {
    match s
    case Submitted => "Submitted"
    case Grading => "Grading"
    case Graded => "Graded"
  }

  /** A student answer is any JSON value; `None` stands for a missing one. */
  datatype Answer = Answer(
    questionId: string,
    questionText: string,
    studentAnswer: Option<string>,
    correctAnswer: Option<string>,
    marksObtained: real,
    maxMarks: real,
    isCorrect: bool,
    aiFeedback: Option<string>)

  /** A note the grading agent records for one answer (numbered from 1): the
    * accuracy and feedback it received, or the reason grading it failed. */
  datatype GradingNote =
    | Assessed(position: nat, accuracy: Option<real>, feedback: Option<string>)
    | Failed(position: nat, reason: string)

  datatype Submission = Submission(
    id: Id,
    assessmentId: Id,
    studentId: Id,
    answers: seq<Answer>,
    totalMarksObtained: real,
    totalMarks: real,
    percentage: real,
    status: SubmissionStatus,
    submittedAt: int,
    gradedAt: Option<int>,
    timeTaken: real,
    gradingNotes: Option<seq<GradingNote>>)

  /** An answer as first stored: no marks, not correct, no feedback. */
  function NewAnswer(questionId: string, questionText: string, studentAnswer: Option<string>,
                     correctAnswer: Option<string>, maxMarks: real): (a: Answer)
    ensures a.marksObtained == 0.0 && !a.isCorrect && a.aiFeedback.None?
    ensures a.questionId == questionId && a.maxMarks == maxMarks
  {
    Answer(questionId, questionText, studentAnswer, correctAnswer, 0.0, maxMarks, false, None)
  }

  predicate ValidAnswer(a: Answer)
  {
    a.questionId != "" && a.questionText != "" && a.studentAnswer.Some?
  }

  /** The messages of every rule the record breaks. */
  function ValidationErrors(s: Submission): (errs: seq<string>)
    ensures errs == [] <==>
      |s.answers| > 0 && forall i :: 0 <= i < |s.answers| ==> ValidAnswer(s.answers[i])
  {
    (if |s.answers| == 0 then ["At least one answer is required"] else [])
    + (if exists i :: 0 <= i < |s.answers| && !ValidAnswer(s.answers[i])
       then ["Invalid answer"] else [])
  }

  /** A new record: nothing obtained yet, status Submitted, not graded. */
  function NewSubmission(id: Id, assessmentId: Id, studentId: Id, answers: seq<Answer>,
                         totalMarks: real, timeTaken: real, now: int): (s: Submission)
    ensures s.status == Submitted && s.totalMarksObtained == 0.0 && s.percentage == 0.0
    ensures s.gradedAt.None? && s.gradingNotes.None? && s.submittedAt == now
    ensures s.answers == answers && s.totalMarks == totalMarks
  {
    Submission(id, assessmentId, studentId, answers, 0.0, totalMarks, 0.0, Submitted, now,
               None, timeTaken, None)
  }

  predicate UniqueIds(docs: seq<Submission>)
  {
    forall i, j :: 0 <= i < j < |docs| ==> docs[i].id != docs[j].id
  }

  function IndexOf(docs: seq<Submission>, id: Id): (r: Option<nat>)
    ensures r.Some? ==> r.value < |docs| && docs[r.value].id == id
    ensures r.None? ==> forall k :: 0 <= k < |docs| ==> docs[k].id != id
  {
    FindFirst(docs, (s: Submission) => s.id == id)
  }

  /** The submissions collection, in natural order. */
  class SubmissionStore {
    var docs: seq<Submission>

    constructor (initial: seq<Submission>)
      ensures docs == initial
    {
      docs := initial;
    }
  }
}
