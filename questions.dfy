/** The question set of an assessment: per-question constraints, the
  * required fields of the set, and the pre-save rule that recomputes the
  * set's total marks from its questions. */
module Questions {
  import opened Core

  const InputTypes: seq<string> :=
    ["MCQ", "Multiple Select", "Short Answer", "Long Answer", "True/False", "Fill in the Blank"]

  const Difficulties: seq<string> := ["Easy", "Medium", "Hard"]

  /** The difficulty a question takes when none is given. */
  const DefaultDifficulty: string := "Medium"

  datatype AnswerOption = AnswerOption(option: Option<string>, isCorrect: bool, explanation: string)

  /** `marks` is `None` when the question came without a mark. */
  datatype Question = Question(
    questionId: string,
    text: string,
    inputType: string,
    answers: seq<AnswerOption>,
    marks: Option<real>,
    difficulty: string,
    topic: string,
    order: int)

  datatype QuestionSet = QuestionSet(
    id: Id,
    assessmentId: Option<Id>,
    questions: seq<Question>,
    classId: Option<Id>,
    subjectId: Option<Id>,
    gradeId: Option<Id>,
    totalMarks: real,
    isActive: bool)

  /** `q.marks || 0`: a missing mark counts as zero. */
  function MarksOrZero(q: Question): (m: real)
    ensures q.marks.Some? ==> m == q.marks.value
    ensures q.marks.None? ==> m == 0.0
  {
    if q.marks.Some? then q.marks.value else 0.0
  }

  function MarksList(qs: seq<Question>): (ms: seq<real>)
    ensures |ms| == |qs|
    ensures forall i :: 0 <= i < |qs| ==> ms[i] == MarksOrZero(qs[i])
  {
    seq(|qs|, i requires 0 <= i < |qs| => MarksOrZero(qs[i]))
  }

  /** The schema rules of one question. */
  predicate ValidQuestion(q: Question)
  {
    q.text != "" && q.inputType in InputTypes && q.marks.Some? && q.marks.value >= 0.0
    && q.difficulty in Difficulties && q.topic != ""
  }

  /** The messages of every rule the set breaks, in field order. */
  function ValidationErrors(s: QuestionSet): (errs: seq<string>)
    ensures errs == [] <==>
      s.assessmentId.Some? && |s.questions| > 0
      && (forall i :: 0 <= i < |s.questions| ==> ValidQuestion(s.questions[i]))
      && s.classId.Some? && s.subjectId.Some? && s.gradeId.Some?
  {
    (if s.assessmentId.None? then ["Assessment ID is required"] else [])
    + (if |s.questions| == 0 then ["Questions array cannot be empty"] else [])
    + (if exists i :: 0 <= i < |s.questions| && !ValidQuestion(s.questions[i])
       then ["Invalid question"] else [])
    + (if s.classId.None? then ["Class ID is required"] else [])
    + (if s.subjectId.None? then ["Subject ID is required"] else [])
    + (if s.gradeId.None? then ["Grade ID is required"] else [])
  }

  /** The pre-save hook: a set with questions gets its total recomputed. */
  function PreSave(s: QuestionSet): QuestionSet
  {
    if |s.questions| > 0 then s.(totalMarks := Sum(MarksList(s.questions))) else s
  }

  /** Saving: validation first, then the pre-save hook. */
  function Save(s: QuestionSet): (r: Result<QuestionSet>)
    ensures r.Ok? <==> ValidationErrors(s) == []
  {
    if ValidationErrors(s) != [] then Err(ValidationErrors(s)[0]) else Ok(PreSave(s))
  }

  /** A saved set's total is the sum of its question marks, whatever total was
    * supplied, and it is never negative; nothing else about the set changes. */
  lemma {:induction false} SavedTotal(s: QuestionSet, supplied: real)
    requires Save(s).Ok?
    ensures Save(s.(totalMarks := supplied)).Ok?
    ensures Save(s.(totalMarks := supplied)).value == Save(s).value
    ensures Save(s).value == s.(totalMarks := Sum(MarksList(s.questions)))
    ensures Save(s).value.totalMarks >= 0.0
  {
    SumNonNegative(MarksList(s.questions));
  }

  /** Saving a saved set again changes nothing. */
  lemma PreSaveIdempotent(s: QuestionSet)
    ensures PreSave(PreSave(s)) == PreSave(s)
  {
  }

  /** A set without questions is never saved. */
  lemma EmptySetRejected(s: QuestionSet)
    requires |s.questions| == 0
    ensures Save(s).Err?
  {
  }

  /** The first question set of an assessment (`findOne({ assessment_id })`). */
  function SetFor(docs: seq<QuestionSet>, assessmentId: Id): (r: Option<QuestionSet>)
    ensures r.Some? ==> r.value in docs && r.value.assessmentId == Some(assessmentId)
    ensures r.None? ==> forall k :: 0 <= k < |docs| ==> docs[k].assessmentId != Some(assessmentId)
  {
    match FindFirst(docs, (s: QuestionSet) => s.assessmentId == Some(assessmentId))
    case None => None
    case Some(k) => Some(docs[k])
  }

  /** The question-set collection, in natural order. */
  class QuestionStore {
    var docs: seq<QuestionSet>

    constructor (initial: seq<QuestionSet>)
      ensures docs == initial
    {
      docs := initial;
    }
  }
}
