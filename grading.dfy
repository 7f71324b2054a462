/** The grading agent: a Submitted record is moved to Grading, each answer
  * whose question is known is sent to the language model, the reply's
  * accuracy is turned into marks by a three-band rule, and the record ends
  * Graded with its totals and notes. Any error on the way puts the record
  * back to Submitted. The batch runner grades every Submitted record, oldest
  * first.
  *
  * The language model is a parameter: a function from the request the
  * grading agent builds to the reply it parses. Its own `marks` field plays no
  * part, since the grading agent always overwrites it. */
module Grading {
  import opened Core
  import opened Sorting
  import Assessments
  import opened Questions
  import opened Submissions
  import opened SubmissionIntake

  const NoExpectedAnswer := "No expected answer provided"
  const ModelFailure := "Failed to grade answer with AI"
  const NotFound := "Submission not found"
  const QuestionsMissing := "Assessment questions not found"
  /** The error raised when the record's assessment reference populates to null. */
  const AssessmentMissing := "Cannot read properties of null (reading 'title')"

  /** What the grading agent sends for one answer. */
  datatype GradingRequest = GradingRequest(
    questionText: string,
    expected: string,
    studentAnswer: Option<string>,
    maxMarks: real)

  /** The parsed reply: its accuracy percentage (`None` when missing or not a
    * number) and feedback, or no usable reply at all (a failed call, no JSON
    * object in the text, or JSON that does not parse). */
  datatype ModelReply = Reply(accuracy: Option<real>, feedback: Option<string>) | NoReply

  /** The three-band rule: 90 and above earns the full marks, 50 and above
    * half of them, anything else (a missing accuracy included) nothing. */
  function AwardedMarks(accuracy: Option<real>, maxMarks: real): (m: real)
    ensures m == 0.0 || m == maxMarks / 2.0 || m == maxMarks
    ensures maxMarks >= 0.0 ==> 0.0 <= m <= maxMarks
  {
    if accuracy.Some? && accuracy.value >= 90.0 then maxMarks
    else if accuracy.Some? && accuracy.value >= 50.0 then maxMarks / 2.0
    else 0.0
  }

  /** The boundaries belong to the higher band: full marks exactly from 90
    * on, and nothing exactly below 50 (or without an accuracy). */
  lemma AwardedBands(accuracy: Option<real>, maxMarks: real)
    requires maxMarks > 0.0
    ensures AwardedMarks(accuracy, maxMarks) == maxMarks <==> accuracy.Some? && accuracy.value >= 90.0
    ensures AwardedMarks(accuracy, maxMarks) == maxMarks / 2.0 <==>
      accuracy.Some? && 50.0 <= accuracy.value < 90.0
    ensures AwardedMarks(accuracy, maxMarks) == 0.0 <==> accuracy.None? || accuracy.value < 50.0
  {
  }

  /** A more accurate answer never earns fewer marks. */
  lemma AwardedMonotone(a: real, b: real, maxMarks: real)
    requires a <= b && maxMarks >= 0.0
    ensures AwardedMarks(Some(a), maxMarks) <= AwardedMarks(Some(b), maxMarks)
  {
  }

  /** `question.answers[0]?.option || 'No expected answer provided'`. */
  function ExpectedAnswer(q: Question): (e: string)
    ensures e != ""
  {
    if |q.answers| > 0 && q.answers[0].option.Some? && q.answers[0].option.value != ""
    then q.answers[0].option.value
    else NoExpectedAnswer
  }

  function RequestFor(a: Answer, q: Question): GradingRequest
  {
    GradingRequest(a.questionText, ExpectedAnswer(q), a.studentAnswer, a.maxMarks)
  }

  /** What happened to one answer. */
  datatype AnswerGrade =
    | Unmatched
    | Unavailable
    | Awarded(marks: real, accuracy: Option<real>, feedback: Option<string>)

  function GradeOf(a: Answer, index: map<string, Question>, model: GradingRequest -> ModelReply): AnswerGrade
  {
    if a.questionId !in index then Unmatched
    else match model(RequestFor(a, index[a.questionId]))
      case NoReply => Unavailable
      case Reply(accuracy, feedback) => Awarded(AwardedMarks(accuracy, a.maxMarks), accuracy, feedback)
  }

  function Grades(answers: seq<Answer>, index: map<string, Question>,
                  model: GradingRequest -> ModelReply): (gs: seq<AnswerGrade>)
    ensures |gs| == |answers|
  {
    seq(|answers|, k requires 0 <= k < |answers| => GradeOf(answers[k], index, model))
  }

  /** An awarded answer takes its marks, correctness and feedback; any other
    * answer is left as it was. */
  function Regraded(a: Answer, g: AnswerGrade): Answer
  {
    if g.Awarded? then a.(marksObtained := g.marks, isCorrect := g.marks == a.maxMarks, aiFeedback := g.feedback)
    else a
  }

  function GradedAnswers(answers: seq<Answer>, gs: seq<AnswerGrade>): (r: seq<Answer>)
    requires |gs| == |answers|
    ensures |r| == |answers|
  {
    seq(|answers|, k requires 0 <= k < |answers| => Regraded(answers[k], gs[k]))
  }

  function Gained(g: AnswerGrade): real
  {
    if g.Awarded? then g.marks else 0.0
  }

  function Gains(gs: seq<AnswerGrade>): (r: seq<real>)
    ensures |r| == |gs|
  {
    seq(|gs|, k requires 0 <= k < |gs| => Gained(gs[k]))
  }

  function NotesFor(position: nat, g: AnswerGrade): seq<GradingNote>
  {
    match g
    case Unmatched => []
    case Unavailable => [Failed(position, ModelFailure)]
    case Awarded(_, accuracy, feedback) => [Assessed(position, accuracy, feedback)]
  }

  /** One note per answer that reached the model, numbered from 1, in order. */
  function Notes(gs: seq<AnswerGrade>): seq<GradingNote>
  {
    if gs == [] then [] else Notes(gs[..|gs| - 1]) + NotesFor(|gs|, gs[|gs| - 1])
  }

  /** `total_marks > 0 ? obtained / total_marks * 100 : 0`. */
  function Percentage(obtained: real, total: real): (p: real)
    ensures 0.0 <= obtained <= total ==> 0.0 <= p <= 100.0
  {
    if total > 0.0 then obtained / total * 100.0 else 0.0
  }

  /** The record as the grading agent leaves it when nothing throws. */
  function GradedRecord(s: Submission, index: map<string, Question>,
                        model: GradingRequest -> ModelReply, now: int): Submission
  {
    var gs := Grades(s.answers, index, model);
    var obtained := Sum(Gains(gs));
    s.(answers := GradedAnswers(s.answers, gs), totalMarksObtained := obtained,
       percentage := Percentage(obtained, s.totalMarks), status := Graded,
       gradedAt := Some(now), gradingNotes := Some(Notes(gs)))
  }

  /** What `gradeSubmission` returns: a success with the figures, a skip,
    * or a failure with the error message. */
  datatype GradeOutcome =
    | GradedOk(submissionId: Id, obtained: real, totalMarks: real, percentage: real)
    | Skipped(reason: string)
    | GradeFailed(submissionId: Id, error: string)

  /** The collection and the outcome after grading the record `id`.
    * `saveError` is the error the final save raises, if it fails. */
  function GradeResult(docs: seq<Submission>, assessments: seq<Assessments.Assessment>, sets: seq<QuestionSet>,
                       id: Id, model: GradingRequest -> ModelReply, now: int,
                       saveError: Option<string>): (seq<Submission>, GradeOutcome)
  {
    match Submissions.IndexOf(docs, id)
    case None => (docs, GradeFailed(id, NotFound))
    case Some(p) =>
      var s := docs[p];
      if s.status != Submitted then (docs, Skipped("Already " + Submissions.StatusName(s.status)))
      else if Assessments.IndexOf(assessments, s.assessmentId).None? then (docs, GradeFailed(id, AssessmentMissing))
      else match SetFor(sets, s.assessmentId)
        case None => (docs, GradeFailed(id, QuestionsMissing))
        case Some(qset) =>
          if saveError.Some? then (docs, GradeFailed(id, saveError.value))
          else
            var g := GradedRecord(s, QuestionIndex(qset.questions), model, now);
            (docs[p := g], GradedOk(id, g.totalMarksObtained, g.totalMarks, g.percentage))
  }

  /** `gradeSubmission`: the record is saved as Grading, its answers are
    * graded in place one by one, and it is saved as Graded; on an error it
    * is put back to Submitted. */
  method GradeSubmission(store: SubmissionStore, assessments: seq<Assessments.Assessment>, sets: seq<QuestionSet>,
                         id: Id, model: GradingRequest -> ModelReply, now: int,
                         saveError: Option<string>) returns (outcome: GradeOutcome)
    modifies store
    ensures (store.docs, outcome) == GradeResult(old(store.docs), assessments, sets, id, model, now, saveError)
  {
    var found := Submissions.IndexOf(store.docs, id);
    if found.None? {
      return GradeFailed(id, NotFound);
    }
    var p := found.value;
    var submission := store.docs[p];
    if submission.status != Submitted {
      return Skipped("Already " + Submissions.StatusName(submission.status));
    }
    store.docs := store.docs[p := submission.(status := Grading)];
    if Assessments.IndexOf(assessments, submission.assessmentId).None? {
      store.docs := store.docs[p := store.docs[p].(status := Submitted)];
      assert store.docs == old(store.docs);
      return GradeFailed(id, AssessmentMissing);
    }
    var qset := SetFor(sets, submission.assessmentId);
    if qset.None? {
      store.docs := store.docs[p := store.docs[p].(status := Submitted)];
      assert store.docs == old(store.docs);
      return GradeFailed(id, QuestionsMissing);
    }
    var index := BuildIndex(qset.value.questions);
    var answers, obtained, notes := GradeAnswers(submission.answers, index, model);
    if saveError.Some? {
      store.docs := store.docs[p := store.docs[p].(status := Submitted)];
      assert store.docs == old(store.docs);
      return GradeFailed(id, saveError.value);
    }
    var graded := submission.(answers := answers, totalMarksObtained := obtained,
                              percentage := Percentage(obtained, submission.totalMarks),
                              status := Graded, gradedAt := Some(now), gradingNotes := Some(notes));
    assert graded == GradedRecord(submission, index, model, now);
    store.docs := store.docs[p := graded];
    assert store.docs == old(store.docs)[p := graded];
    return GradedOk(id, obtained, graded.totalMarks, graded.percentage);
  }

  /** The answer loop of `gradeSubmission`: answers are updated in place,
    * marks accumulated and notes collected. */
  method GradeAnswers(original: seq<Answer>, index: map<string, Question>, model: GradingRequest -> ModelReply)
    returns (answers: seq<Answer>, obtained: real, notes: seq<GradingNote>)
    ensures answers == GradedAnswers(original, Grades(original, index, model))
    ensures obtained == Sum(Gains(Grades(original, index, model)))
    ensures notes == Notes(Grades(original, index, model))
  {
    ghost var gs := Grades(original, index, model);
    answers := original;
    obtained := 0.0;
    notes := [];
    var i := 0;
    while i < |original|
      invariant 0 <= i <= |original|
      invariant answers == GradedAnswers(original[..i], gs[..i]) + original[i..]
      invariant obtained == Sum(Gains(gs[..i]))
      invariant notes == Notes(gs[..i])
    {
      var graded, gained, more := GradeAnswer(original[i], i + 1, index, model);
      AnswerLoopStep(original, gs, i, answers, obtained, notes, graded, gained, more);
      answers := answers[i := graded];
      obtained := obtained + gained;
      notes := notes + more;
      i := i + 1;
    }
    assert gs[..i] == gs && original[..i] == original;
  }

  /** One pass of the answer loop: an answer without a question is passed
    * over; otherwise the model grades it, and on success it takes the
    * banded marks, its correctness and the feedback. The notes record the
    * answer's position, counted from 1. */
  method GradeAnswer(a: Answer, position: nat, index: map<string, Question>, model: GradingRequest -> ModelReply)
    returns (graded: Answer, gained: real, notes: seq<GradingNote>)
    ensures var g := GradeOf(a, index, model);
      graded == Regraded(a, g) && gained == Gained(g) && notes == NotesFor(position, g)
  {
    graded, gained, notes := a, 0.0, [];
    if a.questionId in index {
      var reply := model(RequestFor(a, index[a.questionId]));
      if reply.NoReply? {
        notes := [Failed(position, ModelFailure)];
      } else {
        var marks := AwardedMarks(reply.accuracy, a.maxMarks);
        graded := a.(marksObtained := marks, isCorrect := marks == a.maxMarks, aiFeedback := reply.feedback);
        gained := marks;
        notes := [Assessed(position, reply.accuracy, reply.feedback)];
      }
    }
  }

  /** One pass of the answer loop keeps its invariant. */
  lemma AnswerLoopStep(original: seq<Answer>, gs: seq<AnswerGrade>, i: nat, answers: seq<Answer>, obtained: real,
                       notes: seq<GradingNote>, graded: Answer, gained: real, more: seq<GradingNote>)
    requires |gs| == |original| && i < |original|
    requires answers == GradedAnswers(original[..i], gs[..i]) + original[i..]
    requires obtained == Sum(Gains(gs[..i])) && notes == Notes(gs[..i])
    requires graded == Regraded(original[i], gs[i]) && gained == Gained(gs[i]) && more == NotesFor(i + 1, gs[i])
    ensures answers[i := graded] == GradedAnswers(original[..i + 1], gs[..i + 1]) + original[i + 1..]
    ensures obtained + gained == Sum(Gains(gs[..i + 1])) && notes + more == Notes(gs[..i + 1])
  {
    GradedAnswersStep(original, gs, i);
    GradesStep(gs, i);
    SumAppend(Gains(gs[..i]), Gained(gs[i]));
  }

  lemma GradedAnswersStep(original: seq<Answer>, gs: seq<AnswerGrade>, i: nat)
    requires |gs| == |original| && i < |original|
    ensures GradedAnswers(original[..i + 1], gs[..i + 1]) + original[i + 1..]
         == (GradedAnswers(original[..i], gs[..i]) + original[i..])[i := Regraded(original[i], gs[i])]
  {
  }

  lemma GradesStep(gs: seq<AnswerGrade>, i: nat)
    requires i < |gs|
    ensures Gains(gs[..i + 1]) == Gains(gs[..i]) + [Gained(gs[i])]
    ensures Notes(gs[..i + 1]) == Notes(gs[..i]) + NotesFor(i + 1, gs[i])
  {
    assert gs[..i + 1][..i] == gs[..i];
  }

  /** Grading changes at most the record `id`; every outcome other than a
    * success leaves the whole collection as it was. */
  lemma GradeFrame(docs: seq<Submission>, assessments: seq<Assessments.Assessment>, sets: seq<QuestionSet>,
                   id: Id, model: GradingRequest -> ModelReply, now: int, saveError: Option<string>)
    ensures var (after, outcome) := GradeResult(docs, assessments, sets, id, model, now, saveError);
      |after| == |docs|
      && (!outcome.GradedOk? ==> after == docs)
      && forall k :: 0 <= k < |docs| && docs[k].id != id ==> after[k] == docs[k]
  {
  }

  /** A record that is not Submitted is skipped and left alone. */
  lemma NotSubmittedSkipped(docs: seq<Submission>, assessments: seq<Assessments.Assessment>, sets: seq<QuestionSet>,
                            model: GradingRequest -> ModelReply, now: int, saveError: Option<string>, p: nat)
    requires p < |docs| && docs[p].status != Submitted
    requires forall k :: 0 <= k < p ==> docs[k].id != docs[p].id
    ensures GradeResult(docs, assessments, sets, docs[p].id, model, now, saveError)
      == (docs, Skipped("Already " + Submissions.StatusName(docs[p].status)))
  {
    FindFirstAt(docs, (s: Submission) => s.id == docs[p].id, p);
  }

  /** A success moves the record from Submitted to Graded with the grading
    * time, and a record is never left in Grading. */
  lemma GradeTransitions(docs: seq<Submission>, assessments: seq<Assessments.Assessment>, sets: seq<QuestionSet>,
                         id: Id, model: GradingRequest -> ModelReply, now: int, saveError: Option<string>, k: nat)
    requires k < |docs|
    ensures var after := GradeResult(docs, assessments, sets, id, model, now, saveError).0;
      var outcome := GradeResult(docs, assessments, sets, id, model, now, saveError).1;
      (after[k].status == docs[k].status
       || (docs[k].status == Submitted && after[k].status == Graded && after[k].gradedAt == Some(now)))
      && (outcome.GradedOk? ==>
            exists j :: 0 <= j < |docs| && docs[j].id == id && docs[j].status == Submitted && after[j].status == Graded)
  {
  }

  /** The marks obtained are what the graded answers were awarded: unmatched
    * answers and answers the model failed on keep their fields and add
    * nothing, and a graded answer is correct exactly when it earned its full
    * marks. */
  lemma GradedAnswersShape(s: Submission, index: map<string, Question>,
                           model: GradingRequest -> ModelReply, now: int, k: nat)
    requires k < |s.answers|
    ensures var g := GradedRecord(s, index, model, now);
      var a, b := s.answers[k], g.answers[k];
      |g.answers| == |s.answers|
      && (a.questionId !in index || model(RequestFor(a, index[a.questionId])).NoReply? ==> b == a)
      && (a.questionId in index && model(RequestFor(a, index[a.questionId])).Reply? ==>
            b.marksObtained == AwardedMarks(model(RequestFor(a, index[a.questionId])).accuracy, a.maxMarks)
            && (b.isCorrect <==> b.marksObtained == a.maxMarks)
            && b.aiFeedback == model(RequestFor(a, index[a.questionId])).feedback
            && b == a.(marksObtained := b.marksObtained, isCorrect := b.isCorrect, aiFeedback := b.aiFeedback))
  {
  }

  /** With non-negative maximum marks, the marks obtained lie between 0 and
    * the sum of the answers' maximum marks. */
  lemma {:induction false} ObtainedBounded(answers: seq<Answer>, index: map<string, Question>,
                                           model: GradingRequest -> ModelReply)
    requires forall k :: 0 <= k < |answers| ==> answers[k].maxMarks >= 0.0
    ensures 0.0 <= Sum(Gains(Grades(answers, index, model))) <= Sum(MaxMarksOf(answers))
  {
    var gains := Gains(Grades(answers, index, model));
    forall k | 0 <= k < |answers| ensures 0.0 <= gains[k] <= MaxMarksOf(answers)[k] {
    }
    SumNonNegative(gains);
    SumMonotone(gains, MaxMarksOf(answers));
  }

  /** A record whose total is the sum of its answers' maximum marks, as
    * intake creates it, is graded to a percentage between 0 and 100. */
  lemma PercentageBounded(s: Submission, index: map<string, Question>,
                          model: GradingRequest -> ModelReply, now: int)
    requires forall k :: 0 <= k < |s.answers| ==> s.answers[k].maxMarks >= 0.0
    requires s.totalMarks == Sum(MaxMarksOf(s.answers))
    ensures 0.0 <= GradedRecord(s, index, model, now).totalMarksObtained <= s.totalMarks
    ensures 0.0 <= GradedRecord(s, index, model, now).percentage <= 100.0
  {
    ObtainedBounded(s.answers, index, model);
  }

  /** The Submitted records, in natural order (`find({ status: 'Submitted' })`). */
  function Pending(docs: seq<Submission>): (r: seq<Submission>)
    ensures forall k :: 0 <= k < |r| ==> r[k] in docs && r[k].status == Submitted
    ensures forall s :: s in docs && s.status == Submitted ==> s in r
  {
    if docs == [] then []
    else
      var init := Pending(docs[..|docs| - 1]);
      var last := docs[|docs| - 1];
      assert forall s :: s in docs ==> s in docs[..|docs| - 1] || s == last;
      if last.status == Submitted then init + [last] else init
  }

  function SubmittedAt(s: Submission): real { s.submittedAt as real }

  /** The Submitted records, oldest first; equal times keep natural order. */
  function Queue(docs: seq<Submission>): (r: seq<Submission>)
    ensures multiset(r) == multiset(Pending(docs))
  {
    SortBy(Pending(docs), SubmittedAt)
  }

  function IdsOf(q: seq<Submission>): (ids: seq<Id>)
    ensures |ids| == |q|
  {
    seq(|q|, k requires 0 <= k < |q| => q[k].id)
  }

  /** Grading the records `ids` in turn; `saveErrors` gives each record's
    * final-save error, if any. */
  function RunAll(docs: seq<Submission>, ids: seq<Id>, assessments: seq<Assessments.Assessment>, sets: seq<QuestionSet>,
                  model: GradingRequest -> ModelReply, now: int,
                  saveErrors: Id -> Option<string>): (r: (seq<Submission>, seq<GradeOutcome>))
    ensures |r.0| == |docs| && |r.1| == |ids|
  {
    if ids == [] then (docs, [])
    else
      var (before, results) := RunAll(docs, ids[..|ids| - 1], assessments, sets, model, now, saveErrors);
      var last := ids[|ids| - 1];
      GradeFrame(before, assessments, sets, last, model, now, saveErrors(last));
      var (after, outcome) := GradeResult(before, assessments, sets, last, model, now, saveErrors(last));
      (after, results + [outcome])
  }

  /** Number of successes (`results.filter(r => r.success).length`). */
  function Successes(rs: seq<GradeOutcome>): nat
  {
    if rs == [] then 0 else Successes(rs[..|rs| - 1]) + (if rs[|rs| - 1].GradedOk? then 1 else 0)
  }

  /** Number of results without success, skips included. */
  function Failures(rs: seq<GradeOutcome>): nat
  {
    if rs == [] then 0 else Failures(rs[..|rs| - 1]) + (if rs[|rs| - 1].GradedOk? then 0 else 1)
  }

  lemma {:induction false} SuccessesAndFailures(rs: seq<GradeOutcome>)
    ensures Successes(rs) + Failures(rs) == |rs|
  {
    if rs != [] {
      SuccessesAndFailures(rs[..|rs| - 1]);
    }
  }

  datatype BatchOutcome =
    | NoneUngraded
    | Batch(total: nat, graded: nat, failed: nat, results: seq<GradeOutcome>)

  function BatchResult(docs: seq<Submission>, assessments: seq<Assessments.Assessment>, sets: seq<QuestionSet>,
                       model: GradingRequest -> ModelReply, now: int,
                       saveErrors: Id -> Option<string>): (seq<Submission>, BatchOutcome)
  {
    var queue := Queue(docs);
    if |queue| == 0 then (docs, NoneUngraded)
    else
      var (after, results) := RunAll(docs, IdsOf(queue), assessments, sets, model, now, saveErrors);
      (after, Batch(|queue|, Successes(results), Failures(results), results))
  }

  /** One more record of the queue is graded against the collection the
    * earlier ones left. */
  lemma RunAllStep(docs: seq<Submission>, ids: seq<Id>, i: nat, assessments: seq<Assessments.Assessment>,
                   sets: seq<QuestionSet>, model: GradingRequest -> ModelReply, now: int,
                   saveErrors: Id -> Option<string>)
    requires i < |ids|
    ensures var (before, results) := RunAll(docs, ids[..i], assessments, sets, model, now, saveErrors);
      var (after, outcome) := GradeResult(before, assessments, sets, ids[i], model, now, saveErrors(ids[i]));
      RunAll(docs, ids[..i + 1], assessments, sets, model, now, saveErrors) == (after, results + [outcome])
  {
    assert ids[..i + 1][..i] == ids[..i];
  }

  lemma CountsStep(rs: seq<GradeOutcome>, r: GradeOutcome)
    ensures Successes(rs + [r]) == Successes(rs) + (if r.GradedOk? then 1 else 0)
    ensures Failures(rs + [r]) == Failures(rs) + (if r.GradedOk? then 0 else 1)
  {
    assert (rs + [r])[..|rs|] == rs;
  }

  /** `gradeAllUngraded`. */
  method GradeAllUngraded(store: SubmissionStore, assessments: seq<Assessments.Assessment>, sets: seq<QuestionSet>,
                          model: GradingRequest -> ModelReply, now: int,
                          saveErrors: Id -> Option<string>) returns (outcome: BatchOutcome)
    modifies store
    ensures (store.docs, outcome) == BatchResult(old(store.docs), assessments, sets, model, now, saveErrors)
  {
    var queue := Queue(store.docs);
    if |queue| == 0 {
      return NoneUngraded;
    }
    ghost var docs := store.docs;
    var ids := IdsOf(queue);
    var results: seq<GradeOutcome> := [];
    var graded, failed := 0, 0;
    var i := 0;
    while i < |ids|
      invariant 0 <= i <= |ids|
      invariant (store.docs, results) == RunAll(docs, ids[..i], assessments, sets, model, now, saveErrors)
      invariant graded == Successes(results) && failed == Failures(results)
    {
      RunAllStep(docs, ids, i, assessments, sets, model, now, saveErrors);
      var result := GradeSubmission(store, assessments, sets, ids[i], model, now, saveErrors(ids[i]));
      CountsStep(results, result);
      results := results + [result];
      if result.GradedOk? {
        graded := graded + 1;
      } else {
        failed := failed + 1;
      }
      i := i + 1;
    }
    assert ids[..i] == ids;
    return Batch(|queue|, graded, failed, results);
  }

  /** The batch reports one result per Submitted record, and every result
    * is counted either as graded or as failed. */
  lemma BatchCounts(docs: seq<Submission>, assessments: seq<Assessments.Assessment>, sets: seq<QuestionSet>,
                    model: GradingRequest -> ModelReply, now: int, saveErrors: Id -> Option<string>)
    ensures var (_, outcome) := BatchResult(docs, assessments, sets, model, now, saveErrors);
      (outcome.NoneUngraded? <==> |Pending(docs)| == 0)
      && (outcome.Batch? ==> outcome.total == |Pending(docs)| == |outcome.results|
                             && outcome.graded + outcome.failed == outcome.total)
  {
    var queue := Queue(docs);
    assert |queue| == |Pending(docs)| by {
      assert |multiset(queue)| == |multiset(Pending(docs))|;
    }
    if |queue| > 0 {
      var (_, results) := RunAll(docs, IdsOf(queue), assessments, sets, model, now, saveErrors);
      SuccessesAndFailures(results);
    }
  }

  /** The queue is exactly the Submitted records, oldest first. */
  lemma QueueOrdered(docs: seq<Submission>)
    ensures SortedBy(Queue(docs), SubmittedAt)
    ensures forall s :: s in Queue(docs) <==> s in docs && s.status == Submitted
  {
    SortBySorted(Pending(docs), SubmittedAt);
    forall s ensures s in Queue(docs) <==> s in Pending(docs) {
      assert s in multiset(Queue(docs)) <==> s in multiset(Pending(docs));
    }
  }

  /** No record is left in Grading by a batch that found none there. */
  lemma {:induction false} RunAllNeverLeavesGrading(docs: seq<Submission>, ids: seq<Id>,
                                                    assessments: seq<Assessments.Assessment>, sets: seq<QuestionSet>,
                                                    model: GradingRequest -> ModelReply, now: int,
                                                    saveErrors: Id -> Option<string>)
    requires forall k :: 0 <= k < |docs| ==> docs[k].status != Grading
    ensures forall k :: 0 <= k < |docs| ==>
      RunAll(docs, ids, assessments, sets, model, now, saveErrors).0[k].status != Grading
    decreases |ids|
  {
    if ids != [] {
      var init := ids[..|ids| - 1];
      RunAllNeverLeavesGrading(docs, init, assessments, sets, model, now, saveErrors);
      var before := RunAll(docs, init, assessments, sets, model, now, saveErrors).0;
      var last := ids[|ids| - 1];
      forall k | 0 <= k < |before|
        ensures GradeResult(before, assessments, sets, last, model, now, saveErrors(last)).0[k].status != Grading
      {
        GradeTransitions(before, assessments, sets, last, model, now, saveErrors(last), k);
      }
    }
  }
}
