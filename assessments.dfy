/** The Assessment record: its status enumeration, the required fields,
  * the rule that the due date falls strictly after the opening date, and
  * the stored collection of assessments. */
module Assessments {
  import opened Core
  import opened Text

  datatype AssessmentStatus = Draft | Scheduled | Active | Closed | Graded

  function StatusName(s: AssessmentStatus): string
  {
    match s
    case Draft => "Draft"
    case Scheduled => "Scheduled"
    case Active => "Active"
    case Closed => "Closed"
    case Graded => "Graded"
  }

  /** Reads a status name; anything outside the five enumerated names is rejected. */
  function ParseStatus(name: string): (r: Option<AssessmentStatus>)
    ensures r.Some? ==> StatusName(r.value) == name
  {
    if name == "Draft" then Some(Draft)
    else if name == "Scheduled" then Some(Scheduled)
    else if name == "Active" then Some(Active)
    else if name == "Closed" then Some(Closed)
    else if name == "Graded" then Some(Graded)
    else None
  }

  /** Every status reads back from its own name. */
  lemma ParseStatusName(s: AssessmentStatus)
    ensures ParseStatus(StatusName(s)) == Some(s)
  {
  }

  /** Times are milliseconds since the epoch; `None` stands for a date that is
    * missing or does not parse (an Invalid Date). */
  datatype Assessment = Assessment(
    id: Id,
    title: string,
    lessonPlanId: Option<Id>,
    opensOn: Option<int>,
    dueDate: Option<int>,
    status: AssessmentStatus,
    classId: Option<Id>,
    gradeId: Option<Id>,
    gradeName: string,
    subjectId: Option<Id>,
    subjectName: string,
    topics: seq<string>,
    teacherId: Option<Id>,
    totalMarks: real,
    duration: Option<real>,
    isActive: bool)

  /** The date-order validator: the due date lies strictly after the opening date. */
  predicate DueAfterOpen(a: Assessment)
  {
    a.dueDate.Some? && a.opensOn.Some? && a.dueDate.value > a.opensOn.value
  }

  /** The messages of every schema rule the record breaks, in field order. */
  function ValidationErrors(a: Assessment): (errs: seq<string>)
    ensures errs == [] ==> a.lessonPlanId.Some? && a.classId.Some? && a.gradeId.Some?
    ensures errs == [] ==> a.subjectId.Some? && a.teacherId.Some? && a.duration.Some?
    ensures errs == [] ==> DueAfterOpen(a) && |a.topics| > 0
    ensures errs == [] ==> !Blank(a.title) && a.gradeName != "" && a.subjectName != ""
    ensures a.lessonPlanId.None? ==> "Lesson Plan ID is required" in errs
  {
    var head := ScheduleErrors(a);
    assert a.lessonPlanId.None? ==> head[|TitleErrors(a)|] == "Lesson Plan ID is required";
    head + ClassErrors(a) + ContentErrors(a)
  }

  function TitleErrors(a: Assessment): (errs: seq<string>)
    ensures errs == [] <==> !Blank(a.title)
  {
    if Blank(a.title) then ["Assessment title is required"] else []
  }

  /** The title, lesson plan and date rules. */
  function ScheduleErrors(a: Assessment): (errs: seq<string>)
    ensures errs == [] <==> !Blank(a.title) && a.lessonPlanId.Some? && a.opensOn.Some? && DueAfterOpen(a)
  {
    TitleErrors(a)
    + (if a.lessonPlanId.None? then ["Lesson Plan ID is required"] else [])
    + (if a.opensOn.None? then ["Opens on date is required"] else [])
    + (if a.dueDate.None? then ["Due date is required"]
       else if !DueAfterOpen(a) then ["Due date must be after opens on date"] else [])
  }

  /** The class, grade and subject rules. */
  function ClassErrors(a: Assessment): (errs: seq<string>)
    ensures errs == [] <==>
      a.classId.Some? && a.gradeId.Some? && a.gradeName != "" && a.subjectId.Some? && a.subjectName != ""
  {
    (if a.classId.None? then ["Class ID is required"] else [])
    + (if a.gradeId.None? then ["Grade ID is required"] else [])
    + (if a.gradeName == "" then ["Grade name is required"] else [])
    + (if a.subjectId.None? then ["Subject ID is required"] else [])
    + (if a.subjectName == "" then ["Subject name is required"] else [])
  }

  /** The topics, teacher and duration rules. */
  function ContentErrors(a: Assessment): (errs: seq<string>)
    ensures errs == [] <==> |a.topics| > 0 && a.teacherId.Some? && a.duration.Some?
  {
    (if |a.topics| == 0 then ["Topics array cannot be empty"] else [])
    + (if a.teacherId.None? then ["Teacher ID is required"] else [])
    + (if a.duration.None? then ["Duration is required"] else [])
  }

  predicate Valid(a: Assessment) { ValidationErrors(a) == [] }

  /** A record passes validation exactly when every required field is present,
    * the topics are non-empty and the due date is after the opening date. */
  lemma ValidExactly(a: Assessment)
    ensures Valid(a) <==>
      !Blank(a.title) && a.lessonPlanId.Some? && a.opensOn.Some? && DueAfterOpen(a)
      && a.classId.Some? && a.gradeId.Some? && a.gradeName != "" && a.subjectId.Some?
      && a.subjectName != "" && |a.topics| > 0 && a.teacherId.Some? && a.duration.Some?
  {
  }

  /** The defaults a new record takes for the fields a caller leaves out. */
  function NewAssessment(id: Id, title: string, lessonPlanId: Option<Id>, opensOn: Option<int>,
                         dueDate: Option<int>, classId: Option<Id>, gradeId: Option<Id>,
                         gradeName: string, subjectId: Option<Id>, subjectName: string,
                         topics: seq<string>, teacherId: Option<Id>, duration: Option<real>): (a: Assessment)
    ensures a.status == Draft && a.totalMarks == 0.0 && a.isActive
    ensures a.id == id && a.lessonPlanId == lessonPlanId && a.topics == topics
  {
    Assessment(id, title, lessonPlanId, opensOn, dueDate, Draft, classId, gradeId, gradeName,
               subjectId, subjectName, topics, teacherId, 0.0, duration, true)
  }

  /** No two stored assessments share an id. */
  predicate UniqueIds(docs: seq<Assessment>)
  {
    forall i, j :: 0 <= i < j < |docs| ==> docs[i].id != docs[j].id
  }

  /** Position of the assessment with the given id (`findById`). */
  function IndexOf(docs: seq<Assessment>, id: Id): (r: Option<nat>)
    ensures r.Some? ==> r.value < |docs| && docs[r.value].id == id
    ensures r.None? ==> forall k :: 0 <= k < |docs| ==> docs[k].id != id
  {
    FindFirst(docs, (a: Assessment) => a.id == id)
  }

  /** The assessments collection, in natural (insertion) order. */
  class AssessmentStore {
    var docs: seq<Assessment>

    constructor (initial: seq<Assessment>)
      ensures docs == initial
    {
      docs := initial;
    }
  }
}
