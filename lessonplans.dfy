/** The LessonPlan record: its sessions, the rule that the number of session
  * details equals the number of sessions, the status enumeration and the
  * stored collection, keyed by id.
  *
  * The session sub-record declares no status field. Mongoose drops fields a
  * schema does not declare when it casts a record, so a session never keeps
  * a status however it is written; `Stored` states that, and the workflow's
  * session gate is shown against it. The rest of the model uses the session
  * with the status field the workflow expects. */
module LessonPlans {
  import opened Core
  import opened Text

  datatype PlanStatus = Draft | Active | Completed | Archived

  function StatusName(s: PlanStatus): string
  {
    match s
    case Draft => "Draft"
    case Active => "Active"
    case Completed => "Completed"
    case Archived => "Archived"
  }

  /** Reads a status name; anything outside the four enumerated names is rejected. */
  function ParseStatus(name: string): (r: Option<PlanStatus>)
    ensures r.Some? ==> StatusName(r.value) == name
  {
    if name == "Draft" then Some(Draft)
    else if name == "Active" then Some(Active)
    else if name == "Completed" then Some(Completed)
    else if name == "Archived" then Some(Archived)
    else None
  }

  lemma ParseStatusName(s: PlanStatus)
    ensures ParseStatus(StatusName(s)) == Some(s)
  {
  }

  datatype FlowStep = FlowStep(timeSlot: string, activity: string, description: string)

  /** A video as a lesson plan or a session lists it. */
  datatype VideoRef = VideoRef(title: string, url: string, duration: string, topic: string, source: string)

  /** A simulation as a session lists it. */
  datatype SimulationRef = SimulationRef(title: string, url: string, kind: string, topic: string)

  datatype Resources = Resources(videos: seq<VideoRef>, simulations: seq<SimulationRef>)

  /** `resources` is `None` (null) until content is curated; `status` is the
    * session's status as the workflow reads it (`None` when absent). */
  datatype Session = Session(
    sessionNumber: int,
    objectives: seq<string>,
    topics: seq<string>,
    flow: seq<FlowStep>,
    resources: Option<Resources>,
    assessments: seq<Id>,
    status: Option<string>)

  datatype LessonPlan = LessonPlan(
    id: Id,
    teacherId: Option<Id>,
    subjectId: Option<Id>,
    subjectName: string,
    gradeId: Option<Id>,
    gradeName: string,
    chapterId: Option<Id>,
    chapterName: string,
    chapterNumber: Option<int>,
    totalSessions: Option<int>,
    sessionDuration: int,
    sessions: seq<Session>,
    chapterAssessments: seq<Id>,
    videos: seq<VideoRef>,
    objectives: seq<string>,
    outcomes: seq<string>,
    status: PlanStatus,
    isActive: bool)

  /** A session as the schema keeps it: the undeclared status is dropped. */
  function Stored(s: Session): (r: Session)
    ensures r.status.None?
    ensures r.(status := s.status) == s
  {
    s.(status := None)
  }

  /** The session-count validator: `v && v.length === this.total_sessions`. */
  predicate SessionCountMatches(p: LessonPlan)
  {
    p.totalSessions.Some? && |p.sessions| == p.totalSessions.value
  }

  /** The messages of every schema rule the record breaks, in field order. */
  function ValidationErrors(p: LessonPlan): (errs: seq<string>)
    ensures errs == [] <==>
      p.teacherId.Some? && p.subjectId.Some? && p.subjectName != "" && p.gradeId.Some?
      && p.gradeName != "" && p.chapterId.Some? && p.chapterName != "" && p.chapterNumber.Some?
      && p.totalSessions.Some? && p.totalSessions.value >= 1 && SessionCountMatches(p)
  {
    SubjectErrors(p) + ChapterErrors(p) + SessionErrors(p)
  }

  /** The teacher, subject and grade rules. */
  function SubjectErrors(p: LessonPlan): (errs: seq<string>)
    ensures errs == [] <==>
      p.teacherId.Some? && p.subjectId.Some? && p.subjectName != "" && p.gradeId.Some? && p.gradeName != ""
  {
    (if p.teacherId.None? then ["Teacher ID is required"] else [])
    + (if p.subjectId.None? then ["Subject ID is required"] else [])
    + (if p.subjectName == "" then ["Subject name is required"] else [])
    + (if p.gradeId.None? then ["Grade ID is required"] else [])
    + (if p.gradeName == "" then ["Grade name is required"] else [])
  }

  /** The chapter rules. */
  function ChapterErrors(p: LessonPlan): (errs: seq<string>)
    ensures errs == [] <==> p.chapterId.Some? && p.chapterName != "" && p.chapterNumber.Some?
  {
    (if p.chapterId.None? then ["Chapter ID is required"] else [])
    + (if p.chapterName == "" then ["Chapter name is required"] else [])
    + (if p.chapterNumber.None? then ["Chapter number is required"] else [])
  }

  /** The session-count rules. */
  function SessionErrors(p: LessonPlan): (errs: seq<string>)
    ensures errs == [] <==> p.totalSessions.Some? && p.totalSessions.value >= 1 && SessionCountMatches(p)
  {
    (if p.totalSessions.None? then ["Total sessions is required"]
     else if p.totalSessions.value < 1 then ["At least 1 session is required"] else [])
    + (if !SessionCountMatches(p) then ["Number of session details must match total sessions"] else [])
  }

  predicate Valid(p: LessonPlan) { ValidationErrors(p) == [] }

  /** A valid plan has at least one session and exactly as many session
    * details as sessions. */
  lemma ValidSessions(p: LessonPlan)
    requires Valid(p)
    ensures |p.sessions| == p.totalSessions.value >= 1
  {
  }

  /** The position of the first session with the given number (`find` with `===`). */
  function SessionIndex(sessions: seq<Session>, n: int): (r: Option<nat>)
    ensures r.Some? ==> r.value < |sessions| && sessions[r.value].sessionNumber == n
    ensures r.None? ==> forall k :: 0 <= k < |sessions| ==> sessions[k].sessionNumber != n
  {
    FindFirst(sessions, (s: Session) => s.sessionNumber == n)
  }

  /** Every session's topics, concatenated in session order, repeats kept. */
  function AllTopics(sessions: seq<Session>): seq<string>
  {
    if sessions == [] then [] else AllTopics(sessions[..|sessions| - 1]) + sessions[|sessions| - 1].topics
  }

  lemma {:induction false} AllTopicsMember(sessions: seq<Session>, t: string)
    ensures t in AllTopics(sessions) <==> exists k :: 0 <= k < |sessions| && t in sessions[k].topics
    decreases |sessions|
  {
    if sessions != [] {
      var init := sessions[..|sessions| - 1];
      AllTopicsMember(init, t);
      if exists k :: 0 <= k < |sessions| && t in sessions[k].topics {
        var k :| 0 <= k < |sessions| && t in sessions[k].topics;
        if k < |init| {
          assert init[k] == sessions[k];
        }
      }
      if t in AllTopics(init) {
        var k :| 0 <= k < |init| && t in init[k].topics;
        assert sessions[k] == init[k];
      }
    }
  }

  /** A further session adds its topics at the end. */
  lemma {:induction false} AllTopicsAppend(sessions: seq<Session>, extra: Session)
    ensures AllTopics(sessions + [extra]) == AllTopics(sessions) + extra.topics
  {
    assert (sessions + [extra])[..|sessions|] == sessions;
  }

  /** The lesson-plan collection, keyed by id. */
  class LessonPlanStore {
    var plans: map<Id, LessonPlan>

    constructor (initial: map<Id, LessonPlan>)
      ensures plans == initial
    {
      plans := initial;
    }
  }
}
