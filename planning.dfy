/** The lesson-planning agent: input validation, the defaults it fills in,
  * the grouping of retrieved content into the planner's context, the
  * curriculum name, and the cleaning applied to the generated plan before
  * it is saved. The content index and the language model are parameters. */
module Planning {
  import opened Core
  import opened Text
  import opened Retrieval
  import opened LessonPlans

  /** The request. A missing string is "", a missing number 0 (both falsy). */
  datatype PlanInput = PlanInput(
    teacherId: Option<Id>,
    subjectId: Option<Id>,
    subjectName: string,
    gradeId: Option<Id>,
    gradeName: string,
    chapterId: Option<Id>,
    chapterName: string,
    topic: string,
    chapterNumber: int,
    sessions: int,
    sessionDuration: int)

  const GradeRequired := "Grade is required (grade_name or grade_id)"
  const SubjectRequired := "Subject is required (subject_name or subject_id)"
  const ChapterRequired := "Chapter is required (topic or chapter_name)"
  const SessionsRequired := "Sessions is required"
  const SessionsRange := "Sessions must be between 1 and 20"
  const DurationRange := "Session duration must be between 30 and 120 minutes"

  /** The rules `validateInput` checks, in the order it checks them. */
  datatype InputProblem =
    | GradeMissing | SubjectMissing | ChapterMissing | SessionsMissing | SessionsOutOfRange | DurationOutOfRange

  function Message(p: InputProblem): string
  {
    match p
    case GradeMissing => GradeRequired
    case SubjectMissing => SubjectRequired
    case ChapterMissing => ChapterRequired
    case SessionsMissing => SessionsRequired
    case SessionsOutOfRange => SessionsRange
    case DurationOutOfRange => DurationRange
  }

  /** The position of a rule in the checking order. */
  function Rank(p: InputProblem): nat
  {
    match p
    case GradeMissing => 0
    case SubjectMissing => 1
    case ChapterMissing => 2
    case SessionsMissing => 3
    case SessionsOutOfRange => 4
    case DurationOutOfRange => 5
  }

  /** The messages in the order `validateInput` produces them. */
  const Messages: seq<string> :=
    [GradeRequired, SubjectRequired, ChapterRequired, SessionsRequired, SessionsRange, DurationRange]

  /** The problem of one broken rule, or nothing. */
  function Rule(broken: bool, p: InputProblem): (r: seq<InputProblem>)
    ensures r == [] <==> !broken
    ensures broken ==> r == [p]
  {
    if broken then [p] else []
  }

  /** The rules the request breaks, in checking order. */
  function Problems(input: PlanInput): (ps: seq<InputProblem>)
    ensures ps == [] <==>
      (input.gradeName != "" || input.gradeId.Some?)
      && (input.subjectName != "" || input.subjectId.Some?)
      && (input.topic != "" || input.chapterName != "")
      && 1 <= input.sessions <= 20
      && (input.sessionDuration == 0 || 30 <= input.sessionDuration <= 120)
  {
    Rule(input.gradeName == "" && input.gradeId.None?, GradeMissing)
    + Rule(input.subjectName == "" && input.subjectId.None?, SubjectMissing)
    + Rule(input.topic == "" && input.chapterName == "", ChapterMissing)
    + Rule(input.sessions == 0, SessionsMissing)
    + Rule(input.sessions != 0 && (input.sessions < 1 || input.sessions > 20), SessionsOutOfRange)
    + Rule(input.sessionDuration != 0 && (input.sessionDuration < 30 || input.sessionDuration > 120),
           DurationOutOfRange)
  }

  /** `validateInput`: the list of problems with the request. */
  function ValidateInput(input: PlanInput): (errs: seq<string>)
    ensures errs == [] <==>
      (input.gradeName != "" || input.gradeId.Some?)
      && (input.subjectName != "" || input.subjectId.Some?)
      && (input.topic != "" || input.chapterName != "")
      && 1 <= input.sessions <= 20
      && (input.sessionDuration == 0 || 30 <= input.sessionDuration <= 120)
    ensures |errs| == |Problems(input)|
    ensures forall k :: 0 <= k < |errs| ==> errs[k] == Message(Problems(input)[k]) && errs[k] in Messages
  {
    var ps := Problems(input);
    seq(|ps|, k requires 0 <= k < |ps| => Message(ps[k]))
  }

  /** The rules are reported in the fixed order, each at most once. */
  lemma ValidationOrder(input: PlanInput)
    ensures var ps := Problems(input);
      forall i, j :: 0 <= i < j < |ps| ==> Rank(ps[i]) < Rank(ps[j])
  {
  }

  /** A falsy session count (0 included) is reported as missing, never as
    * out of range. */
  lemma FalsySessionsOnlyMissing(input: PlanInput)
    requires input.sessions == 0
    ensures SessionsMissing in Problems(input)
    ensures SessionsOutOfRange !in Problems(input)
  {
  }

  /** The error `generate` reports for a rejected request. */
  function FailureMessage(errs: seq<string>): (m: string)
    ensures StartsWith(m, "Validation failed: ")
  {
    "Validation failed: " + Join(errs, ", ")
  }

  /** The names the catalogue records give to chapter, subject and grade ids. */
  datatype Catalog = Catalog(chapters: map<Id, string>, subjects: map<Id, string>, grades: map<Id, string>)

  function Lookup(m: map<Id, string>, id: Option<Id>): string
  {
    if id.Some? && id.value in m then m[id.value] else ""
  }

  /** `a || b` on strings. */
  function Or(a: string, b: string): (r: string)
    ensures a != "" ==> r == a
    ensures a == "" ==> r == b
  {
    if a != "" then a else b
  }

  /** The request after `generate` fills in names and the session length:
    * a provided value wins over the catalogue, which wins over the fixed
    * fallback ('Chapter', 'General', '8', 45 minutes). */
  function Enrich(input: PlanInput, catalog: Catalog): (e: PlanInput)
    ensures e.chapterName != "" && e.subjectName != "" && e.gradeName != "" && e.sessionDuration != 0
    ensures input.chapterName != "" ==> e.chapterName == input.chapterName
    ensures input.subjectName != "" ==> e.subjectName == input.subjectName
    ensures input.gradeName != "" ==> e.gradeName == input.gradeName
    ensures input.sessionDuration != 0 ==> e.sessionDuration == input.sessionDuration
    ensures e == input.(chapterName := e.chapterName, subjectName := e.subjectName,
                        gradeName := e.gradeName, sessionDuration := e.sessionDuration)
  {
    input.(chapterName := Or(input.chapterName, Or(Lookup(catalog.chapters, input.chapterId), Or(input.topic, "Chapter"))),
           subjectName := Or(input.subjectName, Or(Lookup(catalog.subjects, input.subjectId), "General")),
           gradeName := Or(input.gradeName, Or(Lookup(catalog.grades, input.gradeId), "8")),
           sessionDuration := if input.sessionDuration != 0 then input.sessionDuration else 45)
  }

  /** With nothing provided and no catalogue entry the fixed fallbacks apply;
    * without a chapter name or record the topic names the chapter. */
  lemma EnrichFallbacks(input: PlanInput, catalog: Catalog)
    requires input.chapterName == "" && input.subjectName == "" && input.gradeName == ""
    requires input.sessionDuration == 0
    requires input.chapterId.None? && input.subjectId.None? && input.gradeId.None?
    ensures Enrich(input, catalog).chapterName == (if input.topic != "" then input.topic else "Chapter")
    ensures Enrich(input, catalog).subjectName == "General"
    ensures Enrich(input, catalog).gradeName == "8"
    ensures Enrich(input, catalog).sessionDuration == 45
  {
  }

  datatype Bucket = Explanations | Examples | Activities | Exercises | Definitions

  /** `grouped[type + 's']` if that bucket exists, else the explanations. */
  function BucketOf(kind: string): Bucket
  {
    if kind + "s" == "examples" then Examples
    else if kind + "s" == "activities" then Activities
    else if kind + "s" == "exercises" then Exercises
    else if kind + "s" == "definitions" then Definitions
    else Explanations
  }

  /** Only the kind "activitie" reaches the activities bucket; chunks of
    * kind "activity" land among the explanations. */
  lemma ActivitiesBucket(kind: string)
    ensures BucketOf(kind) == Activities <==> kind == "activitie"
    ensures BucketOf("activity") == Explanations
  {
    if kind + "s" == "activities" {
      assert kind == (kind + "s")[..|kind|];
    }
    assert "activity" + "s" == "activitys";
    assert "activitys"[1] != "exercises"[1];
  }

  /** The texts of the chunks that fall into bucket `b`, in input order. */
  function Texts(chunks: seq<Chunk>, b: Bucket): seq<string>
  {
    if chunks == [] then []
    else
      var init := Texts(chunks[..|chunks| - 1], b);
      var last := chunks[|chunks| - 1];
      if BucketOf(Kind(last)) == b then init + [last.text] else init
  }

  /** Every chunk lands in exactly one bucket. */
  lemma {:induction false} BucketsPartition(chunks: seq<Chunk>)
    ensures |Texts(chunks, Explanations)| + |Texts(chunks, Examples)| + |Texts(chunks, Activities)|
            + |Texts(chunks, Exercises)| + |Texts(chunks, Definitions)| == |chunks|
    decreases |chunks|
  {
    if chunks != [] {
      BucketsPartition(chunks[..|chunks| - 1]);
    }
  }

  /** Without an "activitie" chunk the activities bucket stays empty. */
  lemma {:induction false} NoActivities(chunks: seq<Chunk>)
    requires forall k :: 0 <= k < |chunks| ==> chunks[k].contentType != "activitie"
    ensures Texts(chunks, Activities) == []
    decreases |chunks|
  {
    if chunks != [] {
      NoActivities(chunks[..|chunks| - 1]);
      ActivitiesBucket(Kind(chunks[|chunks| - 1]));
    }
  }

  /** What the planner is given about the retrieved content. */
  datatype PlanContext = PlanContext(
    totalChunks: nat,
    topic: string,
    explanations: string,
    examples: string,
    activities: string,
    exercises: string,
    definitions: string)

  /** The context: at most 10 explanations and 5 of each other kind,
    * separated by blank lines. */
  function ContextOf(chunks: seq<Chunk>): PlanContext
  {
    PlanContext(|chunks|, TopicOf(chunks),
                Join(Take(Texts(chunks, Explanations), 10), "\n\n"),
                Join(Take(Texts(chunks, Examples), 5), "\n\n"),
                Join(Take(Texts(chunks, Activities), 5), "\n\n"),
                Join(Take(Texts(chunks, Exercises), 5), "\n\n"),
                Join(Take(Texts(chunks, Definitions), 5), "\n\n"))
  }

  /** `prepareContext`: one pass over the chunks, pushing each text onto
    * its bucket. */
  method PrepareContext(chunks: seq<Chunk>) returns (ctx: PlanContext)
    ensures ctx == ContextOf(chunks)
  {
    var explanations, examples, activities, exercises, definitions := [], [], [], [], [];
    var i := 0;
    while i < |chunks|
      invariant 0 <= i <= |chunks|
      invariant explanations == Texts(chunks[..i], Explanations)
      invariant examples == Texts(chunks[..i], Examples)
      invariant activities == Texts(chunks[..i], Activities)
      invariant exercises == Texts(chunks[..i], Exercises)
      invariant definitions == Texts(chunks[..i], Definitions)
    {
      assert chunks[..i + 1][..i] == chunks[..i];
      var c := chunks[i];
      var kind := if c.contentType == "" then "explanation" else c.contentType;
      var bucket := BucketOf(kind);
      if bucket == Examples {
        examples := examples + [c.text];
      } else if bucket == Activities {
        activities := activities + [c.text];
      } else if bucket == Exercises {
        exercises := exercises + [c.text];
      } else if bucket == Definitions {
        definitions := definitions + [c.text];
      } else {
        explanations := explanations + [c.text];
      }
      i := i + 1;
    }
    assert chunks[..i] == chunks;
    ctx := PlanContext(|chunks|, TopicOf(chunks),
                       Join(Take(explanations, 10), "\n\n"), Join(Take(examples, 5), "\n\n"),
                       Join(Take(activities, 5), "\n\n"), Join(Take(exercises, 5), "\n\n"),
                       Join(Take(definitions, 5), "\n\n"));
  }

  /** `getCurriculumType`: the three named subjects get their CBSE
    * curriculum, every other subject the general one. */
  function CurriculumType(subject: string): (c: string)
    ensures subject in ["Science", "Mathematics", "English"] ==> c == "CBSE " + subject
    ensures subject !in ["Science", "Mathematics", "English"] ==> c == "CBSE General"
  {
    if subject == "Science" then "CBSE Science"
    else if subject == "Mathematics" then "CBSE Mathematics"
    else if subject == "English" then "CBSE English"
    else "CBSE General"
  }

  /** The plan as the language model returns it. */
  datatype PlanDraft = PlanDraft(sessions: seq<Session>, objectives: seq<string>, outcomes: seq<string>)

  /** A generated session as saved: no resources, no assessments, and only
    * the four copied fields kept. */
  function CleanSession(s: Session): (r: Session)
    ensures r.resources.None? && r.assessments == [] && r.status.None?
    ensures r.sessionNumber == s.sessionNumber && r.objectives == s.objectives
    ensures r.topics == s.topics && r.flow == s.flow
  {
    Session(s.sessionNumber, s.objectives, s.topics, s.flow, None, [], None)
  }

  function CleanSessions(ss: seq<Session>): (r: seq<Session>)
    ensures |r| == |ss|
    ensures forall k :: 0 <= k < |ss| ==> r[k] == CleanSession(ss[k])
  {
    seq(|ss|, k requires 0 <= k < |ss| => CleanSession(ss[k]))
  }

  /** The record `saveLessonPlan` builds from the draft and the enriched request. */
  function BuildPlan(draft: PlanDraft, e: PlanInput, id: Id): LessonPlan
  {
    LessonPlan(id, e.teacherId, e.subjectId, e.subjectName, e.gradeId, e.gradeName, e.chapterId,
               Or(e.chapterName, e.topic),
               Some(if e.chapterNumber != 0 then e.chapterNumber else 1),
               Some(e.sessions),
               if e.sessionDuration != 0 then e.sessionDuration else 45,
               CleanSessions(draft.sessions), [], [], draft.objectives, draft.outcomes, Draft, true)
  }

  /** The search the agent makes of the content index. */
  datatype PlanQuery = PlanQuery(grade: string, subject: string, chapter: string, sessions: int)

  datatype PlanOutcome =
    | PlanSaved(plan: LessonPlan)
    | PlanUnsaved(draft: PlanDraft)
    | PlanFailed(error: string)

  /** The collection and outcome of `generate`. `retrieve` is the content
    * index (`None` when the query fails), `planner` the language model
    * (`None` when no usable plan comes back), `newId` the id a saved plan
    * receives. */
  function GenerateResult(plans: map<Id, LessonPlan>, input: PlanInput, catalog: Catalog,
                          retrieve: PlanQuery -> Option<seq<Chunk>>,
                          planner: (PlanContext, PlanInput) -> Option<PlanDraft>,
                          newId: Id): (map<Id, LessonPlan>, PlanOutcome)
  {
    var errs := ValidateInput(input);
    if errs != [] then (plans, PlanFailed(FailureMessage(errs)))
    else
      var e := Enrich(input, catalog);
      var chunks := retrieve(PlanQuery(e.gradeName, e.subjectName, Or(e.topic, e.chapterName), e.sessions));
      if chunks.None? then (plans, PlanFailed("Failed to retrieve chapter content from database"))
      else
        var draft := planner(ContextOf(chunks.value), e);
        if draft.None? then (plans, PlanFailed("Failed to generate lesson plan"))
        else if e.teacherId.Some? && e.subjectId.Some? && e.gradeId.Some? then
          var p := BuildPlan(draft.value, e, newId);
          if !Valid(p) then (plans, PlanFailed("Failed to save lesson plan to database"))
          else (plans[newId := p], PlanSaved(p))
        else (plans, PlanUnsaved(draft.value))
  }

  /** `generate`. */
  method Generate(store: LessonPlanStore, input: PlanInput, catalog: Catalog,
                  retrieve: PlanQuery -> Option<seq<Chunk>>,
                  planner: (PlanContext, PlanInput) -> Option<PlanDraft>,
                  newId: Id) returns (outcome: PlanOutcome)
    modifies store
    ensures (store.plans, outcome) == GenerateResult(old(store.plans), input, catalog, retrieve, planner, newId)
  {
    var errs := ValidateInput(input);
    if |errs| > 0 {
      return PlanFailed(FailureMessage(errs));
    }
    var e := Enrich(input, catalog);
    var chunks := retrieve(PlanQuery(e.gradeName, e.subjectName, Or(e.topic, e.chapterName), e.sessions));
    if chunks.None? {
      return PlanFailed("Failed to retrieve chapter content from database");
    }
    var context := PrepareContext(chunks.value);
    var draft := planner(context, e);
    if draft.None? {
      return PlanFailed("Failed to generate lesson plan");
    }
    if e.teacherId.Some? && e.subjectId.Some? && e.gradeId.Some? {
      var plan := BuildPlan(draft.value, e, newId);
      if ValidationErrors(plan) != [] {
        return PlanFailed("Failed to save lesson plan to database");
      }
      store.plans := store.plans[newId := plan];
      return PlanSaved(plan);
    }
    return PlanUnsaved(draft.value);
  }

  /** A rejected request reports every problem after "Validation failed: "
    * and changes nothing. */
  lemma RejectedRequest(plans: map<Id, LessonPlan>, input: PlanInput, catalog: Catalog,
                        retrieve: PlanQuery -> Option<seq<Chunk>>,
                        planner: (PlanContext, PlanInput) -> Option<PlanDraft>, newId: Id)
    requires ValidateInput(input) != []
    ensures GenerateResult(plans, input, catalog, retrieve, planner, newId)
      == (plans, PlanFailed("Validation failed: " + Join(ValidateInput(input), ", ")))
  {
  }

  /** A saved plan is a valid Draft with as many sessions as requested, no
    * session resources or assessments yet, chapter number 1 unless given,
    * and it is stored under the new id; nothing else changes. */
  lemma SavedPlanShape(plans: map<Id, LessonPlan>, input: PlanInput, catalog: Catalog,
                       retrieve: PlanQuery -> Option<seq<Chunk>>,
                       planner: (PlanContext, PlanInput) -> Option<PlanDraft>, newId: Id)
    requires GenerateResult(plans, input, catalog, retrieve, planner, newId).1.PlanSaved?
    ensures var (after, outcome) := GenerateResult(plans, input, catalog, retrieve, planner, newId);
      var p := outcome.plan;
      after == plans[newId := p] && Valid(p) && p.status == Draft && p.id == newId
      && p.totalSessions == Some(input.sessions) && |p.sessions| == input.sessions
      && p.chapterNumber == Some(if input.chapterNumber != 0 then input.chapterNumber else 1)
      && p.teacherId == input.teacherId && p.subjectId == input.subjectId && p.gradeId == input.gradeId
      && p.chapterAssessments == [] && p.videos == []
      && (forall k :: 0 <= k < |p.sessions| ==> p.sessions[k].resources.None? && p.sessions[k].assessments == [])
  {
    var e := Enrich(input, catalog);
    var chunks := retrieve(PlanQuery(e.gradeName, e.subjectName, Or(e.topic, e.chapterName), e.sessions));
    var draft := planner(ContextOf(chunks.value), e);
    var p := BuildPlan(draft.value, e, newId);
    assert GenerateResult(plans, input, catalog, retrieve, planner, newId) == (plans[newId := p], PlanSaved(p));
    BuiltPlanShape(draft.value, e, newId);
  }

  /** The plan built from a draft: a Draft under the given id, with the
    * request's ids and session count, chapter number 1 unless given, and
    * no resources or assessments yet. */
  lemma BuiltPlanShape(draft: PlanDraft, e: PlanInput, id: Id)
    requires Valid(BuildPlan(draft, e, id))
    ensures var p := BuildPlan(draft, e, id);
      p.status == Draft && p.id == id
      && p.totalSessions == Some(e.sessions) && |p.sessions| == e.sessions
      && p.chapterNumber == Some(if e.chapterNumber != 0 then e.chapterNumber else 1)
      && p.teacherId == e.teacherId && p.subjectId == e.subjectId && p.gradeId == e.gradeId
      && p.chapterAssessments == [] && p.videos == []
      && (forall k :: 0 <= k < |p.sessions| ==> p.sessions[k].resources.None? && p.sessions[k].assessments == [])
  {
  }

  /** A plan is saved only when the teacher, subject and grade ids are all
    * given; otherwise the collection is unchanged. */
  lemma SavedOnlyWithIds(plans: map<Id, LessonPlan>, input: PlanInput, catalog: Catalog,
                         retrieve: PlanQuery -> Option<seq<Chunk>>,
                         planner: (PlanContext, PlanInput) -> Option<PlanDraft>, newId: Id)
    requires input.teacherId.None? || input.subjectId.None? || input.gradeId.None?
    ensures !GenerateResult(plans, input, catalog, retrieve, planner, newId).1.PlanSaved?
    ensures GenerateResult(plans, input, catalog, retrieve, planner, newId).0 == plans
  {
    var r := GenerateResult(plans, input, catalog, retrieve, planner, newId);
    if ValidateInput(input) == [] {
      var e := Enrich(input, catalog);
      assert e.teacherId == input.teacherId && e.subjectId == input.subjectId && e.gradeId == input.gradeId;
      var chunks := retrieve(PlanQuery(e.gradeName, e.subjectName, Or(e.topic, e.chapterName), e.sessions));
      if chunks.Some? {
        var draft := planner(ContextOf(chunks.value), e);
        if draft.Some? {
          assert r == (plans, PlanUnsaved(draft.value));
        }
      }
    }
  }

  /** With all three ids, a generation that does not fail is saved under the new id. */
  lemma SavedWithIds(plans: map<Id, LessonPlan>, input: PlanInput, catalog: Catalog,
                     retrieve: PlanQuery -> Option<seq<Chunk>>,
                     planner: (PlanContext, PlanInput) -> Option<PlanDraft>, newId: Id)
    requires input.teacherId.Some? && input.subjectId.Some? && input.gradeId.Some?
    requires !GenerateResult(plans, input, catalog, retrieve, planner, newId).1.PlanFailed?
    ensures GenerateResult(plans, input, catalog, retrieve, planner, newId).1.PlanSaved?
    ensures GenerateResult(plans, input, catalog, retrieve, planner, newId).0.Keys == plans.Keys + {newId}
  {
    var e := Enrich(input, catalog);
    assert e.teacherId == input.teacherId && e.subjectId == input.subjectId && e.gradeId == input.gradeId;
    var chunks := retrieve(PlanQuery(e.gradeName, e.subjectName, Or(e.topic, e.chapterName), e.sessions));
    var draft := planner(ContextOf(chunks.value), e);
    var p := BuildPlan(draft.value, e, newId);
    assert GenerateResult(plans, input, catalog, retrieve, planner, newId) == (plans[newId := p], PlanSaved(p));
  }

  /** `generatePreview`: the request with its ids removed. */
  function PreviewInput(input: PlanInput): (r: PlanInput)
    ensures r.teacherId.None? && r.subjectId.None? && r.gradeId.None?
    ensures r.(teacherId := input.teacherId, subjectId := input.subjectId, gradeId := input.gradeId) == input
  {
    input.(teacherId := None, subjectId := None, gradeId := None)
  }

  /** A preview never saves. */
  lemma PreviewNeverSaves(plans: map<Id, LessonPlan>, input: PlanInput, catalog: Catalog,
                          retrieve: PlanQuery -> Option<seq<Chunk>>,
                          planner: (PlanContext, PlanInput) -> Option<PlanDraft>, newId: Id)
    ensures GenerateResult(plans, PreviewInput(input), catalog, retrieve, planner, newId).0 == plans
    ensures !GenerateResult(plans, PreviewInput(input), catalog, retrieve, planner, newId).1.PlanSaved?
  {
    SavedOnlyWithIds(plans, PreviewInput(input), catalog, retrieve, planner, newId);
  }
}
