/** The assessment-generator agent: topic selection for a session or a
  * whole chapter, the grouping of retrieved content, numbering of the
  * generated questions, the two saves and the link back into the lesson
  * plan. The content index, the language model and the id generator are
  * parameters.
  *
  * The agent builds the Assessment record without a lesson-plan id, which
  * the schema requires; `BuildAssessmentAsWritten` is that record and
  * `AsWrittenNeverGenerates` shows the consequence. `BuildAssessment` sets
  * the id from the request and is what the rest of the model uses. */
module Generator {
  import opened Core
  import opened Text
  import opened Retrieval
  import opened LessonPlans
  import Assessments
  import Questions

  const RequiredFields := "lesson_plan_id and assessment_type are required"
  const PlanNotFound := "Lesson plan not found"
  const SessionNumberRequired := "session_number required for session assessment"
  const SessionNotFound := "Session not found"
  const RetrievalFailed := "Failed to retrieve content from database"
  const NoContent := "No content found for these topics"
  const QuestionsFailed := "Failed to generate questions"
  const SaveFailed := "Failed to save assessment to database"
  const LinkFailed := "Failed to link assessment to lesson plan"

  /** The request. A missing session number or duration is 0 (falsy); a
    * missing or unparsable date is `None`. */
  datatype GenRequest = GenRequest(
    lessonPlanId: Option<Id>,
    assessmentType: string,
    sessionNumber: int,
    classId: Option<Id>,
    gradeId: Option<Id>,
    subjectId: Option<Id>,
    opensOn: Option<int>,
    dueDate: Option<int>,
    duration: real)

  /** The topics an assessment covers and its title. */
  datatype Selection = Selection(topics: seq<string>, title: string)

  /** The topic selection of `generate`: a session assessment takes the
    * topics of the first session with the requested number; any other type
    * takes every session's topics in order, repeats kept. */
  function SelectTopics(plan: LessonPlan, assessmentType: string, sessionNumber: int): (r: Result<Selection>)
    ensures assessmentType == "session" && sessionNumber == 0 ==> r == Err(SessionNumberRequired)
    ensures assessmentType == "session" && sessionNumber != 0 ==>
      (r.Err? <==> forall k :: 0 <= k < |plan.sessions| ==> plan.sessions[k].sessionNumber != sessionNumber)
    ensures assessmentType == "session" && r.Ok? ==>
      exists k :: 0 <= k < |plan.sessions| && plan.sessions[k].sessionNumber == sessionNumber
        && (forall j :: 0 <= j < k ==> plan.sessions[j].sessionNumber != sessionNumber)
        && r.value.topics == plan.sessions[k].topics
    ensures assessmentType == "session" && r.Ok? ==>
      r.value.title == "Session " + IntToString(sessionNumber) + " Assessment - " + plan.chapterName
    ensures assessmentType != "session" ==>
      r == Ok(Selection(AllTopics(plan.sessions), "Chapter Assessment - " + plan.chapterName))
  {
    if assessmentType == "session" then
      if sessionNumber == 0 then Err(SessionNumberRequired)
      else
        match SessionIndex(plan.sessions, sessionNumber)
        case None => Err(SessionNotFound)
        case Some(k) =>
          Ok(Selection(plan.sessions[k].topics,
                       "Session " + IntToString(sessionNumber) + " Assessment - " + plan.chapterName))
    else Ok(Selection(AllTopics(plan.sessions), "Chapter Assessment - " + plan.chapterName))
  }

  /** A chapter assessment covers a topic exactly when some session covers it. */
  lemma ChapterTopicsCoverSessions(plan: LessonPlan, assessmentType: string, t: string)
    requires assessmentType != "session"
    ensures t in SelectTopics(plan, assessmentType, 0).value.topics <==>
      exists k :: 0 <= k < |plan.sessions| && t in plan.sessions[k].topics
  {
    AllTopicsMember(plan.sessions, t);
  }

  /** The chapter-wide topic list, gathered session by session. */
  method ChapterTopics(sessions: seq<Session>) returns (topics: seq<string>)
    ensures topics == AllTopics(sessions)
  {
    topics := [];
    var i := 0;
    while i < |sessions|
      invariant 0 <= i <= |sessions|
      invariant topics == AllTopics(sessions[..i])
    {
      assert sessions[..i + 1][..i] == sessions[..i];
      topics := topics + sessions[i].topics;
      i := i + 1;
    }
    assert sessions[..i] == sessions;
  }

  /** A piece of retrieved content as the question generator sees it. */
  datatype Excerpt = Excerpt(text: string, section: string)

  datatype QuizBucket = Exercises | Examples | Definitions | Explanations

  /** Exercises, examples and definitions by name; every other kind is explanation. */
  function QuizBucketOf(kind: string): QuizBucket
  {
    if kind == "exercise" then Exercises
    else if kind == "example" then Examples
    else if kind == "definition" then Definitions
    else Explanations
  }

  /** The excerpts of bucket `b`, in input order. */
  function Excerpts(chunks: seq<Chunk>, b: QuizBucket): seq<Excerpt>
  {
    if chunks == [] then []
    else
      var init := Excerpts(chunks[..|chunks| - 1], b);
      var last := chunks[|chunks| - 1];
      if QuizBucketOf(Kind(last)) == b then init + [Excerpt(last.text, last.section)] else init
  }

  /** Every chunk lands in exactly one bucket. */
  lemma {:induction false} ExcerptsPartition(chunks: seq<Chunk>)
    ensures |Excerpts(chunks, Exercises)| + |Excerpts(chunks, Examples)|
            + |Excerpts(chunks, Definitions)| + |Excerpts(chunks, Explanations)| == |chunks|
    decreases |chunks|
  {
    if chunks != [] {
      ExcerptsPartition(chunks[..|chunks| - 1]);
    }
  }

  /** A chunk's excerpt is in the bucket its kind selects. */
  lemma {:induction false} ExcerptsMember(chunks: seq<Chunk>, i: nat)
    requires i < |chunks|
    ensures Excerpt(chunks[i].text, chunks[i].section) in Excerpts(chunks, QuizBucketOf(Kind(chunks[i])))
    decreases |chunks|
  {
    var init := chunks[..|chunks| - 1];
    if i < |init| {
      ExcerptsMember(init, i);
      assert init[i] == chunks[i];
    }
  }

  datatype QuizContext = QuizContext(
    exercises: seq<Excerpt>,
    examples: seq<Excerpt>,
    definitions: seq<Excerpt>,
    explanations: seq<Excerpt>,
    topic: string)

  /** The generator's context: at most ten excerpts of each kind, in order,
    * and the first chunk's topic. */
  function QuizContextOf(chunks: seq<Chunk>): (ctx: QuizContext)
    ensures |ctx.exercises| <= 10 && |ctx.examples| <= 10 && |ctx.definitions| <= 10 && |ctx.explanations| <= 10
    ensures ctx.exercises <= Excerpts(chunks, Exercises) && ctx.examples <= Excerpts(chunks, Examples)
    ensures ctx.definitions <= Excerpts(chunks, Definitions) && ctx.explanations <= Excerpts(chunks, Explanations)
  {
    QuizContext(Take(Excerpts(chunks, Exercises), 10), Take(Excerpts(chunks, Examples), 10),
                Take(Excerpts(chunks, Definitions), 10), Take(Excerpts(chunks, Explanations), 10),
                TopicOf(chunks))
  }

  lemma ExcerptsStep(chunks: seq<Chunk>, i: nat, b: QuizBucket)
    requires i < |chunks|
    ensures Excerpts(chunks[..i + 1], b)
         == Excerpts(chunks[..i], b)
            + (if QuizBucketOf(Kind(chunks[i])) == b then [Excerpt(chunks[i].text, chunks[i].section)] else [])
  {
    assert chunks[..i + 1][..i] == chunks[..i];
  }

  /** `prepareContext`: one pass pushing each chunk onto its bucket. */
  method PrepareContext(chunks: seq<Chunk>) returns (ctx: QuizContext)
    ensures ctx == QuizContextOf(chunks)
  {
    var exercises, examples, definitions, explanations := [], [], [], [];
    var i := 0;
    while i < |chunks|
      invariant 0 <= i <= |chunks|
      invariant exercises == Excerpts(chunks[..i], Exercises)
      invariant examples == Excerpts(chunks[..i], Examples)
      invariant definitions == Excerpts(chunks[..i], Definitions)
      invariant explanations == Excerpts(chunks[..i], Explanations)
    {
      ExcerptsStep(chunks, i, Exercises);
      ExcerptsStep(chunks, i, Examples);
      ExcerptsStep(chunks, i, Definitions);
      ExcerptsStep(chunks, i, Explanations);
      var c := chunks[i];
      var kind := if c.contentType == "" then "explanation" else c.contentType;
      var content := Excerpt(c.text, c.section);
      if kind == "exercise" {
        exercises := exercises + [content];
      } else if kind == "example" {
        examples := examples + [content];
      } else if kind == "definition" {
        definitions := definitions + [content];
      } else {
        explanations := explanations + [content];
      }
      i := i + 1;
    }
    assert chunks[..i] == chunks;
    ctx := QuizContext(Take(exercises, 10), Take(examples, 10), Take(definitions, 10),
                       Take(explanations, 10), TopicOf(chunks));
  }

  /** A question as the language model returns it; a missing difficulty is "". */
  datatype DraftQuestion = DraftQuestion(
    text: string,
    inputType: string,
    answers: Option<seq<Questions.AnswerOption>>,
    marks: Option<real>,
    difficulty: string,
    topic: string)

  /** `questionsWithIds`: generator order kept, numbered from 1, each with
    * the id `uuid` gives its position, answers defaulting to none and the
    * difficulty to the schema's default. */
  function Numbered(drafts: seq<DraftQuestion>, uuid: nat -> string): (qs: seq<Questions.Question>)
    ensures |qs| == |drafts|
    ensures forall i :: 0 <= i < |qs| ==>
      qs[i].order == i + 1 && qs[i].questionId == uuid(i)
      && qs[i].text == drafts[i].text && qs[i].inputType == drafts[i].inputType
      && qs[i].marks == drafts[i].marks && qs[i].topic == drafts[i].topic
      && qs[i].answers == (if drafts[i].answers.Some? then drafts[i].answers.value else [])
      && qs[i].difficulty == (if drafts[i].difficulty == "" then Questions.DefaultDifficulty else drafts[i].difficulty)
  {
    seq(|drafts|, i requires 0 <= i < |drafts| =>
      Questions.Question(uuid(i), drafts[i].text, drafts[i].inputType,
                         if drafts[i].answers.Some? then drafts[i].answers.value else [],
                         drafts[i].marks,
                         if drafts[i].difficulty == "" then Questions.DefaultDifficulty else drafts[i].difficulty,
                         drafts[i].topic, i + 1))
  }

  /** The numbers run 1, 2, …, n without gaps or repeats. */
  lemma NumberedOrders(drafts: seq<DraftQuestion>, uuid: nat -> string)
    ensures var qs := Numbered(drafts, uuid);
      (|qs| > 0 ==> qs[0].order == 1 && qs[|qs| - 1].order == |qs|)
      && forall i, j :: 0 <= i < j < |qs| ==> qs[i].order < qs[j].order
  {
  }

  /** When the uuid source never repeats an id, no two questions share one. */
  lemma NumberedDistinctIds(drafts: seq<DraftQuestion>, uuid: nat -> string)
    requires forall i, j :: 0 <= i < j < |drafts| ==> uuid(i) != uuid(j)
    ensures var qs := Numbered(drafts, uuid);
      forall i, j :: 0 <= i < j < |qs| ==> qs[i].questionId != qs[j].questionId
  {
  }

  /** The Assessment record exactly as `saveAssessment` builds it: Draft,
    * 20 marks, 30 minutes unless given, and no lesson-plan id. */
  function BuildAssessmentAsWritten(req: GenRequest, plan: LessonPlan, sel: Selection, id: Id): (a: Assessments.Assessment)
    ensures a.lessonPlanId.None?
  {
    Assessments.Assessment(id, sel.title, None, req.opensOn, req.dueDate, Assessments.Draft,
                           req.classId, req.gradeId, plan.gradeName, req.subjectId, plan.subjectName,
                           sel.topics, plan.teacherId, 20.0,
                           Some(if req.duration != 0.0 then req.duration else 30.0), true)
  }

  /** The same record with the lesson-plan id the request names. */
  function BuildAssessment(req: GenRequest, plan: LessonPlan, sel: Selection, id: Id): (a: Assessments.Assessment)
    ensures a == BuildAssessmentAsWritten(req, plan, sel, id).(lessonPlanId := req.lessonPlanId)
    ensures a.status == Assessments.Draft && a.totalMarks == 20.0 && a.isActive
    ensures a.duration == Some(if req.duration != 0.0 then req.duration else 30.0)
    ensures a.topics == sel.topics && a.title == sel.title
  {
    BuildAssessmentAsWritten(req, plan, sel, id).(lessonPlanId := req.lessonPlanId)
  }

  /** The record as written never passes the schema: the lesson-plan id is required. */
  lemma AsWrittenRejected(req: GenRequest, plan: LessonPlan, sel: Selection, id: Id)
    ensures "Lesson Plan ID is required" in Assessments.ValidationErrors(BuildAssessmentAsWritten(req, plan, sel, id))
    ensures !Assessments.Valid(BuildAssessmentAsWritten(req, plan, sel, id))
  {
  }

  /** The question set saved beside the assessment (its total of 20 is
    * recomputed by the pre-save rule). */
  function QuestionSetFor(req: GenRequest, assessmentId: Id, questions: seq<Questions.Question>, id: Id): Questions.QuestionSet
  {
    Questions.QuestionSet(id, Some(assessmentId), questions, req.classId, req.subjectId, req.gradeId, 20.0, true)
  }

  /** A session number links into that session, anything falsy into the chapter. */
  function Linked(plan: LessonPlan, assessmentId: Id, sessionNumber: int): (p: LessonPlan)
    ensures |p.sessions| == |plan.sessions|
    ensures sessionNumber == 0 ==> p == plan.(chapterAssessments := plan.chapterAssessments + [assessmentId])
    ensures sessionNumber != 0 ==> p.chapterAssessments == plan.chapterAssessments
    ensures sessionNumber != 0 ==> forall k :: 0 <= k < |plan.sessions| ==>
      p.sessions[k].(assessments := plan.sessions[k].assessments) == plan.sessions[k]
      && p.sessions[k].assessments ==
        (if k == SessionIndex(plan.sessions, sessionNumber).GetOr(|plan.sessions|)
         then plan.sessions[k].assessments + [assessmentId] else plan.sessions[k].assessments)
    ensures p.(sessions := plan.sessions, chapterAssessments := plan.chapterAssessments) == plan
  {
    if sessionNumber != 0 then
      match SessionIndex(plan.sessions, sessionNumber)
      case None => plan
      case Some(k) =>
        var s := plan.sessions[k];
        plan.(sessions := plan.sessions[k := s.(assessments := s.assessments + [assessmentId])])
    else plan.(chapterAssessments := plan.chapterAssessments + [assessmentId])
  }

  /** Linking changes only assessment lists, so it keeps a plan valid. */
  lemma LinkedKeepsValid(plan: LessonPlan, assessmentId: Id, sessionNumber: int)
    ensures LessonPlans.Valid(Linked(plan, assessmentId, sessionNumber)) <==> LessonPlans.Valid(plan)
  {
  }

  /** A session number no session carries leaves the plan as it was. */
  lemma LinkMissingSession(plan: LessonPlan, assessmentId: Id, sessionNumber: int)
    requires sessionNumber != 0
    requires forall k :: 0 <= k < |plan.sessions| ==> plan.sessions[k].sessionNumber != sessionNumber
    ensures Linked(plan, assessmentId, sessionNumber) == plan
  {
  }

  /** The outcome of `linkToLessonPlan`: the plan as saved, or the error. */
  function LinkResult(plans: map<Id, LessonPlan>, planId: Id, assessmentId: Id, sessionNumber: int): (r: Result<LessonPlan>)
    ensures r.Ok? <==> planId in plans && LessonPlans.Valid(plans[planId])
    ensures r.Ok? ==> r.value == Linked(plans[planId], assessmentId, sessionNumber)
    ensures r.Err? ==> r.error == LinkFailed
  {
    if planId !in plans then Err(LinkFailed)
    else
      var p := Linked(plans[planId], assessmentId, sessionNumber);
      LinkedKeepsValid(plans[planId], assessmentId, sessionNumber);
      if LessonPlans.ValidationErrors(p) != [] then Err(LinkFailed) else Ok(p)
  }

  function AfterLink(plans: map<Id, LessonPlan>, r: Result<LessonPlan>, planId: Id): map<Id, LessonPlan>
  {
    if r.Ok? then plans[planId := r.value] else plans
  }

  /** `linkToLessonPlan`. */
  method LinkToLessonPlan(store: LessonPlanStore, planId: Id, assessmentId: Id, sessionNumber: int)
    returns (r: Result<LessonPlan>)
    modifies store
    ensures r == LinkResult(old(store.plans), planId, assessmentId, sessionNumber)
    ensures store.plans == AfterLink(old(store.plans), r, planId)
  {
    if planId !in store.plans {
      return Err(LinkFailed);
    }
    var plan := store.plans[planId];
    if sessionNumber != 0 {
      var k := SessionIndex(plan.sessions, sessionNumber);
      if k.Some? {
        var s := plan.sessions[k.value];
        plan := plan.(sessions := plan.sessions[k.value := s.(assessments := s.assessments + [assessmentId])]);
      }
    } else {
      plan := plan.(chapterAssessments := plan.chapterAssessments + [assessmentId]);
    }
    LinkedKeepsValid(store.plans[planId], assessmentId, sessionNumber);
    if LessonPlans.ValidationErrors(plan) != [] {
      return Err(LinkFailed);
    }
    store.plans := store.plans[planId := plan];
    return Ok(plan);
  }

  /** The question generator's view of the chapter: its number, the grade
    * and the topics. */
  datatype TopicQuery = TopicQuery(chapterNumber: Option<int>, grade: string, topics: seq<string>)

  /** Everything `generate` works out before its first save. */
  datatype Prepared = Prepared(plan: LessonPlan, selection: Selection, drafts: seq<DraftQuestion>)

  /** The checks, topic selection, retrieval and question generation of
    * `generate`. `retrieve` is `None` when the index query fails and
    * `ask` is `None` when the model gives no usable JSON. */
  function Prepare(plans: map<Id, LessonPlan>, req: GenRequest,
                   retrieve: TopicQuery -> Option<seq<Chunk>>,
                   ask: (QuizContext, seq<string>) -> Option<seq<DraftQuestion>>): (r: Result<Prepared>)
    ensures r.Ok? ==> (req.lessonPlanId.Some? && req.lessonPlanId.value in plans
                       && r.value.plan == plans[req.lessonPlanId.value]
                       && SelectTopics(r.value.plan, req.assessmentType, req.sessionNumber) == Ok(r.value.selection))
    ensures req.lessonPlanId.None? || req.assessmentType == "" ==> r == Err(RequiredFields)
  {
    if req.lessonPlanId.None? || req.assessmentType == "" then Err(RequiredFields)
    else if req.lessonPlanId.value !in plans then Err(PlanNotFound)
    else
      var plan := plans[req.lessonPlanId.value];
      match SelectTopics(plan, req.assessmentType, req.sessionNumber)
      case Err(e) => Err(e)
      case Ok(sel) =>
        var chunks := retrieve(TopicQuery(plan.chapterNumber, plan.gradeName, sel.topics));
        if chunks.None? then Err(RetrievalFailed)
        else if |chunks.value| == 0 then Err(NoContent)
        else
          var drafts := ask(QuizContextOf(chunks.value), sel.topics);
          if drafts.None? then Err(QuestionsFailed)
          else Ok(Prepared(plan, sel, drafts.value))
  }

  /** An empty retrieval stops generation before the model is asked. */
  lemma NoContentStops(plans: map<Id, LessonPlan>, req: GenRequest,
                       retrieve: TopicQuery -> Option<seq<Chunk>>,
                       ask: (QuizContext, seq<string>) -> Option<seq<DraftQuestion>>)
    requires req.lessonPlanId.Some? && req.assessmentType != "" && req.lessonPlanId.value in plans
    requires SelectTopics(plans[req.lessonPlanId.value], req.assessmentType, req.sessionNumber).Ok?
    requires var plan := plans[req.lessonPlanId.value];
      retrieve(TopicQuery(plan.chapterNumber, plan.gradeName,
                          SelectTopics(plan, req.assessmentType, req.sessionNumber).value.topics)) == Some([])
    ensures Prepare(plans, req, retrieve, ask) == Err(NoContent)
  {
  }

  /** The three collections the agent writes. */
  datatype Stores = Stores(
    assessments: seq<Assessments.Assessment>,
    sets: seq<Questions.QuestionSet>,
    plans: map<Id, LessonPlan>)

  datatype GenOutcome =
    | Generated(assessment: Assessments.Assessment, questions: Questions.QuestionSet)
    | GenFailed(error: string)

  /** The saves and the link that follow preparation, for a given way of
    * building the Assessment record. Each save that succeeds stays, even
    * when a later step fails. */
  function SaveAndLink(st: Stores, req: GenRequest, p: Prepared,
                       build: (GenRequest, LessonPlan, Selection, Id) -> Assessments.Assessment,
                       uuid: nat -> string, assessmentId: Id, setId: Id): (Stores, GenOutcome)
  {
    var a := build(req, p.plan, p.selection, assessmentId);
    if !Assessments.Valid(a) then (st, GenFailed(SaveFailed))
    else
      var st1 := st.(assessments := st.assessments + [a]);
      match Questions.Save(QuestionSetFor(req, a.id, Numbered(p.drafts, uuid), setId))
      case Err(_) => (st1, GenFailed(SaveFailed))
      case Ok(saved) =>
        var st2 := st1.(sets := st1.sets + [saved]);
        var link := LinkResult(st2.plans, req.lessonPlanId.GetOr(0), a.id, req.sessionNumber);
        var st3 := st2.(plans := AfterLink(st2.plans, link, req.lessonPlanId.GetOr(0)));
        if link.Err? then (st3, GenFailed(LinkFailed)) else (st3, Generated(a, saved))
  }

  /** `generate`, for a given way of building the Assessment record. */
  function GenerateWith(st: Stores, req: GenRequest,
                        retrieve: TopicQuery -> Option<seq<Chunk>>,
                        ask: (QuizContext, seq<string>) -> Option<seq<DraftQuestion>>,
                        build: (GenRequest, LessonPlan, Selection, Id) -> Assessments.Assessment,
                        uuid: nat -> string, assessmentId: Id, setId: Id): (Stores, GenOutcome)
  {
    match Prepare(st.plans, req, retrieve, ask)
    case Err(e) => (st, GenFailed(e))
    case Ok(p) => SaveAndLink(st, req, p, build, uuid, assessmentId, setId)
  }

  /** As written, generation never succeeds and never stores anything: the
    * Assessment save always fails for want of the lesson-plan id. */
  lemma AsWrittenNeverGenerates(st: Stores, req: GenRequest,
                                retrieve: TopicQuery -> Option<seq<Chunk>>,
                                ask: (QuizContext, seq<string>) -> Option<seq<DraftQuestion>>,
                                uuid: nat -> string, assessmentId: Id, setId: Id)
    ensures GenerateWith(st, req, retrieve, ask, BuildAssessmentAsWritten, uuid, assessmentId, setId).1.GenFailed?
    ensures GenerateWith(st, req, retrieve, ask, BuildAssessmentAsWritten, uuid, assessmentId, setId).0 == st
  {
    match Prepare(st.plans, req, retrieve, ask)
    case Err(_) =>
    case Ok(p) =>
      AsWrittenRejected(req, p.plan, p.selection, assessmentId);
  }

  /** `generate` with the lesson-plan id set on the record. */
  function GenerateResult(st: Stores, req: GenRequest,
                          retrieve: TopicQuery -> Option<seq<Chunk>>,
                          ask: (QuizContext, seq<string>) -> Option<seq<DraftQuestion>>,
                          uuid: nat -> string, assessmentId: Id, setId: Id): (Stores, GenOutcome)
  {
    GenerateWith(st, req, retrieve, ask, BuildAssessment, uuid, assessmentId, setId)
  }

  /** The records a successful save-and-link writes. */
  lemma {:induction false} SaveAndLinkShape(st: Stores, req: GenRequest, p: Prepared,
                                            uuid: nat -> string, assessmentId: Id, setId: Id)
    requires SaveAndLink(st, req, p, BuildAssessment, uuid, assessmentId, setId).1.Generated?
    ensures var out := SaveAndLink(st, req, p, BuildAssessment, uuid, assessmentId, setId).1;
      var after := SaveAndLink(st, req, p, BuildAssessment, uuid, assessmentId, setId).0;
      out.assessment == BuildAssessment(req, p.plan, p.selection, assessmentId)
      && after.assessments == st.assessments + [out.assessment]
      && after.sets == st.sets + [out.questions]
      && out.questions.assessmentId == Some(assessmentId)
      && out.questions.questions == Numbered(p.drafts, uuid)
      && out.questions.totalMarks == Sum(Questions.MarksList(out.questions.questions))
      && req.lessonPlanId.GetOr(0) in st.plans
      && after.plans == st.plans[req.lessonPlanId.GetOr(0) :=
                                 Linked(st.plans[req.lessonPlanId.GetOr(0)], assessmentId, req.sessionNumber)]
  {
    SaveAndLinkOk(st, req, p, BuildAssessment, uuid, assessmentId, setId);
    var a := BuildAssessment(req, p.plan, p.selection, assessmentId);
    assert a.id == assessmentId;
    var qset := QuestionSetFor(req, a.id, Numbered(p.drafts, uuid), setId);
    Questions.SavedTotal(qset, qset.totalMarks);
  }

  /** What a successful save-and-link writes, for any way of building the record. */
  lemma SaveAndLinkOk(st: Stores, req: GenRequest, p: Prepared,
                      build: (GenRequest, LessonPlan, Selection, Id) -> Assessments.Assessment,
                      uuid: nat -> string, assessmentId: Id, setId: Id)
    requires SaveAndLink(st, req, p, build, uuid, assessmentId, setId).1.Generated?
    ensures var a := build(req, p.plan, p.selection, assessmentId);
      var saved := Questions.Save(QuestionSetFor(req, a.id, Numbered(p.drafts, uuid), setId));
      var lid := req.lessonPlanId.GetOr(0);
      saved.Ok? && lid in st.plans
      && SaveAndLink(st, req, p, build, uuid, assessmentId, setId)
         == (st.(assessments := st.assessments + [a], sets := st.sets + [saved.value],
                 plans := st.plans[lid := Linked(st.plans[lid], a.id, req.sessionNumber)]),
             Generated(a, saved.value))
  {
    SaveAndLinkGuards(st, req, p, build, uuid, assessmentId, setId);
  }

  /** The guards a successful save-and-link has passed. */
  lemma SaveAndLinkGuards(st: Stores, req: GenRequest, p: Prepared,
                          build: (GenRequest, LessonPlan, Selection, Id) -> Assessments.Assessment,
                          uuid: nat -> string, assessmentId: Id, setId: Id)
    requires SaveAndLink(st, req, p, build, uuid, assessmentId, setId).1.Generated?
    ensures var a := build(req, p.plan, p.selection, assessmentId);
      Assessments.Valid(a)
      && Questions.Save(QuestionSetFor(req, a.id, Numbered(p.drafts, uuid), setId)).Ok?
      && LinkResult(st.plans, req.lessonPlanId.GetOr(0), a.id, req.sessionNumber).Ok?
  {
    SavedAssessmentValid(st, req, p, build, uuid, assessmentId, setId);
    SavedQuestionsValid(st, req, p, build, uuid, assessmentId, setId);
    SavedLinkValid(st, req, p, build, uuid, assessmentId, setId);
  }

  /** A generation that succeeds built a valid Assessment record. */
  lemma SavedAssessmentValid(st: Stores, req: GenRequest, p: Prepared,
                             build: (GenRequest, LessonPlan, Selection, Id) -> Assessments.Assessment,
                             uuid: nat -> string, assessmentId: Id, setId: Id)
    requires SaveAndLink(st, req, p, build, uuid, assessmentId, setId).1.Generated?
    ensures Assessments.Valid(build(req, p.plan, p.selection, assessmentId))
  {
  }

  /** A generation that succeeds saved its question set. */
  lemma SavedQuestionsValid(st: Stores, req: GenRequest, p: Prepared,
                            build: (GenRequest, LessonPlan, Selection, Id) -> Assessments.Assessment,
                            uuid: nat -> string, assessmentId: Id, setId: Id)
    requires SaveAndLink(st, req, p, build, uuid, assessmentId, setId).1.Generated?
    ensures var a := build(req, p.plan, p.selection, assessmentId);
      Questions.Save(QuestionSetFor(req, a.id, Numbered(p.drafts, uuid), setId)).Ok?
  {
  }

  /** A generation that succeeds linked the assessment into its plan. */
  lemma SavedLinkValid(st: Stores, req: GenRequest, p: Prepared,
                       build: (GenRequest, LessonPlan, Selection, Id) -> Assessments.Assessment,
                       uuid: nat -> string, assessmentId: Id, setId: Id)
    requires SaveAndLink(st, req, p, build, uuid, assessmentId, setId).1.Generated?
    ensures var a := build(req, p.plan, p.selection, assessmentId);
      LinkResult(st.plans, req.lessonPlanId.GetOr(0), a.id, req.sessionNumber).Ok?
  {
    SavedAssessmentValid(st, req, p, build, uuid, assessmentId, setId);
    SavedQuestionsValid(st, req, p, build, uuid, assessmentId, setId);
    var a := build(req, p.plan, p.selection, assessmentId);
    var saved := Questions.Save(QuestionSetFor(req, a.id, Numbered(p.drafts, uuid), setId)).value;
    var link := LinkResult(st.plans, req.lessonPlanId.GetOr(0), a.id, req.sessionNumber);
    var st2 := st.(assessments := st.assessments + [a], sets := st.sets + [saved]);
    assert SaveAndLink(st, req, p, build, uuid, assessmentId, setId)
      == (st2.(plans := AfterLink(st.plans, link, req.lessonPlanId.GetOr(0))),
          if link.Err? then GenFailed(LinkFailed) else Generated(a, saved));
  }

  /** With the id set, a generated assessment belongs to the requested plan,
    * is stored as a Draft worth 20 marks, its questions are numbered from 1
    * with their total recomputed, and its id is linked into the plan. */
  lemma GeneratedShape(st: Stores, req: GenRequest,
                       retrieve: TopicQuery -> Option<seq<Chunk>>,
                       ask: (QuizContext, seq<string>) -> Option<seq<DraftQuestion>>,
                       uuid: nat -> string, assessmentId: Id, setId: Id)
    requires GenerateResult(st, req, retrieve, ask, uuid, assessmentId, setId).1.Generated?
    ensures req.lessonPlanId.Some? && req.lessonPlanId.value in st.plans
    ensures var out := GenerateResult(st, req, retrieve, ask, uuid, assessmentId, setId).1;
      out.assessment.lessonPlanId == req.lessonPlanId && out.assessment.id == assessmentId
      && out.assessment.status == Assessments.Draft && out.assessment.totalMarks == 20.0
      && out.questions.assessmentId == Some(assessmentId)
      && out.questions.totalMarks == Sum(Questions.MarksList(out.questions.questions))
      && (forall i :: 0 <= i < |out.questions.questions| ==> out.questions.questions[i].order == i + 1)
    ensures var out := GenerateResult(st, req, retrieve, ask, uuid, assessmentId, setId).1;
      var after := GenerateResult(st, req, retrieve, ask, uuid, assessmentId, setId).0;
      after.assessments == st.assessments + [out.assessment]
      && after.sets == st.sets + [out.questions]
      && after.plans == st.plans[req.lessonPlanId.value :=
                                 Linked(st.plans[req.lessonPlanId.value], assessmentId, req.sessionNumber)]
  {
    var p := Prepare(st.plans, req, retrieve, ask).value;
    SaveAndLinkShape(st, req, p, uuid, assessmentId, setId);
  }

  /** A failure after the Assessment save leaves that record stored: the
    * saves are not undone. */
  lemma PartialSaveKept(st: Stores, req: GenRequest,
                        retrieve: TopicQuery -> Option<seq<Chunk>>,
                        ask: (QuizContext, seq<string>) -> Option<seq<DraftQuestion>>,
                        uuid: nat -> string, assessmentId: Id, setId: Id)
    requires Prepare(st.plans, req, retrieve, ask).Ok?
    requires var p := Prepare(st.plans, req, retrieve, ask).value;
      Assessments.Valid(BuildAssessment(req, p.plan, p.selection, assessmentId))
    ensures var (after, _) := GenerateResult(st, req, retrieve, ask, uuid, assessmentId, setId);
      |after.assessments| == |st.assessments| + 1 && after.assessments[|st.assessments|].id == assessmentId
  {
    var p := Prepare(st.plans, req, retrieve, ask).value;
    SavedAssessmentStays(st, req, p, uuid, assessmentId, setId);
  }

  lemma SavedAssessmentStays(st: Stores, req: GenRequest, p: Prepared, uuid: nat -> string, assessmentId: Id, setId: Id)
    requires Assessments.Valid(BuildAssessment(req, p.plan, p.selection, assessmentId))
    ensures var after := SaveAndLink(st, req, p, BuildAssessment, uuid, assessmentId, setId).0;
      |after.assessments| == |st.assessments| + 1 && after.assessments[|st.assessments|].id == assessmentId
  {
    var a := BuildAssessment(req, p.plan, p.selection, assessmentId);
    assert SaveAndLink(st, req, p, BuildAssessment, uuid, assessmentId, setId).0.assessments == st.assessments + [a];
  }

  /** Saves the Assessment record and then its question set. */
  method SaveAssessment(assessments: Assessments.AssessmentStore, sets: Questions.QuestionStore,
                        req: GenRequest, p: Prepared, uuid: nat -> string, assessmentId: Id, setId: Id)
    returns (r: Result<(Assessments.Assessment, Questions.QuestionSet)>)
    modifies assessments, sets
    ensures var a := BuildAssessment(req, p.plan, p.selection, assessmentId);
      var saved := Questions.Save(QuestionSetFor(req, a.id, Numbered(p.drafts, uuid), setId));
      if !Assessments.Valid(a) then
        r == Err(SaveFailed) && assessments.docs == old(assessments.docs) && sets.docs == old(sets.docs)
      else if saved.Err? then
        r == Err(SaveFailed) && assessments.docs == old(assessments.docs) + [a] && sets.docs == old(sets.docs)
      else
        r == Ok((a, saved.value)) && assessments.docs == old(assessments.docs) + [a]
        && sets.docs == old(sets.docs) + [saved.value]
  {
    var a := BuildAssessment(req, p.plan, p.selection, assessmentId);
    if Assessments.ValidationErrors(a) != [] {
      return Err(SaveFailed);
    }
    assessments.docs := assessments.docs + [a];
    var questions := Numbered(p.drafts, uuid);
    var saved := Questions.Save(QuestionSetFor(req, a.id, questions, setId));
    if saved.Err? {
      return Err(SaveFailed);
    }
    sets.docs := sets.docs + [saved.value];
    return Ok((a, saved.value));
  }

  /** `generate`. */
  method Generate(assessments: Assessments.AssessmentStore, sets: Questions.QuestionStore, plans: LessonPlanStore,
                  req: GenRequest,
                  retrieve: TopicQuery -> Option<seq<Chunk>>,
                  ask: (QuizContext, seq<string>) -> Option<seq<DraftQuestion>>,
                  uuid: nat -> string, assessmentId: Id, setId: Id) returns (outcome: GenOutcome)
    modifies assessments, sets, plans
    ensures (Stores(assessments.docs, sets.docs, plans.plans), outcome)
      == GenerateResult(Stores(old(assessments.docs), old(sets.docs), old(plans.plans)), req, retrieve, ask,
                        uuid, assessmentId, setId)
  {
    var prepared := Prepare(plans.plans, req, retrieve, ask);
    if prepared.Err? {
      return GenFailed(prepared.error);
    }
    var saved := SaveAssessment(assessments, sets, req, prepared.value, uuid, assessmentId, setId);
    if saved.Err? {
      return GenFailed(saved.error);
    }
    var link := LinkToLessonPlan(plans, req.lessonPlanId.GetOr(0), saved.value.0.id, req.sessionNumber);
    if link.Err? {
      return GenFailed(LinkFailed);
    }
    return Generated(saved.value.0, saved.value.1);
  }
}
