/** The agent workflow service: content curation for a stored plan, the
  * status gates in front of chapter and session assessments, and the
  * complete workflow that runs one after the other. Failures are reported,
  * never thrown. */
module Workflow {
  import opened Core
  import opened Retrieval
  import opened LessonPlans
  import Assessments
  import Questions
  import Curation
  import Generator

  const PlanNotFound := "Lesson plan not found"
  const ChapterNotCompleted := "Lesson plan must be marked as Completed to generate assessments"

  function SessionNotFound(n: int): string
  {
    "Session " + Text.IntToString(n) + " not found"
  }

  function SessionNotCompleted(n: int): string
  {
    "Session " + Text.IntToString(n) + " must be marked as Completed to generate assessment"
  }

  /** Seven days in milliseconds, the default time to the due date. */
  const Week: int := 7 * 24 * 60 * 60 * 1000

  /* ---------- content curation ---------- */

  /** Every session's topics, each kept once at its first occurrence. */
  function CurationTopics(p: LessonPlan): seq<string>
  {
    Dedup(AllTopics(p.sessions))
  }

  /** What curation is asked for a plan: its subject and grade names, its
    * topics, and a save. */
  function CurationRequest(planId: Id, p: LessonPlan): Curation.CurateRequest
  {
    Curation.CurateRequest(Some(planId), p.subjectName, Some(CurationTopics(p)), Some(p.gradeName), true)
  }

  datatype CurationReport =
    | CurationDone(videos: seq<Curation.CuratedVideo>, simulations: seq<Curation.FoundSimulation>)
    | CurationError(error: string)

  /** The collection and report of `triggerContentCuration`. */
  function ContentCurationResult(plans: map<Id, LessonPlan>, planId: Id,
                                 search: string -> Option<seq<Curation.Video>>): (map<Id, LessonPlan>, CurationReport)
  {
    if planId !in plans then (plans, CurationError(PlanNotFound))
    else
      var r := Curation.CurateResult(plans, CurationRequest(planId, plans[planId]), search);
      if r.1.CurateFailed? then (r.0, CurationError(r.1.error))
      else (r.0, CurationDone(r.1.videos, r.1.simulations))
  }

  /** The topics asked for are exactly the plan's session topics, without
    * repeats, in first-occurrence order. */
  lemma CurationTopicsExact(p: LessonPlan)
    ensures forall t :: t in CurationTopics(p) <==> exists k :: 0 <= k < |p.sessions| && t in p.sessions[k].topics
    ensures Distinct(CurationTopics(p))
  {
    DedupMembers(AllTopics(p.sessions));
    DedupDistinct(AllTopics(p.sessions));
    forall t ensures t in AllTopics(p.sessions) <==> exists k :: 0 <= k < |p.sessions| && t in p.sessions[k].topics {
      AllTopicsMember(p.sessions, t);
    }
  }

  /** A plan whose subject has no curation table is reported, not saved. */
  lemma UnsupportedSubjectReported(plans: map<Id, LessonPlan>, planId: Id,
                                   search: string -> Option<seq<Curation.Video>>)
    requires planId in plans && plans[planId].subjectName != ""
    requires plans[planId].subjectName !in {"Science", "Math", "English"}
    ensures ContentCurationResult(plans, planId, search)
      == (plans, CurationError(Curation.Unsupported(plans[planId].subjectName)))
  {
  }

  /** Curation never changes a plan's status. */
  lemma CurationKeepsStatus(plans: map<Id, LessonPlan>, planId: Id,
                            search: string -> Option<seq<Curation.Video>>)
    requires planId in plans
    ensures var after := ContentCurationResult(plans, planId, search).0;
      planId in after && after[planId].status == plans[planId].status
  {
    var req := CurationRequest(planId, plans[planId]);
    if Curation.CurateResult(plans, req, search).1.Curated? {
      Curation.CurateSaveFrame(plans, req, search);
    }
  }

  /** `triggerContentCuration`. */
  method TriggerContentCuration(store: LessonPlanStore, planId: Id, search: string -> Option<seq<Curation.Video>>)
    returns (report: CurationReport)
    modifies store
    ensures (store.plans, report) == ContentCurationResult(old(store.plans), planId, search)
  {
    if planId !in store.plans {
      return CurationError(PlanNotFound);
    }
    var plan := store.plans[planId];
    var topics := Generator.ChapterTopics(plan.sessions);
    var request := Curation.CurateRequest(Some(planId), plan.subjectName, Some(Dedup(topics)), Some(plan.gradeName), true);
    var outcome := Curation.Curate(store, request, search);
    if outcome.CurateFailed? {
      return CurationError(outcome.error);
    }
    return CurationDone(outcome.videos, outcome.simulations);
  }

  /* ---------- assessment generation ---------- */

  /** The caller's assessment settings; absent ones are `None` or 0. */
  datatype AssessmentConfig = AssessmentConfig(classId: Option<Id>, opensOn: Option<int>, dueDate: Option<int>, duration: real)

  /** The generator request for a plan: ids from the plan, dates and
    * duration from the settings with now, a week from now and 30 minutes
    * in their place. */
  function AgentRequest(planId: Id, p: LessonPlan, kind: string, sessionNumber: int,
                        cfg: AssessmentConfig, now: int): (r: Generator.GenRequest)
    ensures r.opensOn == Some(if cfg.opensOn.Some? then cfg.opensOn.value else now)
    ensures r.dueDate == Some(if cfg.dueDate.Some? then cfg.dueDate.value else now + 604800000)
    ensures r.duration == if cfg.duration != 0.0 then cfg.duration else 30.0
    ensures r.lessonPlanId == Some(planId) && r.assessmentType == kind && r.sessionNumber == sessionNumber
    ensures r.classId == cfg.classId && r.gradeId == p.gradeId && r.subjectId == p.subjectId
  {
    Generator.GenRequest(Some(planId), kind, sessionNumber, cfg.classId, p.gradeId, p.subjectId,
                         Some(cfg.opensOn.GetOr(now)), Some(cfg.dueDate.GetOr(now + Week)),
                         if cfg.duration != 0.0 then cfg.duration else 30.0)
  }

  datatype AssessmentReport =
    | AssessmentDone(assessment: Assessments.Assessment, questions: Questions.QuestionSet)
    | AssessmentError(error: string)

  function Report(outcome: Generator.GenOutcome): AssessmentReport
  {
    match outcome
    case Generated(a, q) => AssessmentDone(a, q)
    case GenFailed(e) => AssessmentError(e)
  }

  /** The collections and report of `triggerAssessmentGeneration`. */
  function ChapterAssessmentResult(st: Generator.Stores, planId: Id, cfg: AssessmentConfig, now: int,
                                   retrieve: Generator.TopicQuery -> Option<seq<Chunk>>,
                                   ask: (Generator.QuizContext, seq<string>) -> Option<seq<Generator.DraftQuestion>>,
                                   uuid: nat -> string, assessmentId: Id, setId: Id): (Generator.Stores, AssessmentReport)
  {
    if planId !in st.plans then (st, AssessmentError(PlanNotFound))
    else if st.plans[planId].status != Completed then (st, AssessmentError(ChapterNotCompleted))
    else
      var r := Generator.GenerateResult(st, AgentRequest(planId, st.plans[planId], "chapter", 0, cfg, now),
                                        retrieve, ask, uuid, assessmentId, setId);
      (r.0, Report(r.1))
  }

  /** A plan that is not Completed gets no assessment and nothing is
    * written; a Completed one gets exactly what the generator produces. */
  lemma ChapterGate(st: Generator.Stores, planId: Id, cfg: AssessmentConfig, now: int,
                    retrieve: Generator.TopicQuery -> Option<seq<Chunk>>,
                    ask: (Generator.QuizContext, seq<string>) -> Option<seq<Generator.DraftQuestion>>,
                    uuid: nat -> string, assessmentId: Id, setId: Id)
    requires planId in st.plans
    ensures st.plans[planId].status != Completed ==>
      ChapterAssessmentResult(st, planId, cfg, now, retrieve, ask, uuid, assessmentId, setId)
        == (st, AssessmentError(ChapterNotCompleted))
    ensures st.plans[planId].status == Completed ==>
      ChapterAssessmentResult(st, planId, cfg, now, retrieve, ask, uuid, assessmentId, setId).1.AssessmentDone?
      == Generator.GenerateResult(st, AgentRequest(planId, st.plans[planId], "chapter", 0, cfg, now),
                                  retrieve, ask, uuid, assessmentId, setId).1.Generated?
  {
  }

  /** `triggerAssessmentGeneration`. */
  method TriggerAssessmentGeneration(assessments: Assessments.AssessmentStore, sets: Questions.QuestionStore,
                                     plans: LessonPlanStore, planId: Id, cfg: AssessmentConfig, now: int,
                                     retrieve: Generator.TopicQuery -> Option<seq<Chunk>>,
                                     ask: (Generator.QuizContext, seq<string>) -> Option<seq<Generator.DraftQuestion>>,
                                     uuid: nat -> string, assessmentId: Id, setId: Id)
    returns (report: AssessmentReport)
    modifies assessments, sets, plans
    ensures (Generator.Stores(assessments.docs, sets.docs, plans.plans), report)
      == ChapterAssessmentResult(Generator.Stores(old(assessments.docs), old(sets.docs), old(plans.plans)),
                                 planId, cfg, now, retrieve, ask, uuid, assessmentId, setId)
  {
    if planId !in plans.plans {
      return AssessmentError(PlanNotFound);
    }
    var plan := plans.plans[planId];
    if plan.status != Completed {
      return AssessmentError(ChapterNotCompleted);
    }
    var request := AgentRequest(planId, plan, "chapter", 0, cfg, now);
    var outcome := Generator.Generate(assessments, sets, plans, request, retrieve, ask, uuid, assessmentId, setId);
    return Report(outcome);
  }

  /** The collections and report of `triggerSessionAssessment`. The gate
    * reads the session's status as the stored document has it. */
  function SessionAssessmentResult(st: Generator.Stores, planId: Id, n: int, cfg: AssessmentConfig, now: int,
                                   retrieve: Generator.TopicQuery -> Option<seq<Chunk>>,
                                   ask: (Generator.QuizContext, seq<string>) -> Option<seq<Generator.DraftQuestion>>,
                                   uuid: nat -> string, assessmentId: Id, setId: Id): (Generator.Stores, AssessmentReport)
  {
    if planId !in st.plans then (st, AssessmentError(PlanNotFound))
    else
      var plan := st.plans[planId];
      match SessionIndex(plan.sessions, n)
      case None => (st, AssessmentError(SessionNotFound(n)))
      case Some(i) =>
        if plan.sessions[i].status != Some("Completed") then (st, AssessmentError(SessionNotCompleted(n)))
        else
          var r := Generator.GenerateResult(st, AgentRequest(planId, plan, "session", n, cfg, now),
                                            retrieve, ask, uuid, assessmentId, setId);
          (r.0, Report(r.1))
  }

  /** Every session as the lesson-plan schema stores it: the sub-schema
    * declares no status, so none survives a save. */
  predicate AsStored(p: LessonPlan)
  {
    forall k :: 0 <= k < |p.sessions| ==> p.sessions[k] == Stored(p.sessions[k])
  }

  /** As written, a session assessment is never generated for a stored
    * plan: the status the gate reads is never there, so every request is
    * refused and nothing is written. */
  lemma StoredSessionsRefused(st: Generator.Stores, planId: Id, n: int, cfg: AssessmentConfig, now: int,
                              retrieve: Generator.TopicQuery -> Option<seq<Chunk>>,
                              ask: (Generator.QuizContext, seq<string>) -> Option<seq<Generator.DraftQuestion>>,
                              uuid: nat -> string, assessmentId: Id, setId: Id)
    requires planId in st.plans && AsStored(st.plans[planId])
    requires SessionIndex(st.plans[planId].sessions, n).Some?
    ensures SessionAssessmentResult(st, planId, n, cfg, now, retrieve, ask, uuid, assessmentId, setId)
      == (st, AssessmentError(SessionNotCompleted(n)))
  {
    var i := SessionIndex(st.plans[planId].sessions, n).value;
    assert st.plans[planId].sessions[i].status.None?;
  }

  /** With the status kept on the session, a Completed session passes the
    * gate and gets exactly what the generator produces; any other status is
    * refused without a write. */
  lemma CompletedSessionGenerates(st: Generator.Stores, planId: Id, n: int, cfg: AssessmentConfig, now: int,
                                  retrieve: Generator.TopicQuery -> Option<seq<Chunk>>,
                                  ask: (Generator.QuizContext, seq<string>) -> Option<seq<Generator.DraftQuestion>>,
                                  uuid: nat -> string, assessmentId: Id, setId: Id)
    requires planId in st.plans && SessionIndex(st.plans[planId].sessions, n).Some?
    ensures var i := SessionIndex(st.plans[planId].sessions, n).value;
      var r := Generator.GenerateResult(st, AgentRequest(planId, st.plans[planId], "session", n, cfg, now),
                                        retrieve, ask, uuid, assessmentId, setId);
      SessionAssessmentResult(st, planId, n, cfg, now, retrieve, ask, uuid, assessmentId, setId)
        == if st.plans[planId].sessions[i].status == Some("Completed") then (r.0, Report(r.1))
           else (st, AssessmentError(SessionNotCompleted(n)))
  {
  }

  /** An unknown plan or session number is reported and nothing is written. */
  lemma SessionLookupFailures(st: Generator.Stores, planId: Id, n: int, cfg: AssessmentConfig, now: int,
                              retrieve: Generator.TopicQuery -> Option<seq<Chunk>>,
                              ask: (Generator.QuizContext, seq<string>) -> Option<seq<Generator.DraftQuestion>>,
                              uuid: nat -> string, assessmentId: Id, setId: Id)
    ensures planId !in st.plans ==>
      SessionAssessmentResult(st, planId, n, cfg, now, retrieve, ask, uuid, assessmentId, setId)
        == (st, AssessmentError(PlanNotFound))
    ensures (planId in st.plans && forall k :: 0 <= k < |st.plans[planId].sessions| ==>
               st.plans[planId].sessions[k].sessionNumber != n) ==>
      SessionAssessmentResult(st, planId, n, cfg, now, retrieve, ask, uuid, assessmentId, setId)
        == (st, AssessmentError(SessionNotFound(n)))
  {
  }

  /** `triggerSessionAssessment`. */
  method TriggerSessionAssessment(assessments: Assessments.AssessmentStore, sets: Questions.QuestionStore,
                                  plans: LessonPlanStore, planId: Id, n: int, cfg: AssessmentConfig, now: int,
                                  retrieve: Generator.TopicQuery -> Option<seq<Chunk>>,
                                  ask: (Generator.QuizContext, seq<string>) -> Option<seq<Generator.DraftQuestion>>,
                                  uuid: nat -> string, assessmentId: Id, setId: Id)
    returns (report: AssessmentReport)
    modifies assessments, sets, plans
    ensures (Generator.Stores(assessments.docs, sets.docs, plans.plans), report)
      == SessionAssessmentResult(Generator.Stores(old(assessments.docs), old(sets.docs), old(plans.plans)),
                                 planId, n, cfg, now, retrieve, ask, uuid, assessmentId, setId)
  {
    if planId !in plans.plans {
      return AssessmentError(PlanNotFound);
    }
    var plan := plans.plans[planId];
    var i := SessionIndex(plan.sessions, n);
    if i.None? {
      return AssessmentError(SessionNotFound(n));
    }
    if plan.sessions[i.value].status != Some("Completed") {
      return AssessmentError(SessionNotCompleted(n));
    }
    var request := AgentRequest(planId, plan, "session", n, cfg, now);
    var outcome := Generator.Generate(assessments, sets, plans, request, retrieve, ask, uuid, assessmentId, setId);
    return Report(outcome);
  }

  /* ---------- complete workflow ---------- */

  /** The results of the complete workflow: the plan as first loaded, the
    * curation report, and the assessment report when one was attempted. */
  datatype WorkflowReport =
    | WorkflowDone(plan: LessonPlan, curation: CurationReport, assessment: Option<AssessmentReport>)
    | WorkflowError(error: string)

  /** The collections and report of `executeCompleteWorkflow`. */
  function CompleteWorkflowResult(st: Generator.Stores, planId: Id, cfg: AssessmentConfig, now: int,
                                  search: string -> Option<seq<Curation.Video>>,
                                  retrieve: Generator.TopicQuery -> Option<seq<Chunk>>,
                                  ask: (Generator.QuizContext, seq<string>) -> Option<seq<Generator.DraftQuestion>>,
                                  uuid: nat -> string, assessmentId: Id, setId: Id): (Generator.Stores, WorkflowReport)
  {
    if planId !in st.plans then (st, WorkflowError(PlanNotFound))
    else
      var plan := st.plans[planId];
      var curated := ContentCurationResult(st.plans, planId, search);
      var st1 := st.(plans := curated.0);
      if plan.status == Completed then
        var generated := ChapterAssessmentResult(st1, planId, cfg, now, retrieve, ask, uuid, assessmentId, setId);
        (generated.0, WorkflowDone(plan, curated.1, Some(generated.1)))
      else (st1, WorkflowDone(plan, curated.1, None))
  }

  /** The workflow succeeds whenever the plan exists, whatever curation
    * reported; it attempts an assessment exactly when the plan is
    * Completed, and only curation writes otherwise. */
  lemma WorkflowCarriesOn(st: Generator.Stores, planId: Id, cfg: AssessmentConfig, now: int,
                          search: string -> Option<seq<Curation.Video>>,
                          retrieve: Generator.TopicQuery -> Option<seq<Chunk>>,
                          ask: (Generator.QuizContext, seq<string>) -> Option<seq<Generator.DraftQuestion>>,
                          uuid: nat -> string, assessmentId: Id, setId: Id)
    ensures var r := CompleteWorkflowResult(st, planId, cfg, now, search, retrieve, ask, uuid, assessmentId, setId);
      r.1.WorkflowDone? <==> planId in st.plans
    ensures var r := CompleteWorkflowResult(st, planId, cfg, now, search, retrieve, ask, uuid, assessmentId, setId);
      planId in st.plans ==>
        (r.1.curation == ContentCurationResult(st.plans, planId, search).1
         && (r.1.assessment.Some? <==> st.plans[planId].status == Completed))
    ensures var r := CompleteWorkflowResult(st, planId, cfg, now, search, retrieve, ask, uuid, assessmentId, setId);
      planId in st.plans && st.plans[planId].status != Completed ==>
        r.0 == st.(plans := ContentCurationResult(st.plans, planId, search).0)
  {
  }

  /** The second status check, made after curation, agrees with the first
    * (curation leaves the status alone), so a Completed plan's assessment
    * report is the generator's own outcome on the curated collections. */
  lemma WorkflowGateConsistent(st: Generator.Stores, planId: Id, cfg: AssessmentConfig, now: int,
                               search: string -> Option<seq<Curation.Video>>,
                               retrieve: Generator.TopicQuery -> Option<seq<Chunk>>,
                               ask: (Generator.QuizContext, seq<string>) -> Option<seq<Generator.DraftQuestion>>,
                               uuid: nat -> string, assessmentId: Id, setId: Id)
    requires planId in st.plans && st.plans[planId].status == Completed
    ensures var st1 := st.(plans := ContentCurationResult(st.plans, planId, search).0);
      planId in st1.plans
      && CompleteWorkflowResult(st, planId, cfg, now, search, retrieve, ask, uuid, assessmentId, setId).1.assessment
         == Some(Report(Generator.GenerateResult(st1, AgentRequest(planId, st1.plans[planId], "chapter", 0, cfg, now),
                                                 retrieve, ask, uuid, assessmentId, setId).1))
  {
    CurationKeepsStatus(st.plans, planId, search);
  }

  /** `executeCompleteWorkflow`. */
  method ExecuteCompleteWorkflow(assessments: Assessments.AssessmentStore, sets: Questions.QuestionStore,
                                 plans: LessonPlanStore, planId: Id, cfg: AssessmentConfig, now: int,
                                 search: string -> Option<seq<Curation.Video>>,
                                 retrieve: Generator.TopicQuery -> Option<seq<Chunk>>,
                                 ask: (Generator.QuizContext, seq<string>) -> Option<seq<Generator.DraftQuestion>>,
                                 uuid: nat -> string, assessmentId: Id, setId: Id)
    returns (report: WorkflowReport)
    modifies assessments, sets, plans
    ensures (Generator.Stores(assessments.docs, sets.docs, plans.plans), report)
      == CompleteWorkflowResult(Generator.Stores(old(assessments.docs), old(sets.docs), old(plans.plans)),
                                planId, cfg, now, search, retrieve, ask, uuid, assessmentId, setId)
  {
    if planId !in plans.plans {
      return WorkflowError(PlanNotFound);
    }
    var plan := plans.plans[planId];
    var curation := TriggerContentCuration(plans, planId, search);
    if plan.status == Completed {
      var generated := TriggerAssessmentGeneration(assessments, sets, plans, planId, cfg, now,
                                                   retrieve, ask, uuid, assessmentId, setId);
      return WorkflowDone(plan, curation, Some(generated));
    }
    return WorkflowDone(plan, curation, None);
  }
}
