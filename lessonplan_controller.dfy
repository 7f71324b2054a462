/** The lesson-plan endpoints: the checks in front of the planning agent,
  * the status override and deletion, over the lesson-plan collection. */
module LessonPlanController {
  import opened Core
  import opened Retrieval
  import opened LessonPlans
  import opened Planning

  const MissingFields :=
    "Missing required fields: teacher_id, subject_id, grade_id, chapter_id, chapter_number, sessions"
  const InvalidStatus := "Invalid status. Must be one of: Draft, Active, Completed, Archived"
  const PlanNotFound := "Lesson plan not found"

  /** The guards of `generateLessonPlan`, in order; `None` lets the request through. */
  function RequestCheck(input: PlanInput): (r: Option<string>)
    ensures r.None? <==>
      input.teacherId.Some? && input.subjectId.Some? && input.gradeId.Some? && input.chapterId.Some?
      && input.chapterNumber != 0 && 1 <= input.sessions <= 20
    ensures r.Some? ==> r.value in {MissingFields, SessionsRange}
  {
    if input.teacherId.None? || input.subjectId.None? || input.gradeId.None? || input.chapterId.None?
       || input.chapterNumber == 0 || input.sessions == 0
    then Some(MissingFields)
    else if input.sessions < 1 || input.sessions > 20 then Some(SessionsRange)
    else None
  }

  /** The response and the collection after `generateLessonPlan`. */
  function GenerateResponse(plans: map<Id, LessonPlan>, input: PlanInput, catalog: Catalog,
                            retrieve: PlanQuery -> Option<seq<Chunk>>,
                            planner: (PlanContext, PlanInput) -> Option<PlanDraft>,
                            newId: Id): (map<Id, LessonPlan>, Response<PlanOutcome>)
  {
    var check := RequestCheck(input);
    if check.Some? then (plans, Failure(400, check.value))
    else
      var (after, outcome) := GenerateResult(plans, input, catalog, retrieve, planner, newId);
      if outcome.PlanFailed? then (after, Failure(500, outcome.error))
      else (after, Success(201, outcome))
  }

  /** `generateLessonPlan`. */
  method GenerateLessonPlan(store: LessonPlanStore, input: PlanInput, catalog: Catalog,
                            retrieve: PlanQuery -> Option<seq<Chunk>>,
                            planner: (PlanContext, PlanInput) -> Option<PlanDraft>,
                            newId: Id) returns (response: Response<PlanOutcome>)
    modifies store
    ensures (store.plans, response) == GenerateResponse(old(store.plans), input, catalog, retrieve, planner, newId)
  {
    var check := RequestCheck(input);
    if check.Some? {
      return Failure(400, check.value);
    }
    var outcome := Generate(store, input, catalog, retrieve, planner, newId);
    if outcome.PlanFailed? {
      return Failure(500, outcome.error);
    }
    return Success(201, outcome);
  }

  /** A request that passes the controller's guards always has all three ids,
    * so a successful generation through the endpoint is always saved, and
    * the agent's own validation finds nothing to report about the session count. */
  lemma EndpointAlwaysSaves(plans: map<Id, LessonPlan>, input: PlanInput, catalog: Catalog,
                            retrieve: PlanQuery -> Option<seq<Chunk>>,
                            planner: (PlanContext, PlanInput) -> Option<PlanDraft>, newId: Id)
    requires GenerateResponse(plans, input, catalog, retrieve, planner, newId).1.Success?
    ensures GenerateResponse(plans, input, catalog, retrieve, planner, newId).1.body.PlanSaved?
    ensures GenerateResponse(plans, input, catalog, retrieve, planner, newId).0.Keys == plans.Keys + {newId}
  {
    var r := GenerateResult(plans, input, catalog, retrieve, planner, newId);
    assert GenerateResponse(plans, input, catalog, retrieve, planner, newId) == (r.0, Success(201, r.1));
    SavedWithIds(plans, input, catalog, retrieve, planner, newId);
  }

  /** A request the guards refuse reaches neither the agent nor the collection. */
  lemma RefusedRequest(plans: map<Id, LessonPlan>, input: PlanInput, catalog: Catalog,
                       retrieve: PlanQuery -> Option<seq<Chunk>>,
                       planner: (PlanContext, PlanInput) -> Option<PlanDraft>, newId: Id)
    requires input.chapterId.None? || input.chapterNumber == 0 || input.sessions > 20
    ensures GenerateResponse(plans, input, catalog, retrieve, planner, newId).0 == plans
    ensures input.chapterId.None? || input.chapterNumber == 0 ==>
      GenerateResponse(plans, input, catalog, retrieve, planner, newId).1 == Failure(400, MissingFields)
    ensures (input.teacherId.Some? && input.subjectId.Some? && input.gradeId.Some?
             && input.chapterId.Some? && input.chapterNumber != 0) ==>
      GenerateResponse(plans, input, catalog, retrieve, planner, newId).1 == Failure(400, SessionsRange)
  {
  }

  /** The collection and response of `updateStatus`: any of the four
    * statuses from any current one, only the status field changing. */
  function StatusUpdate(plans: map<Id, LessonPlan>, id: Id, status: string)
    : (map<Id, LessonPlan>, Response<LessonPlan>)
  {
    var s := LessonPlans.ParseStatus(status);
    if s.None? then (plans, Failure(400, InvalidStatus))
    else if id !in plans then (plans, Failure(404, PlanNotFound))
    else
      var p := plans[id].(status := s.value);
      (plans[id := p], Success(200, p))
  }

  /** `updateStatus`. */
  method UpdateStatus(store: LessonPlanStore, id: Id, status: string) returns (response: Response<LessonPlan>)
    modifies store
    ensures (store.plans, response) == StatusUpdate(old(store.plans), id, status)
  {
    var s := LessonPlans.ParseStatus(status);
    if s.None? {
      return Failure(400, InvalidStatus);
    }
    if id !in store.plans {
      return Failure(404, PlanNotFound);
    }
    var p := store.plans[id].(status := s.value);
    store.plans := store.plans[id := p];
    return Success(200, p);
  }

  /** A status outside the four names changes nothing; a known one sets
    * exactly the status of the named plan, whatever it was before. */
  lemma StatusUpdateEffect(plans: map<Id, LessonPlan>, id: Id, status: string)
    ensures status !in {"Draft", "Active", "Completed", "Archived"} ==>
      StatusUpdate(plans, id, status) == (plans, Failure(400, InvalidStatus))
    ensures status in {"Draft", "Active", "Completed", "Archived"} && id in plans ==>
      var (after, r) := StatusUpdate(plans, id, status);
      r.Success? && after.Keys == plans.Keys && StatusName(after[id].status) == status
      && after[id].(status := plans[id].status) == plans[id]
      && (forall k :: k in plans && k != id ==> after[k] == plans[k])
    ensures id !in plans ==> StatusUpdate(plans, id, status).0 == plans
  {
  }

  /** The collection and response of `deleteLessonPlan`. */
  function Deletion(plans: map<Id, LessonPlan>, id: Id): (map<Id, LessonPlan>, Response<LessonPlan>)
  {
    if id !in plans then (plans, Failure(404, PlanNotFound))
    else (plans - {id}, Success(200, plans[id]))
  }

  /** `deleteLessonPlan`. */
  method DeleteLessonPlan(store: LessonPlanStore, id: Id) returns (response: Response<LessonPlan>)
    modifies store
    ensures (store.plans, response) == Deletion(old(store.plans), id)
  {
    if id !in store.plans {
      return Failure(404, PlanNotFound);
    }
    response := Success(200, store.plans[id]);
    store.plans := store.plans - {id};
  }

  /** Deleting removes exactly the named plan; a second delete of the same
    * id finds nothing. */
  lemma DeletionEffect(plans: map<Id, LessonPlan>, id: Id)
    ensures Deletion(plans, id).0.Keys == plans.Keys - {id}
    ensures forall k :: k in Deletion(plans, id).0 ==> Deletion(plans, id).0[k] == plans[k]
    ensures Deletion(plans, id).1.Success? <==> id in plans
    ensures Deletion(Deletion(plans, id).0, id).1 == Failure(404, PlanNotFound)
  {
  }
}
