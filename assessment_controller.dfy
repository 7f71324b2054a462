/** The assessment endpoints: the checks in front of the generator agent and
  * the manual status override. */
module AssessmentController {
  import opened Core
  import opened Retrieval
  import opened Assessments
  import LessonPlans
  import Questions
  import opened Generator

  const MissingFields := "Missing required fields"
  const InvalidStatus := "Invalid status. Must be one of: Draft, Scheduled, Active, Closed, Graded"
  const AssessmentNotFound := "Assessment not found"

  /** The guards of `generateAssessment`, in order; `None` lets the request through. */
  function RequestCheck(req: GenRequest): (r: Option<string>)
    ensures r.None? <==>
      req.lessonPlanId.Some? && req.assessmentType != "" && req.classId.Some? && req.gradeId.Some?
      && req.subjectId.Some? && (req.assessmentType == "session" ==> req.sessionNumber != 0)
    ensures r.Some? ==> r.value in {MissingFields, SessionNumberRequired}
  {
    if req.lessonPlanId.None? || req.assessmentType == "" || req.classId.None? || req.gradeId.None?
       || req.subjectId.None?
    then Some(MissingFields)
    else if req.assessmentType == "session" && req.sessionNumber == 0 then Some(SessionNumberRequired)
    else None
  }

  /** The response and the collections after `generateAssessment`. */
  function GenerateResponse(st: Stores, req: GenRequest,
                            retrieve: TopicQuery -> Option<seq<Chunk>>,
                            ask: (QuizContext, seq<string>) -> Option<seq<DraftQuestion>>,
                            uuid: nat -> string, assessmentId: Id, setId: Id): (Stores, Response<GenOutcome>)
  {
    var check := RequestCheck(req);
    if check.Some? then (st, Failure(400, check.value))
    else
      var r := GenerateResult(st, req, retrieve, ask, uuid, assessmentId, setId);
      if r.1.GenFailed? then (r.0, Failure(500, r.1.error)) else (r.0, Success(201, r.1))
  }

  /** `generateAssessment`. */
  method GenerateAssessment(assessments: AssessmentStore, sets: Questions.QuestionStore,
                            plans: LessonPlans.LessonPlanStore, req: GenRequest,
                            retrieve: TopicQuery -> Option<seq<Chunk>>,
                            ask: (QuizContext, seq<string>) -> Option<seq<DraftQuestion>>,
                            uuid: nat -> string, assessmentId: Id, setId: Id)
    returns (response: Response<GenOutcome>)
    modifies assessments, sets, plans
    ensures (Stores(assessments.docs, sets.docs, plans.plans), response)
      == GenerateResponse(Stores(old(assessments.docs), old(sets.docs), old(plans.plans)), req, retrieve, ask,
                          uuid, assessmentId, setId)
  {
    var check := RequestCheck(req);
    if check.Some? {
      return Failure(400, check.value);
    }
    var outcome := Generate(assessments, sets, plans, req, retrieve, ask, uuid, assessmentId, setId);
    if outcome.GenFailed? {
      return Failure(500, outcome.error);
    }
    return Success(201, outcome);
  }

  /** A refused request touches no collection; an agent failure is passed
    * on verbatim with status 500. */
  lemma GenerateResponseCodes(st: Stores, req: GenRequest,
                              retrieve: TopicQuery -> Option<seq<Chunk>>,
                              ask: (QuizContext, seq<string>) -> Option<seq<DraftQuestion>>,
                              uuid: nat -> string, assessmentId: Id, setId: Id)
    ensures RequestCheck(req).Some? ==>
      GenerateResponse(st, req, retrieve, ask, uuid, assessmentId, setId) == (st, Failure(400, RequestCheck(req).value))
    ensures RequestCheck(req).None? && GenerateResult(st, req, retrieve, ask, uuid, assessmentId, setId).1.GenFailed? ==>
      GenerateResponse(st, req, retrieve, ask, uuid, assessmentId, setId).1
        == Failure(500, GenerateResult(st, req, retrieve, ask, uuid, assessmentId, setId).1.error)
    ensures GenerateResponse(st, req, retrieve, ask, uuid, assessmentId, setId).1.Success? ==>
      GenerateResponse(st, req, retrieve, ask, uuid, assessmentId, setId).1.code == 201
      && GenerateResponse(st, req, retrieve, ask, uuid, assessmentId, setId).1.body.Generated?
  {
  }

  /** The collection and response of `updateStatus`: any of the five statuses
    * from any current one, only the status of the first record with the id
    * changing. */
  function StatusUpdate(docs: seq<Assessment>, id: Id, status: string): (seq<Assessment>, Response<Assessment>)
  {
    var s := ParseStatus(status);
    if s.None? then (docs, Failure(400, InvalidStatus))
    else
      match IndexOf(docs, id)
      case None => (docs, Failure(404, AssessmentNotFound))
      case Some(i) =>
        var a := docs[i].(status := s.value);
        (docs[i := a], Success(200, a))
  }

  /** `updateStatus`. */
  method UpdateStatus(store: AssessmentStore, id: Id, status: string) returns (response: Response<Assessment>)
    modifies store
    ensures (store.docs, response) == StatusUpdate(old(store.docs), id, status)
  {
    var s := ParseStatus(status);
    if s.None? {
      return Failure(400, InvalidStatus);
    }
    var i := IndexOf(store.docs, id);
    if i.None? {
      return Failure(404, AssessmentNotFound);
    }
    var a := store.docs[i.value].(status := s.value);
    store.docs := store.docs[i.value := a];
    return Success(200, a);
  }

  /** An unknown status or id changes nothing. A known status is set on the
    * record whatever its current status, even against the scheduler's
    * direction, and every other field and record stays as it was. */
  lemma StatusUpdateEffect(docs: seq<Assessment>, id: Id, status: string)
    ensures status !in {"Draft", "Scheduled", "Active", "Closed", "Graded"} ==>
      StatusUpdate(docs, id, status) == (docs, Failure(400, InvalidStatus))
    ensures (forall k :: 0 <= k < |docs| ==> docs[k].id != id) ==> StatusUpdate(docs, id, status).0 == docs
    ensures |StatusUpdate(docs, id, status).0| == |docs|
    ensures forall k :: 0 <= k < |docs| ==>
      StatusUpdate(docs, id, status).0[k].(status := docs[k].status) == docs[k]
    ensures forall k :: 0 <= k < |docs| && docs[k].id != id ==> StatusUpdate(docs, id, status).0[k] == docs[k]
    ensures StatusUpdate(docs, id, status).1.Success? ==>
      StatusName(StatusUpdate(docs, id, status).1.body.status) == status
  {
  }

  /** In particular a Graded assessment can be put back to Draft. */
  lemma GradedBackToDraft(docs: seq<Assessment>, i: nat)
    requires i < |docs| && docs[i].status == Graded && UniqueIds(docs)
    ensures StatusUpdate(docs, docs[i].id, "Draft").0[i] == docs[i].(status := Draft)
  {
    assert IndexOf(docs, docs[i].id) == Some(i);
  }
}
