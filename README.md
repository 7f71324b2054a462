# TeachMate AI back end: a verified model of its core logic

This project models, in Dafny, the part of the TeachMate AI school back end that holds real logic.
That logic sits under its Express handlers, Mongoose schemas and calls to language-model, vector-search,
video and voice services:

- **Submissions.** Intake of a student's answers (`submitAssessment`) and the AI grading lifecycle
  `Submitted → Grading → Graded`, with its three-band mark rule, totals, percentage and roll-back, and the
  batch runner.
- **Assessments.** The assessment schema, the scheduler's two time-driven sweeps (`Draft → Active` at
  `opens_on`, `Active → Closed` at `due_date`) and the manual status override.
- **Questions and generation.** The question-set schema's total-marks hook, and the assessment generator's
  topic selection, context buckets, question numbering and lesson-plan linking.
- **Lesson plans.** The lesson-plan schema and controller, the planning agent's input validation, defaults,
  context buckets and saved-plan cleaning, and the agent workflow's topic de-duplication and completion gates.
- **Content curation.** Duration parsing, the video relevance score, top-3 selection, simulation matching and
  distributing resources to sessions.
- **Assistants.** The student, parent and voice assistants' pure helpers: chapter extraction and
  subject-based remapping, subject normalisation, concern detection, weak-topic and trend analytics, reply
  formatting and tool-argument injection.
- **Chat.** The chat controller's message window, append rules, attention flag, summaries and closing.
- **Parents.** The Parents and Family schemas (name pairing, phone and password rules) and the parents
  service's registration and update.

Every database collection is an in-memory `seq` or `map`. Where the source changes records in place, it is
a class field. Every call to an outside service becomes a parameter: the model's grading reply, retrieved
chunks, video search results, agent replies, the password hasher, the clock. Loops of the source are
methods with loop invariants, each proved equal to a specification function. The properties the source
promises are lemmas about those functions.

Shared modules:
- `Core`: `Option`, `Result`, HTTP-style `Response`, sums and sequence helpers.
- `Text`: ASCII character classes, trimming, case mapping, splitting and joining, number formatting.
- `Sorting`: a stable insertion sort by a real key, standing for the stable array sort of JavaScript.

## Model

| member | source | states |
|---|---|---|
| Submissions.NewAnswer | src/models/Submission.model.js:20-35 | a new answer has 0 marks, is not correct and has no feedback, with the given question id and maximum |
| Submissions.ValidationErrors | src/models/Submission.model.js:3-59 | no messages exactly when there is at least one answer and every answer has its required fields |
| Submissions.NewSubmission | src/models/Submission.model.js:60-92 | a new record is Submitted with 0 obtained, 0 percentage, no grading time and no notes |
| Submissions.IndexOf | src/models/Submission.model.js:38-97 | the index found holds the id; none found means no record has it |
| SubmissionIntake.QuestionIndexHas | src/controllers/submission.controller.js:65-68 | the question map holds exactly the ids of the question set |
| SubmissionIntake.QuestionIndexLastWins | src/controllers/submission.controller.js:65-68 | an id repeated in the set maps to the last question carrying it |
| SubmissionIntake.QuestionIndexKeys | src/controllers/submission.controller.js:65-68 | every question in the map sits under its own id |
| SubmissionIntake.Process | src/controllers/submission.controller.js:74-95 | an error exactly when some answer names a question outside the map; otherwise one stored answer per input answer, in input order |
| SubmissionIntake.BuildIndex | src/controllers/submission.controller.js:65-68 | the loop builds the question map, each question under its own id |
| SubmissionIntake.ProcessAnswers | src/controllers/submission.controller.js:71-95 | the loop stops at the first unknown question; otherwise its total is the sum of the answered questions' marks, duplicates counted |
| SubmissionIntake.Submit | src/controllers/submission.controller.js:10-125 | missing fields give 400; a success is 201 for an Active assessment not yet submitted by the student, and the record is Submitted, has nothing obtained, totals the answered questions' marks and keeps the answers in input order with 0 marks, no correct answer and no feedback |
| SubmissionIntake.SubmitAssessment | src/controllers/submission.controller.js:10-125 | the handler returns `Submit`'s reply and appends the record only on success |
| SubmissionIntake.SecondSubmissionRejected | src/controllers/submission.controller.js:43-54 | once a submission is stored, the same request is refused with 400 |
| SubmissionIntake.UnknownQuestionRejected | src/controllers/submission.controller.js:74-81 | an answer naming a question outside the set makes the whole request fail |
| Grading.AwardedMarks | src/agents/submissionGradingAgent.js:85-92 | the award is 0, half or all of the maximum, and lies between 0 and the maximum |
| Grading.AwardedBands | src/agents/submissionGradingAgent.js:85-92 | full marks iff accuracy ≥ 90, half iff 50 ≤ accuracy < 90, nothing iff below 50 or missing, so both boundaries fall in the higher band |
| Grading.AwardedMonotone | src/agents/submissionGradingAgent.js:85-92 | a more accurate answer never earns fewer marks |
| Grading.ExpectedAnswer | src/agents/submissionGradingAgent.js:173 | the expected answer sent to the model is never empty |
| Grading.Percentage | src/agents/submissionGradingAgent.js:199-201 | with 0 ≤ obtained ≤ total the percentage lies in [0, 100] |
| Grading.GradeSubmission | src/agents/submissionGradingAgent.js:106-235 | the method leaves the collection and returns the outcome that `GradeResult` specifies |
| Grading.GradeAnswers | src/agents/submissionGradingAgent.js:146-195 | the answer loop yields the graded answers, the sum of the marks gained and one note per answer the specification gives |
| Grading.GradeFrame | src/agents/submissionGradingAgent.js:106-235 | grading changes at most the record with the id, and any outcome but success leaves the collection as it was |
| Grading.NotSubmittedSkipped | src/agents/submissionGradingAgent.js:119-122 | a record that is not Submitted is skipped with "Already <status>" and nothing changes |
| Grading.GradeTransitions | src/agents/submissionGradingAgent.js:106-235 | every record keeps its status or goes from Submitted to Graded with the grading time; a success graded a Submitted record; nothing is left in Grading |
| Grading.GradedAnswersShape | src/agents/submissionGradingAgent.js:150-195 | unmatched answers and answers the model failed on are unchanged; a graded answer gets the banded marks and the model's feedback, and is correct iff it earned its full marks |
| Grading.ObtainedBounded | src/agents/submissionGradingAgent.js:146-198 | the marks obtained lie between 0 and the sum of the answers' maximum marks |
| Grading.PercentageBounded | src/agents/submissionGradingAgent.js:197-201 | for a record whose total is the sum of its maxima, as intake makes it, obtained ≤ total and the percentage lies in [0, 100] |
| Grading.Pending | src/agents/submissionGradingAgent.js:245 | the pending records are exactly the Submitted ones |
| Grading.RunAll | src/agents/submissionGradingAgent.js:264-270 | grading the queue keeps the collection's size and gives one result per queued record |
| Grading.SuccessesAndFailures | src/agents/submissionGradingAgent.js:272-273 | every result counts as either graded or failed, skipped ones as failed |
| Grading.GradeAllUngraded | src/agents/submissionGradingAgent.js:240-296 | the batch method leaves the collection and returns the outcome that `BatchResult` specifies |
| Grading.BatchCounts | src/agents/submissionGradingAgent.js:250-287 | "no ungraded submissions" iff none is Submitted; otherwise one result per Submitted record, and graded + failed = total |
| Grading.QueueOrdered | src/agents/submissionGradingAgent.js:245-248 | the queue is exactly the Submitted records, oldest first |
| Grading.RunAllNeverLeavesGrading | src/agents/submissionGradingAgent.js:218-270 | a batch that starts with no record in Grading leaves none there |
| Assessments.ParseStatus | src/models/Assessment.model.js:29-33 | a status is read only from one of the five enumerated names, and reads back to that name |
| Assessments.ParseStatusName | src/models/Assessment.model.js:29-33 | every status is read back from its own name |
| Assessments.ValidationErrors | src/models/Assessment.model.js:3-84 | a record without messages has every required field, a due date strictly after its opening date, a topic and a non-blank title; a missing lesson plan id is always reported |
| Assessments.ValidExactly | src/models/Assessment.model.js:3-84 | a record passes validation exactly when every required field is present, it has a topic and a non-blank title, and its due date is after its opening date |
| Assessments.NewAssessment | src/models/Assessment.model.js:29-83 | a new record is Draft with 0 total marks and is active |
| Assessments.IndexOf | src/models/Assessment.model.js:3-96 | the index found holds the id; none found means no record has it |
| Scheduler.Picked | src/services/assessmentScheduler.service.js:45-49 | a sweep picks exactly the positions of the records it selects, in increasing order |
| Scheduler.PickedNothing | src/services/assessmentScheduler.service.js:45-49 | a sweep that selects no record picks no position |
| Scheduler.Saved | src/services/assessmentScheduler.service.js:61-71 | the saves that take effect are a prefix of the picked records |
| Scheduler.RunSweep | src/services/assessmentScheduler.service.js:38-102 | the sweep loop leaves the collection that `SweepResult` specifies |
| Scheduler.TriggerManualCheck | src/services/assessmentScheduler.service.js:107-112 | a manual check is exactly one opening sweep followed by one closing sweep |
| Scheduler.SweepFrame | src/services/assessmentScheduler.service.js:45-67 | a sweep changes only selected records, and only their status, to the sweep's target |
| Scheduler.SweepComplete | src/services/assessmentScheduler.service.js:58-67 | without a failing save every selected record reaches the target status |
| Scheduler.SweepStopsAtFailure | src/services/assessmentScheduler.service.js:61-71 | a failing save leaves the records before it transitioned and itself and later ones unchanged |
| Scheduler.TickMonotone | src/services/assessmentScheduler.service.js:16-19 | a tick changes only status and only Draft→Active, Draft→Closed or Active→Closed |
| Scheduler.TickSettles | src/services/assessmentScheduler.service.js:16-19 | after a tick no active-flagged record is still Draft past its opening date or Active past its due date |
| Scheduler.SweepNothingSelected | src/services/assessmentScheduler.service.js:51-67 | a sweep that selects nothing changes nothing |
| Scheduler.TickIdempotent | src/services/assessmentScheduler.service.js:16-19 | a second tick at the same time changes nothing |
| Scheduler.DraftPastDueClosesInOneTick | src/services/assessmentScheduler.service.js:16-19 | a Draft whose opening and due dates have both passed is Closed by a single tick |
| AssessmentController.RequestCheck | src/controllers/assessment.controller.js:24-37 | the request passes iff it has a lesson plan, type, class, grade and subject and, for a session assessment, a session number |
| AssessmentController.GenerateAssessment | src/controllers/assessment.controller.js:10-69 | the handler leaves the collections and replies as `GenerateResponse` specifies |
| AssessmentController.GenerateResponseCodes | src/controllers/assessment.controller.js:24-59 | a refused request replies 400 and touches nothing; an agent failure replies 500 with its error verbatim; success replies 201 with the assessment and questions |
| AssessmentController.UpdateStatus | src/controllers/assessment.controller.js:180-220 | the handler leaves the collection and replies as `StatusUpdate` specifies |
| AssessmentController.StatusUpdateEffect | src/controllers/assessment.controller.js:185-204 | an unknown status gives 400 and an unknown id changes nothing; a known status is set whatever the current one, and no other field or record changes |
| AssessmentController.GradedBackToDraft | src/controllers/assessment.controller.js:185-197 | a Graded assessment can be put back to Draft |
| Questions.MarksOrZero | src/models/AssessmentQuestions.model.js:98 | a question's mark counts as itself, or as 0 when missing |
| Questions.MarksList | src/models/AssessmentQuestions.model.js:98 | one counted mark per question, in order |
| Questions.ValidationErrors | src/models/AssessmentQuestions.model.js:4-89 | no messages iff the set names its assessment, class, subject and grade and has at least one question, each of them valid |
| Questions.Save | src/models/AssessmentQuestions.model.js:49-101 | a save succeeds exactly when validation finds nothing |
| Questions.SavedTotal | src/models/AssessmentQuestions.model.js:95-101 | a saved set's total is the sum of its question marks, whatever total was supplied; it is never negative and nothing else changes |
| Questions.PreSaveIdempotent | src/models/AssessmentQuestions.model.js:95-101 | running the pre-save hook twice is running it once |
| Questions.EmptySetRejected | src/models/AssessmentQuestions.model.js:56-65 | a set without questions is never saved |
| Questions.SetFor | src/controllers/submission.controller.js:57 | the set found belongs to the assessment; none found means no set does |
| LessonPlans.ParseStatus | src/models/LessonPlan.model.js:115-119 | a status is read only from one of the four enumerated names, and reads back to that name |
| LessonPlans.ParseStatusName | src/models/LessonPlan.model.js:115-119 | every status is read back from its own name |
| LessonPlans.Stored | src/models/LessonPlan.model.js:3-33 | the session sub-schema keeps every declared field and drops a status, which it does not declare |
| LessonPlans.ValidationErrors | src/models/LessonPlan.model.js:35-124 | no messages iff every required field is present, there is at least one session and the session details match the session count |
| LessonPlans.ValidSessions | src/models/LessonPlan.model.js:35-124 | a valid plan has at least one session and exactly as many session details as sessions |
| LessonPlans.SessionIndex | src/agents/assessmentGeneratorAgent.js:371 | the index found is a session with that number; none found means no session has it |
| LessonPlans.AllTopicsMember | src/agents/assessmentGeneratorAgent.js:380-386 | a topic is gathered iff some session covers it |
| LessonPlans.AllTopicsAppend | src/agents/assessmentGeneratorAgent.js:380-386 | a further session adds its topics at the end, duplicates kept |
| LessonPlanController.RequestCheck | src/controllers/lessonPlan.controller.js:20-34 | the request passes iff all six fields are truthy and 1 ≤ sessions ≤ 20 |
| LessonPlanController.GenerateLessonPlan | src/controllers/lessonPlan.controller.js:9-63 | the handler leaves the collection and replies as `GenerateResponse` specifies |
| LessonPlanController.EndpointAlwaysSaves | src/controllers/lessonPlan.controller.js:20-53 | a success through the endpoint always saves the plan, because the guards ensure the three ids the agent needs |
| LessonPlanController.RefusedRequest | src/controllers/lessonPlan.controller.js:20-34 | a refused request replies 400 with the guard's message and reaches neither the agent nor the collection |
| LessonPlanController.UpdateStatus | src/controllers/lessonPlan.controller.js:142-182 | the handler leaves the collection and replies as `StatusUpdate` specifies |
| LessonPlanController.StatusUpdateEffect | src/controllers/lessonPlan.controller.js:147-166 | an unknown status gives 400 and an unknown id changes nothing; a known status is set on the plan whatever it was, and nothing else changes |
| LessonPlanController.DeleteLessonPlan | src/controllers/lessonPlan.controller.js:188-214 | the handler leaves the collection and replies as `Deletion` specifies |
| LessonPlanController.DeletionEffect | src/controllers/lessonPlan.controller.js:192-199 | deleting removes exactly the named plan; a second delete of the same id gives 404 |
| Retrieval.Kind | src/agents/lessonPlanningAgent.js:124 | a chunk's kind is its content type when it has one and is never empty |
| Retrieval.TopicOf | src/agents/lessonPlanningAgent.js:137 | the context topic is the first chunk's topic when there is one and is never empty |
| Planning.ValidateInput | src/agents/lessonPlanningAgent.js:352-383 | a request is accepted exactly when grade, subject and chapter are each given in some form, the session count is 1 to 20 and a given session length is 30 to 120 minutes; there is one message per broken rule, in the same order, each one of the fixed messages |
| Planning.Problems | src/agents/lessonPlanningAgent.js:356-380 | the request breaks no rule exactly when grade, subject and chapter are each given in some form, the session count is 1 to 20 and a given session length is 30 to 120 minutes |
| Planning.ValidationOrder | src/agents/lessonPlanningAgent.js:356-380 | the broken rules are reported in the fixed checking order, each at most once |
| Planning.FalsySessionsOnlyMissing | src/agents/lessonPlanningAgent.js:368-375 | a session count of 0 is reported as missing and never as out of range |
| Planning.FailureMessage | src/agents/lessonPlanningAgent.js:412-415 | the failure text starts with "Validation failed: " |
| Planning.Enrich | src/agents/lessonPlanningAgent.js:428-434 | after enrichment the chapter, subject, grade and session length are all present; a provided value is kept; nothing else in the request changes |
| Planning.EnrichFallbacks | src/agents/lessonPlanningAgent.js:429-434 | with nothing provided the fixed fallbacks apply: the topic or "Chapter", "General", grade "8", 45 minutes |
| Planning.ActivitiesBucket | src/agents/lessonPlanningAgent.js:124-131 | only the kind "activitie" reaches the activities bucket; an "activity" chunk counts as an explanation |
| Planning.BucketsPartition | src/agents/lessonPlanningAgent.js:123-132 | every chunk lands in exactly one bucket |
| Planning.NoActivities | src/agents/lessonPlanningAgent.js:123-132 | without an "activitie" chunk the activities bucket is empty |
| Planning.PrepareContext | src/agents/lessonPlanningAgent.js:113-146 | the loop builds the context the bucket specification describes: chunk count, topic and the capped, joined buckets |
| Planning.CurriculumType | src/agents/lessonPlanningAgent.js:270-278 | Science, Mathematics and English get their CBSE curriculum; every other subject gets "CBSE General" |
| Planning.CleanSession | src/agents/lessonPlanningAgent.js:286-293 | a saved session keeps its number, objectives, topics and flow, with no resources, assessments or status |
| Planning.CleanSessions | src/agents/lessonPlanningAgent.js:286-293 | every generated session is cleaned, in order, and none is added or lost |
| Planning.Generate | src/agents/lessonPlanningAgent.js:404-494 | the method changes the collection and answers as the generation specification says |
| Planning.RejectedRequest | src/agents/lessonPlanningAgent.js:411-415 | a rejected request fails with every problem joined after "Validation failed: " and changes nothing |
| Planning.SavedPlanShape | src/agents/lessonPlanningAgent.js:283-316 | a saved plan is a valid Draft stored under the new id, with the requested ids and session count, chapter number 1 unless given, no videos, no assessments and no session resources; nothing else changes |
| Planning.SavedOnlyWithIds | src/agents/lessonPlanningAgent.js:466-485 | without teacher, subject and grade ids nothing is saved and the collection is unchanged |
| Planning.PreviewInput | src/agents/lessonPlanningAgent.js:326-334 | the preview request is the request with exactly its three ids removed |
| Planning.PreviewNeverSaves | src/agents/lessonPlanningAgent.js:326-347 | a preview never saves and leaves the collection unchanged |
| Generator.SelectTopics | src/agents/assessmentGeneratorAgent.js:370-386 | a session assessment needs a session number and takes the topics of the first session carrying it, failing when none does; any other type takes every session's topics in order; the title names the session or the chapter |
| Generator.ChapterTopicsCoverSessions | src/agents/assessmentGeneratorAgent.js:380-386 | a chapter assessment covers a topic exactly when some session covers it |
| Generator.ChapterTopics | src/agents/assessmentGeneratorAgent.js:382-384 | the loop gathers every session's topics in order, repeats kept |
| Generator.ExcerptsPartition | src/agents/assessmentGeneratorAgent.js:83-103 | every chunk lands in exactly one of the four buckets |
| Generator.ExcerptsMember | src/agents/assessmentGeneratorAgent.js:84-102 | a chunk's text and section land in the bucket its kind selects, unknown kinds among the explanations |
| Generator.QuizContextOf | src/agents/assessmentGeneratorAgent.js:105-111 | each bucket of the context is a prefix of at most ten of its excerpts |
| Generator.PrepareContext | src/agents/assessmentGeneratorAgent.js:76-112 | the loop builds the context the bucket specification describes |
| Generator.Numbered | src/agents/assessmentGeneratorAgent.js:285-294 | the saved questions keep the generator's order and content, are numbered from 1, each get the id the uuid source gives its position, no answers when none are given and the schema's default difficulty when none is given |
| Generator.NumberedOrders | src/agents/assessmentGeneratorAgent.js:293 | the numbers run from 1 to the question count, strictly increasing |
| Generator.NumberedDistinctIds | src/agents/assessmentGeneratorAgent.js:285-294 | when the uuid source never repeats an id, as `uuidv4()` is meant not to, no two saved questions share an id |
| Generator.BuildAssessmentAsWritten | src/agents/assessmentGeneratorAgent.js:265-280 | the record as the source builds it carries no lesson-plan id |
| Generator.AsWrittenRejected | src/models/Assessment.model.js:10-14 | that record always fails the schema with "Lesson Plan ID is required" |
| Generator.BuildAssessment | src/agents/assessmentGeneratorAgent.js:265-280 | the corrected record is the same record with the request's lesson-plan id: a Draft worth 20 marks, 30 minutes unless given, with the selected topics and title |
| Generator.Linked | src/agents/assessmentGeneratorAgent.js:329-338 | a falsy session number appends the assessment to the chapter list; otherwise it is appended to the first session with that number only; nothing else in the plan changes |
| Generator.LinkedKeepsValid | src/agents/assessmentGeneratorAgent.js:329-340 | linking keeps a plan valid and never makes an invalid one valid |
| Generator.LinkMissingSession | src/agents/assessmentGeneratorAgent.js:331-334 | a session number no session carries leaves the plan unchanged |
| Generator.LinkResult | src/agents/assessmentGeneratorAgent.js:321-346 | linking succeeds exactly when the plan exists and still passes its schema on save, giving the linked plan; otherwise the single link error |
| Generator.LinkToLessonPlan | src/agents/assessmentGeneratorAgent.js:321-346 | the method answers as `LinkResult` says and stores the linked plan only on success |
| Generator.Prepare | src/agents/assessmentGeneratorAgent.js:355-415 | preparation succeeds only for an existing plan and the topics `SelectTopics` gives; a missing plan id or assessment type is the required-fields error |
| Generator.NoContentStops | src/agents/assessmentGeneratorAgent.js:404-406 | an empty retrieval stops generation before the model is asked |
| Generator.AsWrittenNeverGenerates | src/agents/assessmentGeneratorAgent.js:351-450 | with the record as written, generation always fails and stores nothing |
| Generator.SaveAndLinkShape | src/agents/assessmentGeneratorAgent.js:421-433 | a successful save-and-link appends the Assessment and its question set, whose total is the sum of its marks, and stores the linked plan |
| Generator.GeneratedShape | src/agents/assessmentGeneratorAgent.js:351-441 | a generated assessment belongs to the requested plan, is a Draft worth 20 marks, its questions are numbered from 1 with their total recomputed, and exactly the Assessment, the question set and the linked plan are stored |
| Generator.PartialSaveKept | src/agents/assessmentGeneratorAgent.js:282-315 | a failure after the Assessment save leaves that record stored |
| Generator.SaveAssessment | src/agents/assessmentGeneratorAgent.js:262-316 | an invalid Assessment stores nothing; a question set refused by its schema leaves the Assessment stored; otherwise both are stored |
| Generator.Generate | src/agents/assessmentGeneratorAgent.js:351-450 | the method changes the three collections and answers as the corrected generation does, whose record carries the lesson-plan id (see Findings) |
| Workflow.CurationTopicsExact | src/services/agentWorkflow.service.js:18-25 | the topics sent to curation are exactly the plan's session topics, without repeats |
| Workflow.UnsupportedSubjectReported | src/services/agentWorkflow.service.js:31-42 | a plan whose subject has no curation table is reported as unsupported and nothing is saved |
| Workflow.CurationKeepsStatus | src/services/agentWorkflow.service.js:9-55 | curation never changes the plan's status |
| Workflow.TriggerContentCuration | src/services/agentWorkflow.service.js:9-55 | the method changes the collection and reports as the curation specification says |
| Workflow.AgentRequest | src/services/agentWorkflow.service.js:81-90 | the generator request takes the plan's ids and the settings' class, with now, a week later and 30 minutes when the settings give no dates or duration |
| Workflow.ChapterGate | src/services/agentWorkflow.service.js:69-95 | a plan that is not Completed is refused with nothing written; a Completed plan succeeds exactly when the generator does |
| Workflow.TriggerAssessmentGeneration | src/services/agentWorkflow.service.js:60-108 | the method changes the collections and reports as the chapter-assessment specification says, over the corrected generation |
| Workflow.StoredSessionsRefused | src/services/agentWorkflow.service.js:122-132 | as written, every session of a stored plan is refused, because the status the gate reads is never stored on a session |
| Workflow.CompletedSessionGenerates | src/services/agentWorkflow.service.js:127-153 | with the status kept on the session, a Completed session gets exactly the generator's outcome and any other status is refused without a write |
| Workflow.SessionLookupFailures | src/services/agentWorkflow.service.js:117-125 | an unknown plan or session number is reported and nothing is written |
| Workflow.TriggerSessionAssessment | src/services/agentWorkflow.service.js:113-166 | the method changes the collections and reports as the session-assessment specification says, over the corrected generation |
| Workflow.WorkflowCarriesOn | src/services/agentWorkflow.service.js:171-218 | the workflow succeeds exactly when the plan exists, whatever curation reported; it attempts an assessment exactly when the plan is Completed, and otherwise only curation writes |
| Workflow.WorkflowGateConsistent | src/services/agentWorkflow.service.js:189-204 | the status read after curation agrees with the first one, so a Completed plan's assessment is the generator's outcome on the curated collections |
| Workflow.ExecuteCompleteWorkflow | src/services/agentWorkflow.service.js:171-219 | the method changes the collections and reports as the workflow specification says, over the corrected generation |
| Curation.ConfigFor | src/agents/contentCurationAgent.js:10-87 | only Science, Math and English have a configuration |
| Curation.PTFrom | src/agents/contentCurationAgent.js:94 | the duration pattern matches at the first "PT" of the text, and not at all when there is none |
| Curation.Part | src/agents/contentCurationAgent.js:94 | an optional numeral-and-unit group never moves the reading position backwards or past the end |
| Curation.NoDesignatorIsZero | src/agents/contentCurationAgent.js:94-95 | a text without "PT" lasts no time at all |
| Curation.PartPresent | src/agents/contentCurationAgent.js:94-99 | a numeral followed by its unit letter reads back as that number |
| Curation.PartAbsent | src/agents/contentCurationAgent.js:94-99 | a numeral followed by another unit letter is not read as this unit |
| Curation.RenderRoundTrip | src/agents/contentCurationAgent.js:93-102 | reading a rendered ISO 8601 duration gives back its hours, minutes and seconds, absent parts as 0 |
| Curation.Pad2 | src/agents/contentCurationAgent.js:204 | padding yields two characters from a shorter text and leaves a longer one alone |
| Curation.LabelParts | src/agents/contentCurationAgent.js:101-204 | the label's minutes are the floor of the length in minutes and its seconds are exactly the remaining fraction times sixty |
| Curation.TitleScore | src/agents/contentCurationAgent.js:111-118 | the title part is 0, 0.2 or 0.4 |
| Curation.ChannelScore | src/agents/contentCurationAgent.js:120-124 | the channel part is 0 or 0.3 |
| Curation.DurationScore | src/agents/contentCurationAgent.js:126-134 | the duration part is 0, 0.1 or 0.2 |
| Curation.EngagementScore | src/agents/contentCurationAgent.js:136-145 | the engagement part is 0, 0.05 or 0.1 |
| Curation.Cap | src/agents/contentCurationAgent.js:147 | the score is capped at 1.0 and a score within the cap is kept |
| Curation.Relevance | src/agents/contentCurationAgent.js:107-148 | a relevance never exceeds 1.0 |
| Curation.RelevanceIsSum | src/agents/contentCurationAgent.js:107-148 | the cap never bites: relevance is the plain sum of the four parts, and a title containing the topic scores at least 0.4 |
| Curation.EmptyWordAlwaysMatches | src/agents/contentCurationAgent.js:116-117 | a title with an empty word, from a doubled, leading or trailing space, earns at least 0.2 whatever the topic |
| Curation.CalculateRelevance | src/agents/contentCurationAgent.js:107-148 | the running score ends at the relevance the specification gives |
| Curation.Candidates | src/agents/contentCurationAgent.js:189-211 | the candidates are the English videos, formatted in order; a video without content details makes the whole search empty |
| Curation.SearchVideos | src/agents/contentCurationAgent.js:153-222 | a search returns at most three videos |
| Curation.TopThree | src/agents/contentCurationAgent.js:213-216 | three videos are kept, or all of them when there are fewer |
| Curation.TopThreeRanked | src/agents/contentCurationAgent.js:213-216 | the kept videos are ordered by relevance, all come from the candidates, and none left out beats the last one kept |
| Sorting.SortByStable | src/agents/contentCurationAgent.js:213-215 | sorting by a key keeps, among the elements of any one key, their input order |
| Sorting.SortByDescendingStable | src/agents/contentCurationAgent.js:213-215 | sorting by descending key keeps, among the elements of any one key, their input order, as JavaScript's stable sort does |
| Curation.SearchFailuresEmpty | src/agents/contentCurationAgent.js:197-220 | a failed request, or a video without content details, yields no videos |
| Curation.SimsForMember | src/agents/contentCurationAgent.js:235-246 | a topic's simulations are exactly the table entries whose key matches it |
| Curation.SimulationsMember | src/agents/contentCurationAgent.js:227-250 | a simulation is found exactly for each topic and key that match, carrying that topic |
| Curation.NoSimulationsForEnglish | src/agents/contentCurationAgent.js:85 | English never gets simulations |
| Curation.GetSimulations | src/agents/contentCurationAgent.js:227-250 | the nested loops collect the simulations the specification describes |
| Curation.VideoRefs | src/agents/contentCurationAgent.js:313-319 | every curated video becomes one recommended-video entry, in order |
| Curation.SimRefs | src/agents/contentCurationAgent.js:284-289 | every found simulation becomes one session simulation entry, in order |
| Curation.Distribute | src/agents/contentCurationAgent.js:255-299 | every session keeps its fields and gets the resources related to its topics; none is added or lost |
| Curation.DistributeExactly | src/agents/contentCurationAgent.js:256-273 | a session receives a video or simulation whose topic is related to one of its topics, and only such ones |
| Curation.SaveResources | src/agents/contentCurationAgent.js:304-342 | saving succeeds exactly when the plan exists and still validates, replacing its recommended videos and giving its sessions their resources |
| Curation.SaveToLessonPlan | src/agents/contentCurationAgent.js:304-342 | the method answers as `SaveResources` says and stores the plan only on success |
| Curation.AllVideos | src/agents/contentCurationAgent.js:368-378 | at most three videos come per topic |
| Curation.CollectVideos | src/agents/contentCurationAgent.js:364-378 | the loop appends each topic's search results in topic order |
| Curation.Curate | src/agents/contentCurationAgent.js:347-415 | the method changes the collection and answers as the curation specification says |
| Curation.CurateSummaryCounts | src/agents/contentCurationAgent.js:397-406 | the summary counts the returned videos and simulations and the requested topics; at most three videos come per topic |
| Curation.CurateGuards | src/agents/contentCurationAgent.js:351-393 | a request without plan id, subject or topics, or for an unsupported subject, fails and changes nothing; without the save flag nothing is written |
| Curation.CurateSaveFrame | src/agents/contentCurationAgent.js:387-393 | a save changes only the requested plan's recommended videos and session resources |
| VoiceFunction.OrElse | src/controllers/voiceFunction.controller.js:92 | a given, non-empty value wins; otherwise the fallback |
| VoiceFunction.GradeOf | src/controllers/voiceFunction.controller.js:91 | without a call or a grade the grade is 8; a grade with no digit at all is not a number |
| VoiceFunction.GradeLabel | src/controllers/voiceFunction.controller.js:91 | a label such as "Grade 10" gives its number |
| VoiceFunction.ContextFor | src/controllers/voiceFunction.controller.js:81-94 | the chapters named in the query, found by the same extraction as the student assistant's, win over the call's chapters; the subject falls back from the request to the call to "Science"; the grade is `GradeOf` |
| VoiceFunction.ContextWithoutCall | src/controllers/voiceFunction.controller.js:89-94 | without a call the search is for grade 8, in the requested subject or Science, over the chapters the query names |
| VoiceFunction.SearchReply | src/controllers/voiceFunction.controller.js:107-125 | no result gives the fixed fallback; otherwise the reply has at most 500 characters |
| VoiceFunction.SearchReplyOpensWithBest | src/controllers/voiceFunction.controller.js:115-124 | the reply opens with up to 500 characters of the best passage, and is that passage when it is alone and short |
| VoiceFunction.SearchAnswer | src/controllers/voiceFunction.controller.js:13-131 | without a query the chapter detection throws and the caller hears "I'm having trouble searching right now." |
| VoiceFunction.SearchAnswerFound | src/controllers/voiceFunction.controller.js:81-125 | with a query, the caller hears the fallback line when the search finds nothing, and otherwise an answer of at most 500 characters opening with the best passage |
| VoiceFunction.ReviewLine | src/controllers/voiceFunction.controller.js:171-173 | the closing line ends in "!" exactly when there is no weak topic |
| VoiceFunction.ProgressReply | src/controllers/voiceFunction.controller.js:137-162 | without a call or a student the caller is asked to start a call |
| VoiceFunction.ProgressReplyNoHistory | src/controllers/voiceFunction.controller.js:155-166 | with the student's id reaching the query, a call's student hears the no-history line exactly when they have no Graded submission |
| VoiceFunction.SentenceShape | src/controllers/voiceFunction.controller.js:170-174 | a progress sentence starts with the count of assessments and ends as its review line does |
| VoiceFunction.ProgressReplyShape | src/controllers/voiceFunction.controller.js:158-174 | for a student with Graded work, the reply has figures, starts with the number of records counted and ends in "!" exactly when no weak topic was found |
| VoiceFunction.ProgressReplySaysNaN | src/controllers/voiceFunction.controller.js:163-174 | once the id reaches the query, a student whose five newest Graded submissions are all in other subjects is told an average of "NaN%" |
| VoiceFunction.NothingInSubject | src/agents/studentAssistantAgent.js:372-378 | with no record of the subject the progress has no assessment, no average and no topics |
| VoiceFunction.EmptySentence | src/controllers/voiceFunction.controller.js:170-174 | the sentence for that empty progress reads "0 assessments" and "NaN%" |
| VoiceFunction.ProgressReplyFixed | src/controllers/voiceFunction.controller.js:151-167 | the corrected reply asks for a call without a student, and gives the no-history line when no record of the subject is left among the five newest |
| VoiceFunction.ProgressReplyFixedHasAverage | src/controllers/voiceFunction.controller.js:163-176 | the corrected reply is the no-history line or a sentence with a real average |
| VoiceFunction.UpcomingItems | src/controllers/voiceFunction.controller.js:221-225 | every listed assessment gives one spoken item, in order |
| VoiceFunction.UpcomingText | src/controllers/voiceFunction.controller.js:210-226 | an error object or a not-found message makes the formatting throw, so the caller hears the apology; an empty list gives the no-upcoming line |
| VoiceFunction.UpcomingReplyText | src/controllers/voiceFunction.controller.js:188-234 | with the student's id reaching the agent: without a call or a student the caller is asked to start a call; an unknown student gives the apology; otherwise the reply reads out the upcoming assessments of the call student's grade, else the stored student's, and class |
| VoiceFunction.UpcomingReplyAnnounces | src/controllers/voiceFunction.controller.js:218-226 | a non-empty list is announced with its size, at most three, plural exactly when more than one, and reads out the first assessment |
| VoiceFunction.PrintedDocumentAnswersNothing | src/controllers/voiceFunction.controller.js:155-208 | as written, with the printed student document given as the id, a call with a student always hears the no-history line about progress and the apology about upcoming assessments |
| VoiceFunction.IdReachesQueries | src/controllers/voiceFunction.controller.js:155-226 | with the id given, a student hears figures exactly when they have Graded work, and a known student with upcoming assessments hears the first one read out |
| StudentAssistant.ReplaceAbsent | src/agents/studentAssistantAgent.js:344-346 | a number word with no whole-word occurrence leaves the text as it is |
| StudentAssistant.ReplaceAtStart | src/agents/studentAssistantAgent.js:345 | a whole-word occurrence is replaced by the word's digits and the scan continues after it |
| StudentAssistant.ProcessQuery | src/agents/studentAssistantAgent.js:332-346 | the reassignment loop lower-cases the query and replaces every number word, word after word in the table's order |
| StudentAssistant.KeywordEnd | src/agents/studentAssistantAgent.js:349 | a chapter keyword ("chapter", "ch." or "ch") is at least two characters long and ends inside the text |
| StudentAssistant.MentionAt | src/agents/studentAssistantAgent.js:349-352 | a match yields a non-empty run of digits after its keyword |
| StudentAssistant.Mentions | src/agents/studentAssistantAgent.js:349-352 | every match of the global pattern yields a non-empty numeral |
| StudentAssistant.NoKeywordNoMention | src/agents/studentAssistantAgent.js:349-350 | a text without "ch" mentions no chapter |
| StudentAssistant.MentionAtStart | src/agents/studentAssistantAgent.js:349-352 | "chapter" followed by a numeral is read with all its digits, and the scan resumes after them |
| StudentAssistant.MapChapter | src/agents/studentAssistantAgent.js:357-374 | a mapped chapter is still a numeral |
| StudentAssistant.MapChapterValue | src/agents/studentAssistantAgent.js:357-374 | English keeps the number; Math and Science raise a number below 100 by 100 and keep larger ones; other subjects keep it; English is tested first |
| StudentAssistant.MapChapters | src/agents/studentAssistantAgent.js:351-375 | every match gives exactly one chapter, in order |
| StudentAssistant.ExtractAndMapChapters | src/agents/studentAssistantAgent.js:330-379 | the push loop yields the chapters the extraction specification describes |
| StudentAssistant.NoMentionNoChapters | src/agents/studentAssistantAgent.js:349-378 | a query without a chapter keyword, after the number words are replaced, gives no chapter |
| StudentAssistant.ChaptersToUse | src/agents/studentAssistantAgent.js:387-398 | the front end's chapters win when there are any; otherwise those the query mentions |
| StudentAssistant.NormalizeSubject | src/agents/studentAssistantAgent.js:180-188 | an absent subject gives none; "math" anywhere gives Mathematics, else "science" gives Science, else "english" gives english, else the subject as given |
| StudentAssistant.NormalizeIdempotent | src/agents/studentAssistantAgent.js:180-188 | normalising a normalised subject changes nothing |
| StudentAssistant.ExtractSubject | src/agents/studentAssistantAgent.js:588-598 | the first listed subject the query mentions, in any case, capitalised; none when it mentions none |
| StudentAssistant.ShouldNotifyTeacher | src/agents/studentAssistantAgent.js:605-617 | a query needs the teacher exactly when it contains one of the concern phrases |
| StudentAssistant.NotifyIgnoresCase | src/agents/studentAssistantAgent.js:615-616 | letter case never changes the notification decision |
| StudentAssistant.BySubject | src/agents/studentAssistantAgent.js:248-254 | the records kept are exactly those of the subject, or all when no subject is given |
| StudentAssistant.BySubjectNone | src/agents/studentAssistantAgent.js:250-254 | with no record of the subject nothing is left |
| StudentAssistant.WeakKeysInMember | src/agents/studentAssistantAgent.js:259-263 | a topic key is found exactly when some wrong answer scoring under half marks has it |
| StudentAssistant.CountWeakTopics | src/agents/studentAssistantAgent.js:256-265 | the tally holds each weak key once, in the order first met, with the number of weak answers under it |
| StudentAssistant.Percentages | src/agents/studentAssistantAgent.js:270-278 | one score per record, in order |
| StudentAssistant.ProgressOfShape | src/agents/studentAssistantAgent.js:244-279 | over the records the query returns, the progress counts those left after the subject filter, lists at most three weak topics without repeats and one score per record, and has no average exactly when no record is left |
| StudentAssistant.LatestAreNewest | src/agents/studentAssistantAgent.js:237-242 | the query returns at most five of the student's Graded submissions, newest first, none exactly when the student has none, and none it leaves out is newer than one it returns |
| StudentAssistant.ProgressShape | src/agents/studentAssistantAgent.js:235-283 | a key that is not an id gives the error object; for an id, no history exactly when the student has no Graded submission, otherwise at most five records count, with at most three weak topics without repeats, one score per record and no average exactly when none is left |
| StudentAssistant.WeakTopicsFromAnswers | src/agents/studentAssistantAgent.js:256-273 | every weak topic reported is the key of a weak answer in one of the records |
| StudentAssistant.AverageInRange | src/agents/studentAssistantAgent.js:269-272 | with every percentage between 0 and 100, so is the average |
| StudentAssistant.ChosenUpcoming | src/agents/studentAssistantAgent.js:299-312 | the chosen assessments are upcoming ones of the collection, in opening order |
| StudentAssistant.UpcomingAssessments | src/agents/studentAssistantAgent.js:310-320 | at most five assessments are listed |
| StudentAssistant.UpcomingOrdered | src/agents/studentAssistantAgent.js:299-320 | each entry is a Scheduled or Active assessment for the grade, and class when given, opening no earlier than now, and they come in opening order |
| StudentAssistant.GetUpcoming | src/agents/studentAssistantAgent.js:289-325 | an unknown student gives the not-found message; otherwise the list is for the grade passed in, else the student's own |
| StudentAssistant.GetUpcomingFor | src/agents/studentAssistantAgent.js:289-325 | a key that is not an id makes the lookup throw and gives the error object; for an id the not-found message comes exactly when the student is unknown |
| StudentAssistant.StudentDispatchRoutes | src/agents/studentAssistantAgent.js:384-420 | exactly three tool names are known; a search uses the chosen chapters when there are any and those detected in the query otherwise, with a grade of at least 1; the session's subject wins over the model's; the upcoming list uses the session's grade and class |
| StudentAssistant.SearchWithoutQueryFails | src/agents/studentAssistantAgent.js:384-398 | a search requested without a query, with no chapters chosen, makes the chapter detection throw, and the chat ends in its catch with the apology and success false |
| AgentChat.Opening | src/agents/studentAssistantAgent.js:512-516 | the conversation opens with the system prompt, carries the earlier turns and ends with the question |
| AgentChat.ToolRound | src/agents/studentAssistantAgent.js:538-557 | the round fails exactly when some tool throws; otherwise each tool call, in order, has its arguments completed, its output appended as one tool message and its use recorded, and nothing earlier changes |
| AgentChat.Chat | src/agents/studentAssistantAgent.js:508-583 | the loop of at most three rounds yields the result the conversation specification gives, including the apology with success false when the model's request or a tool throws |
| AgentChat.ToolFailureFails | src/agents/studentAssistantAgent.js:538-582 | a round in which any tool throws ends the conversation with the apology, success false and no tool list, whatever came before |
| AgentChat.ToolsUsedInjected | src/agents/parentAssistantAgent.js:494-516 | every recorded tool use carries arguments already completed from the child or student |
| AgentChat.DirectAnswer | src/agents/studentAssistantAgent.js:558-565 | a model that answers at once gives its answer as the reply, with no tool used |
| AgentChat.ExhaustedReplyIsToolOutput | src/agents/studentAssistantAgent.js:568-573 | as written, when the model asks for tools in every round and every tool returns non-empty output, the reply is a tool's serialised output |
| AgentChat.FixedReplyIsNeverToolOutput | src/agents/parentAssistantAgent.js:486-549 | the corrected loop answers with the model's own words, the fallback line or the apology, never a tool's output |
| AgentChat.FixedExhaustedSaysNeedMoreInfo | src/agents/parentAssistantAgent.js:534-541 | the corrected loop gives "I need more information to help you." when every round asks for tools and none throws |
| AgentChat.InjectChildEffect | src/agents/parentAssistantAgent.js:499-504 | a student id or grade the model gave is kept, a missing one is filled from the child when the child has one, and nothing else changes |
| AgentChat.InjectStudentEffect | src/agents/studentAssistantAgent.js:543-545 | a student id the model gave is kept; a missing one is filled from the student |
| AgentChat.GradeFromName | src/agents/studentAssistantAgent.js:523 | the grade read from a grade name is at least 1, 8 when it has no usable digits |
| AgentChat.ChildGradeAlwaysGiven | src/controllers/chat.controller.js:193 | the parent chat always has a grade to fill into tool arguments |
| ParentAssistant.Cutoff | src/agents/parentAssistantAgent.js:190-197 | only "last_month" and "last_3_months" restrict the history, to 30 and 90 days before now |
| ParentAssistant.InPeriod | src/agents/parentAssistantAgent.js:187-201 | the period never adds records |
| ParentAssistant.InPeriodMember | src/agents/parentAssistantAgent.js:195 | a record is kept exactly when it was created no earlier than the cutoff |
| ParentAssistant.InPeriodAll | src/agents/parentAssistantAgent.js:190 | without a cutoff every record is kept, in order |
| ParentAssistant.GradedNewestFirstIsQuery | src/agents/parentAssistantAgent.js:187-201 | the query returns exactly the child's Graded submissions, each one stored, newest first |
| ParentAssistant.Highest | src/agents/parentAssistantAgent.js:220 | the highest score is one of the scores and no score exceeds it; an empty list gives minus infinity |
| ParentAssistant.Lowest | src/agents/parentAssistantAgent.js:221 | the lowest score is one of the scores and none is below it; an empty list gives plus infinity |
| ParentAssistant.Mean | src/agents/parentAssistantAgent.js:219 | the mean is NaN exactly for an empty list |
| ParentAssistant.MeanBetween | src/agents/parentAssistantAgent.js:219-221 | the mean of a non-empty list lies between its lowest and highest score |
| ParentAssistant.Fixed1NotNaN | src/agents/parentAssistantAgent.js:219 | a rendered number never reads "NaN" |
| ParentAssistant.TrendOfFew | src/agents/parentAssistantAgent.js:224-231 | three scores or fewer are always stable |
| ParentAssistant.TrendOfMany | src/agents/parentAssistantAgent.js:224-231 | with more than three scores the trend is improving exactly when the three newest beat the next three by more than 5 on average, declining exactly when they trail by more than 5 |
| ParentAssistant.Marks | src/agents/parentAssistantAgent.js:217 | one score per record, in order |
| ParentAssistant.ChildProgressShape | src/agents/parentAssistantAgent.js:185-263 | no history exactly when the period holds no record; otherwise the reply counts the subject's records and lists at most five; with none left the average is NaN, the extremes infinite and the trend stable |
| ParentAssistant.ChildProgressForHistory | src/agents/parentAssistantAgent.js:185-208 | over the stored submissions, a child has no history for the period exactly when none of the child's Graded submissions was created within it |
| ParentAssistant.ChildProgressBounds | src/agents/parentAssistantAgent.js:217-221 | with records left the extremes are finite and every score of the subject in the period lies between them |
| ParentAssistant.TopicPairs | src/agents/parentAssistantAgent.js:294-303 | each topic of a record is paired with the record's percentage, in order |
| ParentAssistant.Names | src/agents/parentAssistantAgent.js:297-303 | the topic of every pair, in order |
| ParentAssistant.TopicPerformance | src/agents/parentAssistantAgent.js:292-304 | the loops build a table with each topic once, in first-met order, holding every percentage recorded under it |
| ParentAssistant.WeakOf | src/agents/parentAssistantAgent.js:307-319 | at most one entry per topic of the table |
| ParentAssistant.WeakOfMember | src/agents/parentAssistantAgent.js:308-318 | an entry is reported exactly for the table's topics averaging below 60 |
| ParentAssistant.WeakOfEntries | src/agents/parentAssistantAgent.js:309-317 | each entry carries its topic's average and number of attempts |
| ParentAssistant.WeakOfTopics | src/agents/parentAssistantAgent.js:308-319 | every reported topic is one of the table's |
| ParentAssistant.WeakOfDistinct | src/agents/parentAssistantAgent.js:308-319 | no topic is reported twice |
| ParentAssistant.FixedValueOf | src/agents/parentAssistantAgent.js:315-321 | the rendered average, read back as a number for sorting, is the average rounded to a tenth |
| ParentAssistant.GetWeakAreas | src/agents/parentAssistantAgent.js:270-331 | the loops give the reply the weak-area specification describes |
| ParentAssistant.WeakAreasShape | src/agents/parentAssistantAgent.js:270-326 | no data exactly when there is no graded work; otherwise the total counts the distinct topics assessed, and at most five topics are reported, none twice, in ascending order of their rounded averages |
| ParentAssistant.WeakAreasForNoData | src/agents/parentAssistantAgent.js:270-283 | over the stored submissions, a child has no assessment data exactly when none of the child's submissions is Graded |
| ParentAssistant.WeakAreasTop | src/agents/parentAssistantAgent.js:321-324 | the reported topics are the first five of the weak ones sorted by rounded average |
| ParentAssistant.WeakAreasReported | src/agents/parentAssistantAgent.js:292-324 | every reported topic was assessed in the ten newest records of the subject, averages below 60, and carries that average and its attempts |
| ParentAssistant.WeakAreasComplete | src/agents/parentAssistantAgent.js:307-324 | with at most five weak topics every one of them is reported |
| ParentAssistant.StudyRecommendations | src/agents/parentAssistantAgent.js:333-352 | the recommendations fail exactly when the child is unknown |
| ParentAssistant.RecommendationsShape | src/agents/parentAssistantAgent.js:335-346 | the reply carries the four fixed tips, at most five weak topics, none without graded work, and the first three upcoming assessments of the child's grade |
| ParentAssistant.RecommendationsForShape | src/agents/parentAssistantAgent.js:333-346 | over the stored submissions, the recommendations fail exactly when the child is unknown, and name no weak topic when none of the child's submissions is Graded |
| ParentAssistant.SubjectArg | src/agents/parentAssistantAgent.js:417-423 | the subject filter is the context's subject, else the model's, else none |
| ParentAssistant.DispatchRoutes | src/agents/parentAssistantAgent.js:412-438 | exactly five tool names are known; the student id comes from the arguments, the upcoming list's grade and class from the context, an omitted period means the whole history, and the context's grade wins for topic searches |
| ChatController.ConversationStore.constructor | src/controllers/chat.controller.js:3 | the store starts with the given conversations |
| ChatController.NewConversation | src/controllers/chat.controller.js:23-30 | a new conversation has no messages, is active and needs no attention |
| ChatController.StartStudentChat | src/controllers/chat.controller.js:13-58 | the handler changes the collection and replies as the student-start specification says (the reply's student entry and the missing-grade failure are left out) |
| ChatController.StartParentChat | src/controllers/chat.controller.js:64-113 | the handler changes the collection and replies as the parent-start specification says; its properties are StartParentAddsOne's (the reply envelope, names, grade and class are left out) |
| ChatController.StartParentAddsOne | src/controllers/chat.controller.js:64-92 | the parent is looked up before the child; a start succeeds exactly for a known parent, a known student and a fresh session id, adding one empty, active parent conversation carrying both ids and keeping every other; a failure adds nothing |
| ChatController.StartAddsOne | src/controllers/chat.controller.js:17-32 | a start succeeds exactly for a known student and a fresh session id, adding one empty, active student conversation and keeping every other; a failure adds nothing |
| ChatController.History | src/controllers/chat.controller.js:136-139 | at most ten earlier messages are passed on |
| ChatController.HistoryIsTail | src/controllers/chat.controller.js:136-139 | they are the last ten stored messages, oldest first, role and content only |
| ChatController.TurnChapters | src/controllers/chat.controller.js:161 | the request's chapter wins over the session's chosen chapters |
| ChatController.SendMessage | src/controllers/chat.controller.js:118-229 | the handler changes the collection and replies as the send specification says |
| ChatController.SendFailureChangesNothing | src/controllers/chat.controller.js:122-203 | every failure leaves the collection as it was; an empty or blank message gets 400 before any lookup; a success needs a known session and student |
| ChatController.SendRecordsExchange | src/controllers/chat.controller.js:171-218 | a successful turn appends the user's message and then the reply, moves the activity time, raises the attention flag exactly for a worrying student message and never clears it, and touches nothing else |
| ChatController.RequestContents | src/controllers/chat.controller.js:136-198 | a student turn gets the latest ten messages, the request's chapter or the session's, the request's subject or the session's; a parent turn needs a known parent and gets the child's grade number and the session's subject |
| ChatController.SummaryOf | src/controllers/chat.controller.js:265-275 | a summary counts the messages and previews the last one in at most 100 characters, whole when short; none without messages |
| ChatController.StudentSessionsOrdered | src/controllers/chat.controller.js:257-282 | one summary per session of the student, most recently active first |
| ChatController.CloseChatSession | src/controllers/chat.controller.js:287-309 | the handler changes the collection and replies as the close specification says (the reply envelope is left out) |
| ChatController.CloseEffect | src/controllers/chat.controller.js:291-299 | closing marks the named session Closed and changes nothing else; an unknown session gives 404; closing twice equals closing once |
| ParentsModel.Trimmed | src/models/Parents.model.js:50-65 | a name is stored trimmed, and an absent name stays absent |
| ParentsModel.HookAcceptsPaired | src/models/Parents.model.js:116-154 | the hook accepts exactly the paired names; its message names the first broken rule, the father's pair before the mother's and the missing-name rule last |
| ParentsModel.BlankNameAbsent | src/models/Parents.model.js:50-65 | a name of spaces only counts as absent once stored |
| ParentsModel.EmailErrors | src/models/Parents.model.js:66-76 | the email passes exactly when it is present |
| ParentsModel.PasswordErrors | src/models/Parents.model.js:77-85 | the password passes exactly when present, at least 8 characters long and holding a lower-case letter, an upper-case letter, a digit and a special character before its first line terminator, where the pattern's `.*` stops; at most one message |
| ParentsModel.ClassAfterLineBreakWeak | src/models/Parents.model.js:82 | a password of 11 characters holding all four kinds is weak when its only upper-case letter follows a line break |
| ParentsModel.PrimaryErrors | src/models/Parents.model.js:86-90 | the primary number passes exactly when present and of 10 to 15 digits |
| ParentsModel.SecondaryErrors | src/models/Parents.model.js:91-94 | the secondary number passes when absent or of 10 to 15 digits |
| ParentsModel.CredentialErrors | src/models/Parents.model.js:66-94 | the contact fields pass exactly when each of their rules holds |
| ParentsModel.ChildErrors | src/models/Parents.model.js:3-46 | a child entry passes exactly when its name, roll number, class name and grade name are present |
| ParentsModel.ChildrenErrors | src/models/Parents.model.js:95-97 | the children pass exactly when every entry does |
| ParentsModel.SaveErrors | src/models/Parents.model.js:48-154 | a record saves exactly when it is valid: every field rule, at least one child and paired names |
| ParentsModel.SavedParentsShape | src/models/Parents.model.js:77-154 | a saved record has paired names, at least one child, a password of at least 8 characters and a valid primary number |
| ParentsModel.FamilyChildErrors | src/models/Family.model.js:3-31 | a Family child entry passes exactly when its name, roll number, class, grade and id are present |
| ParentsModel.FamilyChildrenErrors | src/models/Family.model.js:80-89 | the Family children pass exactly when every entry does |
| ParentsModel.FamilySaveErrors | src/models/Family.model.js:33-139 | a Family record saves exactly when its contact fields pass, it has valid children and its names are paired |
| ParentsModel.FamilyMatchesParents | src/models/Family.model.js:101-139 | with valid children on both sides, a Family record and a Parents record with the same names and contact fields save alike and are refused with the same message |
| ParentsService.StudentDirectory.constructor | src/services/parents.service.js:2 | the directory starts with the given students |
| ParentsService.ParentsStore.constructor | src/services/parents.service.js:1 | the store starts with the given records |
| ParentsService.SetPhones | src/services/parents.service.js:84-87 | the given phone numbers are written, the others kept, and nothing but phones changes |
| ParentsService.FirstMatch | src/services/parents.service.js:66-71 | the lookup finds the first student in directory order that matches, or none when none does |
| ParentsService.FirstMatchRoster | src/services/parents.service.js:66-71 | phone numbers play no part in the lookup |
| ParentsService.Resolve | src/services/parents.service.js:45-81 | a found student is one of the directory |
| ParentsService.ResolveRefusals | src/services/parents.service.js:48-60 | an entry missing its name, class or grade, or whose name has fewer than two words, is refused with 400 before any lookup |
| ParentsService.ResolveFinds | src/services/parents.service.js:54-81 | a well-formed entry finds the first student matching the first word of the name, the remaining words, the class and the grade, ignoring letter case; with none it is refused with 404 |
| ParentsService.ResolveRoster | src/services/parents.service.js:45-81 | an entry finds the same student in directories that differ only in phone numbers |
| ParentsService.ResolveWellBehaved | src/services/parents.service.js:45-81 | the lookup stays inside the directory and ignores phone numbers |
| ParentsService.LinkRoster | src/services/parents.service.js:44-102 | the loop changes phone numbers only |
| ParentsService.LinkStep | src/services/parents.service.js:83-101 | one turn writes the phones of the student found and records that student as a child |
| ParentsService.LinkKeepsSet | src/services/parents.service.js:83-87 | a student already holding the requested phones keeps them to the end of the loop |
| ParentsService.LinkChildren | src/services/parents.service.js:89-101 | on success there is one child per entry, in entry order, each made from the student the entry finds |
| ParentsService.RegisterParents | src/services/parents.service.js:5-122 | the method changes the two collections and answers as the corrected registration does, which judges the chosen password rather than its hash (see Findings) |
| ParentsService.RegisterGuards | src/services/parents.service.js:18-38 | a used e-mail, then a missing password, then missing or empty children, are each refused with 400 and change nothing |
| ParentsService.RegisterOkUnfold | src/services/parents.service.js:18-121 | a successful registration passed every guard, linked every entry and stored a record without faults |
| ParentsService.RegisteredRecord | src/services/parents.service.js:104-121 | a successful registration stores under the new id alone a record with paired, trimmed names, the normalised e-mail and the hashed password, after the chosen password met the password rules; the reply hides the password |
| ParentsService.RegisteredChildren | src/services/parents.service.js:44-114 | a successful registration links one child per entry, in entry order, from the first matching student, and changes nothing in the directory but phones |
| ParentsService.RegisterStudents | src/services/parents.service.js:44-102 | past the guards, the directory is left as the loop leaves it, whatever the save does |
| ParentsService.LinkFirstApplied | src/services/parents.service.js:83-87 | the student the first entry finds keeps the new phones to the end of the loop |
| ParentsService.RegisterNotAtomic | src/services/parents.service.js:83-115 | the student the first entry finds has the new phones whatever happens to later entries and to the save, a refusal included |
| ParentsService.RegisterKeepsEmailsUnique | src/services/parents.service.js:18-24 | the e-mail guard keeps e-mails unique |
| ParentsService.FirstWithId | src/services/parents.service.js:179 | the student updated for a child is the first with the child's id, or none |
| ParentsService.FirstWithIdRoster | src/services/parents.service.js:179 | phone numbers play no part in finding a student by id |
| ParentsService.SetPhonesById | src/services/parents.service.js:179 | writing phones by id changes phone numbers only |
| ParentsService.PhonesFor | src/services/parents.service.js:178-180 | the children loop changes phone numbers only |
| ParentsService.PhonesForEffect | src/services/parents.service.js:172-181 | a student either keeps its record or, being some child's student, gets the requested phones |
| ParentsService.SetPhonesTwice | src/services/parents.service.js:174-175 | writing the same phones twice is writing them once |
| ParentsService.PhonesForKeepsSet | src/services/parents.service.js:178-180 | a student already holding the requested phones keeps them through the loop |
| ParentsService.SetPhonesByIdAt | src/services/parents.service.js:179 | writing by id changes the first student with that id, to the requested phones, and no other |
| ParentsService.PhonesForReach | src/services/parents.service.js:178-180 | the requested phones reach the student of every later child |
| ParentsService.UpdateParents | src/services/parents.service.js:147-198 | the method changes the two collections and answers as the corrected update does, which applies the name-pairing hook and judges the chosen password (see Findings) |
| ParentsService.UpdateFailures | src/services/parents.service.js:151-196 | an unknown id gives 404 and changes nothing; any refusal leaves the parents as they were |
| ParentsService.UpdatedShape | src/services/parents.service.js:158-190 | a successful update stores the merged record under the same id with its children kept and paired names, hides the password, and a new password met the rules before being hashed |
| ParentsService.UpdateStudents | src/services/parents.service.js:163-181 | whatever the outcome, the directory is the one the phone step leaves: the loop runs with the primary number only when it is non-empty and the secondary one whenever it is given, and nothing changes when neither is given |
| ParentsService.PhonesForAll | src/services/parents.service.js:172-181 | the first student with each child's id gets the given phones; students of no child keep theirs |
| ParentsService.PhonesAfterReach | src/services/parents.service.js:171-181 | after the phone step the first student with each child's id carries the given phones, students of no child keep theirs, and the roster is unchanged |
| ParentsService.UpdateKeepsInvariants | src/services/parents.service.js:183-186 | with the name hook applied to updates, stored names stay paired and e-mails stay unique |
| ParentsService.UpdateAsWrittenSkipsHook | src/services/parents.service.js:183-186 | as written, an update whose set paths pass their rules and whose e-mail is free is stored, whatever the merged names are |
| ParentsService.UpdateHookRefuses | src/models/Parents.model.js:116-154 | with the hook applied, merged names it refuses are refused with its message |
| ParentsService.UpdateAsWrittenUnpairs | src/services/parents.service.js:183-186 | as written, clearing the father's last name of a paired record succeeds and unpairs it; with the hook applied it is refused with the father's-last-name message |
| ParentsService.OnlyPasswordRefused | src/models/Parents.model.js:77-85 | a registration whose only fault is its password is refused with the password's message alone |
| ParentsService.HashPassesPasswordRules | src/services/parents.service.js:41-115 | as written, registering with the password "a" passes the password rules, because they judge the bcrypt hash |
| ParentsService.ShortPasswordRefused | src/models/Parents.model.js:77-85 | with the rules applied to the chosen password the same registration is refused as too short, and for nothing else |

## Left out

- Calls to outside services are parameters, not models: the language model (grading replies, generated questions and plans, agent chat rounds), the vector search and its embeddings, the video search API and the voice platform. `understandTopic`, `buildPrompt` and `buildSystemPrompt` are prompt templating. Only the fact that a prompt is sent is modelled, not its text.
- The database is an in-memory `seq` or `map` per collection. Mongoose itself (casting, `populate`, indexes, the `unique` e-mail index) is reduced to the schema rules the core relies on. Ids are assumed unique within a collection.
- A `findByIdAndUpdate` body is modelled by the fields the service sets. Keys whose value is `undefined` are dropped. Arbitrary extra keys in an update body are not modelled. A replacement `child_info` array sent in an update body is not modelled either.
- The re-check for a record deleted between the read and the update in `updateParents` is not modelled. The model is sequential, so it cannot happen.
- Concurrency, cron scheduling, the `setTimeout` rate-limit delays and fire-and-forget promises are left out. The scheduler's sweeps are methods called with the time as a parameter. The race between two registrations with the same e-mail is also left out.
- The password hasher is a function parameter. Authentication and tokens are not part of this model.
- `getAllParents`, `getParentsById`, `deleteParents` and `searchParents` are thin database wrappers and are left out. The regular-expression search of `searchParents` is among them.
- `getChatHistory` and `getSessionsNeedingAttention` in the chat controller only read and return stored documents, so they are left out.
- The Family schema is modelled as the Parents schema's twin. The parents service does not use it, so no service operation stores a family.
- Characters are ASCII. `\s`, case mapping and word boundaries follow their ASCII meaning. The Unicode whitespace and case tables of JavaScript are not modelled. Special regular-expression characters inside a topic or chapter name are taken literally.
- `toLocaleDateString`, dates in general (instants are integers) and the width of JavaScript numbers are not modelled. `parseInt` of very long digit runs is exact here. `toFixed` is exact for the values used, and exponent notation for very large numbers is left out.
- Sorting is a stable insertion sort by key, standing for JavaScript's stable array sort. The database's order between equal sort keys and the key order of JavaScript objects are taken to be insertion order.
- `ParentsModel.EmailErrors`: checks only that the e-mail is present. The e-mail format pattern is left out, because its regular-expression semantics are out of scope.
- `Curation.Part`: its own contract states only the position bounds. The value read is stated by `Curation.PartPresent`, `Curation.PartAbsent` and `Curation.RenderRoundTrip`.
- `Generator.QuizContextOf`: states that each bucket is a prefix of at most ten of its excerpts. That these are exactly the first ten follows from `Generator.PrepareContext` and the definition, not from a separate lemma.
- `Curation.SearchVideos`: its contract gives only the bound of three. The ranking is stated by `Curation.TopThreeRanked`.
- ChatController.StartParentChat: the model assumes the student record carries its grade and class. The reply's parent and child names, grade and class are left out. Without a grade or class the source throws after the conversation is saved and answers 500.
- ChatController.StartParentChat: the reply envelope is not modelled. The source calls `success(res, {…}, 201)`, so the HTTP status is 200, the session payload travels in `msg` and `data` is 201, where a student start carries its payload in `data`. The model answers `Success(200, body)` for both.
- ChatController.CloseChatSession: the reply envelope is not modelled. The source sends `{message, session_id}` in `msg` with `data` null; the model answers `Success(200, body)`.
- Response: models a reply's status and body only, not which of the envelope's `msg` and `data` fields carries the body.
- ChatController.StartStudentChat: the reply's `student` entry (name, grade and class) is left out. The model assumes the student record carries its grade and class. Without one the source throws after the conversation is saved and answers 500; the model answers 200.
- The `selected_chapters` cast of the chat schema is taken as a list of strings.
- The child entry built at registration stores the found student's first and last name, joined by a space. Any trimming of its own fields by the child schema is left out.
- No operation sets a session's status or completion time. The source has none, and only the gate that reads the status is modelled.
- RegisterParents: follows the corrected registration, which checks the password rules against the chosen password. The source's `Parents.create` judges the bcrypt hash, so it stores a password such as "a" that the model refuses. `ParentsService.HashPassesPasswordRules` models the source as written.
- RegisterOkUnfold: states the corrected registration, whose fault check reads the chosen password, not the hash the source stores.
- RegisteredRecord: "the chosen password met the rules" holds of the corrected registration only. The source judges the hash.
- UpdateParents: follows the corrected update, which runs the name-pairing hook and judges the chosen password. The source's `findByIdAndUpdate` does neither, as `ParentsService.UpdateAsWrittenSkipsHook` and `ParentsService.UpdateAsWrittenUnpairs` show.
- UpdatedShape: "paired names" and "a new password met the rules" hold of the corrected update only.
- Generator.Generate: stores the corrected record, which carries the lesson-plan id. As written every generation fails and stores nothing, as `Generator.AsWrittenNeverGenerates` shows.
- GenerateResult: specifies the corrected generation, for the same reason as `Generator.Generate`.
- TriggerAssessmentGeneration: a Completed plan gets the corrected generator's outcome. As written that generation always fails.
- TriggerSessionAssessment: calls the corrected generator, as `Workflow.TriggerAssessmentGeneration` does.
- ExecuteCompleteWorkflow: its assessment step calls the corrected generator.
- Curation.Relevance: adds the score parts as exact reals. JavaScript adds doubles, so 0.2 + 0.1 there exceeds 0.3.
- Curation.TopThree: ranks by the exact sums. Where double rounding separates two scores that are equal as reals, the source may keep different videos than the model.
- AgentChat.Chat: a tool runner that returns no output stands for every throw inside the round, including arguments `JSON.parse` rejects. The error text the catch logs is left out.
- A failure inside the vector search or the embedding request is caught by the agent's `searchKnowledgeBase`, which then returns no results. The `search` parameter returning an empty list stands for it.
- Submission timestamps: `createdAt`, which the progress query sorts by, is the stored record's creation time, given with each submission.

## Findings

| source | as written | input that shows it | evidently intended | confidence | as-written member | corrected member |
|---|---|---|---|---|---|---|
| src/agents/assessmentGeneratorAgent.js:265-280 | the new assessment is built without `lesson_plan_id`, which the schema requires, so its save always fails | any generation request | the built assessment carries the request's lesson plan id and is saved | not executed | Generator.AsWrittenNeverGenerates | Generator.GeneratedShape |
| src/services/agentWorkflow.service.js:127 | the gate reads `session.status`, which the session sub-schema does not declare, so a stored session never has it | a session assessment request for any session of a stored plan | a session marked Completed passes the gate and its assessment is generated | not executed | Workflow.StoredSessionsRefused | Workflow.CompletedSessionGenerates |
| src/services/parents.service.js:183-186 | the update uses `findByIdAndUpdate`, which skips the pre-save name-pairing hook | a paired father's names, updated with an empty `father_lname` | the update is refused as a save would be, so stored names stay paired | not executed | ParentsService.UpdateAsWrittenUnpairs | ParentsService.UpdateKeepsInvariants |
| src/controllers/voiceFunction.controller.js:163-174 | the average is taken over the subject's records, and when there are none it is rendered as "NaN%"; this shows once the student's id reaches the query (next row) | a student whose only graded work is in a subject other than the one asked about | the no-history line when the subject holds no graded work | not executed | VoiceFunction.ProgressReplySaysNaN | VoiceFunction.ProgressReplyFixedHasAverage |
| src/agents/studentAssistantAgent.js:568-573 | when every round asks for tools, the last message is a tool result, and its serialised output is sent as the reply | a model that requests a tool in all three rounds | the fallback "I need more information to help you." | not executed | AgentChat.ExhaustedReplyIsToolOutput | AgentChat.FixedExhaustedSaysNeedMoreInfo |
| src/services/parents.service.js:105-115 | the record is created with the bcrypt hash as its password, so the password rules judge the hash, not the chosen password | registering with the password "a" | the rules reject "a" as too short | not executed | ParentsService.HashPassesPasswordRules | ParentsService.ShortPasswordRefused |
| src/controllers/voiceFunction.controller.js:155-208 | the agent is given `toString()` of the populated student document, whose printed form no ObjectId cast accepts, so both queries fail | any call with a student | the student's id reaches the queries | not executed | VoiceFunction.PrintedDocumentAnswersNothing | VoiceFunction.IdReachesQueries |
