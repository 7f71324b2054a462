/** The voice-call function endpoints: what the phone agent says back for a
  * knowledge-base search, a progress question and an upcoming-assessment
  * question. The call record and its metadata come from the telephony
  * service; here they are a parameter. The call is read with its student
  * populated, so `call.student_id` is the student's document. */
module VoiceFunction {
  import opened Core
  import opened Text
  import opened Assessments
  import opened StudentAssistant

  const NoTextbookAnswer := "I couldn't find specific information about that in the textbook. Let me explain it in general terms."
  const NoStudentInfo := "I don't have your student information yet. Please start a proper call session first."
  const NoHistoryYet := "I don't " + "have your assessment history yet. Once you complete some assessments, I can show you your progress."
  const NoUpcoming := "You don't have any upcoming assessments scheduled right now."
  const TroubleAssessments := "I'm having trouble getting your assessments right now."
  const TroubleSearching := "I'm having trouble searching right now."
  const DoingWell := "You're doing well overall!"

  /** The call record: the student on the call, when the session was set up
    * with one (its id and its grade and class ids), and the metadata fields
    * the endpoints read. */
  datatype CallInfo = CallInfo(studentId: Option<Id>, studentGradeId: Option<Id>, studentClassId: Option<Id>,
                               grade: Option<string>, subject: Option<string>,
                               selectedChapters: Option<seq<string>>)

  /** A present, non-empty string (JavaScript truthiness). */
  predicate Given(s: Option<string>)
  {
    s.Some? && s.value != ""
  }

  /** `a || b` on optional strings. */
  function OrElse(a: Option<string>, b: string): (r: string)
    ensures Given(a) ==> r == a.value
    ensures !Given(a) ==> r == b
  {
    if Given(a) then a.value else b
  }

  /* ---------- search_knowledge_base ---------- */

  /** `parseInt` of the grade's digits: `NotANumber` when it has none. */
  datatype GradeValue = Grade(n: nat) | NotANumber

  /** The grade of the call: the metadata grade with every non-digit
    * removed, 8 when there is no call or no grade. */
  function GradeOf(call: Option<CallInfo>): (r: GradeValue)
    ensures (call.None? || !Given(call.value.grade)) ==> r == Grade(8)
    ensures (call.Some? && Given(call.value.grade)) ==>
      (r == NotANumber <==> Filter(call.value.grade.value, IsDigit) == [])
  {
    if call.None? || !Given(call.value.grade) then Grade(8)
    else
      var digits := Filter(call.value.grade.value, IsDigit);
      if digits == [] then NotANumber else Grade(DigitsValue(digits))
  }

  /** A prefix such as "Grade 10" gives its number. */
  lemma GradeLabel(call: CallInfo, prefix: string, n: nat)
    requires forall k :: 0 <= k < |prefix| ==> !IsDigit(prefix[k])
    requires call.grade == Some(prefix + NatToString(n))
    ensures GradeOf(Some(call)) == Grade(n)
  {
    LabelDigits(prefix, NatToString(n));
    NatToStringValue(n);
  }

  lemma LabelDigits(prefix: string, w: string)
    requires forall k :: 0 <= k < |prefix| ==> !IsDigit(prefix[k])
    requires AllDigits(w)
    ensures Filter(prefix + w, IsDigit) == w
  {
    FilterConcat(prefix, w, IsDigit);
    FilterNone(prefix, IsDigit);
    FilterAll(w, IsDigit);
  }

  datatype SearchContext = SearchContext(grade: GradeValue, subject: string, selectedChapters: seq<string>)

  /** The context the knowledge-base search runs with: the chapters the
    * query names, else the ones picked for the call; the subject asked
    * about, else the call's, else Science. */
  function ContextFor(query: string, subject: Option<string>, call: Option<CallInfo>): (r: SearchContext)
    ensures r.subject == OrElse(subject, if call.Some? then OrElse(call.value.subject, "Science") else "Science")
    ensures r.grade == GradeOf(call)
    ensures var detected := ExtractedChapters(query, OrElse(subject, ""));
      (detected != [] ==> r.selectedChapters == detected)
      && (detected == [] ==>
            r.selectedChapters ==
              (if call.Some? && call.value.selectedChapters.Some? then call.value.selectedChapters.value else []))
  {
    var detected := ExtractedChapters(query, OrElse(subject, ""));
    SearchContext(GradeOf(call),
                  OrElse(subject, if call.Some? then OrElse(call.value.subject, "Science") else "Science"),
                  if |detected| > 0 then detected
                  else if call.Some? && call.value.selectedChapters.Some? then call.value.selectedChapters.value
                  else [])
  }

  /** Without a call record the search is for grade 8, in the subject asked
    * about or Science, over the chapters the query names. */
  lemma ContextWithoutCall(query: string, subject: Option<string>)
    ensures var c := ContextFor(query, subject, None);
      c.grade == Grade(8) && c.subject == (if Given(subject) then subject.value else "Science")
      && c.selectedChapters == ExtractedChapters(query, OrElse(subject, ""))
  {
  }

  /** The spoken answer to a search: the first two passages joined by a
    * space and cut to 500 characters, or the fallback line. */
  function SearchReply(results: seq<string>): (r: string)
    ensures results == [] ==> r == NoTextbookAnswer
    ensures results != [] ==> |r| <= 500
  {
    if results == [] then NoTextbookAnswer
    else Take(Join(Take(results, 2), " "), 500)
  }

  lemma {:induction false} JoinStartsWithFirst(parts: seq<string>, sep: string)
    requires parts != []
    ensures parts[0] <= Join(parts, sep)
  {
  }

  /** The answer opens with the best passage (up to 500 characters of it),
    * and is exactly that passage when it stands alone and is short. */
  lemma SearchReplyOpensWithBest(results: seq<string>)
    requires results != []
    ensures Take(results[0], 500) <= SearchReply(results)
    ensures |results| == 1 && |results[0]| <= 500 ==> SearchReply(results) == results[0]
  {
    var parts := Take(results, 2);
    JoinStartsWithFirst(parts, " ");
    assert parts[0] == results[0];
    var j := Join(parts, " ");
    if |results| == 1 {
      assert parts == [results[0]];
    }
    if |results[0]| > 500 {
      assert Take(results[0], 500) == results[0][..500];
      assert Take(j, 500) == j[..500];
    }
  }

  /** `searchKnowledgeBase`: without a query, the chapter detection throws
    * on `toLowerCase` and the caller hears the apology; otherwise the
    * passages `search` finds for the query in its context are read out. */
  function SearchAnswer(query: Option<string>, subject: Option<string>, call: Option<CallInfo>,
                        search: (string, SearchContext) -> seq<string>): (r: string)
    ensures !Given(query) ==> r == TroubleSearching
  {
    if !Given(query) then TroubleSearching
    else SearchReply(search(query.value, ContextFor(query.value, subject, call)))
  }

  /** With a query, the caller hears the fallback line when nothing is
    * found and otherwise an answer opening with the best passage. */
  lemma SearchAnswerFound(query: string, subject: Option<string>, call: Option<CallInfo>,
                          search: (string, SearchContext) -> seq<string>)
    requires query != ""
    ensures var results := search(query, ContextFor(query, subject, call));
      var r := SearchAnswer(Some(query), subject, call, search);
      (results == [] ==> r == NoTextbookAnswer)
      && (results != [] ==> Take(results[0], 500) <= r && |r| <= 500)
  {
    var results := search(query, ContextFor(query, subject, call));
    if results != [] {
      SearchReplyOpensWithBest(results);
    }
  }

  /* ---------- get_student_progress ---------- */

  /** `average_score`: `toFixed(1)` of the mean, "NaN" when no record is left. */
  function AverageText(average: Option<real>): string
  {
    if average.None? then "NaN" else Fixed1(average.value)
  }

  function ReviewLine(weak: seq<string>): (r: string)
    ensures |r| > 0 && r[|r| - 1] == (if weak == [] then '!' else '.')
  {
    if |weak| > 0 then "You might want to review: " + Join(Take(weak, 2), ", ") + "." else DoingWell
  }

  function ProgressSentence(p: StudentProgress): string
    requires p.Progress?
  {
    "You've completed " + NatToString(p.totalAssessments) + " assessments with an average score of "
    + AverageText(p.averageScore) + "%. " + ReviewLine(p.weakTopics)
  }

  /** The subject progress is filtered by: the one asked about, else the
    * call's, else none. */
  function ProgressSubject(subject: Option<string>, call: CallInfo): string
  {
    OrElse(subject, OrElse(call.subject, ""))
  }

  /* ---------- the key given to the agent ---------- */

  /** The key the endpoints give the agent for the call's student, as
    * written: `call.student_id.toString()`. With the student populated
    * this is the printed document, not the id, and no ObjectId cast
    * accepts it. */
  function PrintedDocument(id: Id): StudentKey
  {
    NotAnId
  }

  /** The key as intended: the student's id. */
  function IdOf(id: Id): StudentKey
  {
    IdText(id)
  }

  /** `getStudentProgress` for the call's student, the agent given the key
    * `keyOf` makes of the id: an error object or no history gives the
    * no-history line. */
  function ProgressReplyWith(call: Option<CallInfo>, subject: Option<string>, subs: seq<Dated>,
                             keyOf: Id -> StudentKey): string
  {
    if call.None? || call.value.studentId.None? then NoStudentInfo
    else
      var p := GetStudentProgress(subs, keyOf(call.value.studentId.value), ProgressSubject(subject, call.value));
      if p.None? || p.value.NoHistory? then NoHistoryYet else ProgressSentence(p.value)
  }

  /** The progress read out for a call's student, over the five newest of
    * the student's Graded submissions. */
  function ProgressFor(call: CallInfo, subject: Option<string>, subs: seq<Dated>): StudentProgress
    requires call.studentId.Some?
  {
    StudentProgressOf(Records(LatestDated(subs, call.studentId.value)), ProgressSubject(subject, call))
  }

  /** `getStudentProgress` with the student's id reaching the query. */
  function ProgressReply(call: Option<CallInfo>, subject: Option<string>, subs: seq<Dated>): (r: string)
    ensures (call.None? || call.value.studentId.None?) ==> r == NoStudentInfo
  {
    ProgressReplyWith(call, subject, subs, IdOf)
  }

  lemma ProgressReplyIs(call: CallInfo, subject: Option<string>, subs: seq<Dated>)
    requires call.studentId.Some?
    ensures var p := ProgressFor(call, subject, subs);
      ProgressReply(Some(call), subject, subs) == if p.NoHistory? then NoHistoryYet else ProgressSentence(p)
  {
    var id := call.studentId.value;
    assert GetStudentProgress(subs, IdOf(id), ProgressSubject(subject, call)) == Some(ProgressFor(call, subject, subs));
  }

  lemma SentenceShape(p: StudentProgress)
    requires p.Progress?
    ensures var r := ProgressSentence(p);
      ("You've completed " + NatToString(p.totalAssessments)) <= r
      && |r| > 0 && r[|r| - 1] == ReviewLine(p.weakTopics)[|ReviewLine(p.weakTopics)| - 1]
  {
    var head := "You've completed " + NatToString(p.totalAssessments);
    var tail := ReviewLine(p.weakTopics);
    var mid := " assessments with an average score of " + AverageText(p.averageScore) + "%. ";
    assert ProgressSentence(p) == head + mid + tail;
  }

  /** With the id reaching the query, a call's student hears the
    * no-history line exactly when they have no Graded submission. */
  lemma ProgressReplyNoHistory(call: CallInfo, subject: Option<string>, subs: seq<Dated>)
    requires call.studentId.Some?
    ensures ProgressReply(Some(call), subject, subs) == NoHistoryYet
      <==> forall d :: d in subs ==> !GradedFor(call.studentId.value, d)
  {
    var id := call.studentId.value;
    var p := ProgressFor(call, subject, subs);
    ProgressShape(subs, id, ProgressSubject(subject, call));
    assert GetStudentProgress(subs, IdText(id), ProgressSubject(subject, call)) == Some(p);
    ProgressReplyIs(call, subject, subs);
    if p.Progress? {
      SentenceIsNotNoHistory(p);
    }
  }

  lemma SentenceIsNotNoHistory(p: StudentProgress)
    requires p.Progress?
    ensures ProgressSentence(p) != NoHistoryYet
  {
    SentenceShape(p);
    var head := "You've completed " + NatToString(p.totalAssessments);
    assert head[0] == 'Y';
    assert ProgressSentence(p)[0] == 'Y';
    assert NoHistoryYet[0] == 'I';
  }

  /** A reply with figures ends in "!" exactly when no weak topic was found,
    * and starts with the number of records counted. */
  lemma ProgressReplyShape(call: CallInfo, subject: Option<string>, subs: seq<Dated>)
    requires call.studentId.Some? && exists d :: d in subs && GradedFor(call.studentId.value, d)
    ensures var p := ProgressFor(call, subject, subs);
      var r := ProgressReply(Some(call), subject, subs);
      p.Progress? && ("You've completed " + NatToString(p.totalAssessments)) <= r
      && (r[|r| - 1] == '!' <==> p.weakTopics == [])
  {
    var p := ProgressFor(call, subject, subs);
    ProgressShape(subs, call.studentId.value, ProgressSubject(subject, call));
    ProgressReplyIs(call, subject, subs);
    SentenceShape(p);
  }

  /** As written, a student whose five newest Graded submissions are all in
    * other subjects is told an average of "NaN%". */
  lemma ProgressReplySaysNaN(call: CallInfo, subject: string, subs: seq<Dated>)
    requires call.studentId.Some? && subject != ""
    requires exists d :: d in subs && GradedFor(call.studentId.value, d)
    requires forall d :: d in subs && GradedFor(call.studentId.value, d) ==> SubjectOf(d.record) != Some(subject)
    ensures ProgressReply(Some(call), Some(subject), subs)
      == "You've completed " + "0" + " assessments with an average score of " + "NaN" + "%. " + DoingWell
  {
    var id := call.studentId.value;
    assert ProgressSubject(Some(subject), call) == subject;
    LatestAreNewest(subs, id);
    var c := LatestDated(subs, id);
    var latest := Records(c);
    forall k | 0 <= k < |latest| ensures SubjectOf(latest[k]) != Some(subject) {
      assert c[k] in subs && GradedFor(id, c[k]);
    }
    NothingInSubject(latest, subject);
    EmptySentence();
    ProgressReplyIs(call, Some(subject), subs);
  }

  lemma NothingInSubject(latest: seq<Populated>, subject: string)
    requires subject != "" && latest != []
    requires forall k :: 0 <= k < |latest| ==> SubjectOf(latest[k]) != Some(subject)
    ensures StudentProgressOf(latest, subject) == Progress(0, None, [], [])
  {
    var f := BySubject(latest, subject);
    BySubjectNone(latest, subject);
    assert Take(Dedup(WeakKeys(f)), 3) == [];
    var scores := seq(|f|, k requires 0 <= k < |f| => ScoreOf(f[k]));
    assert |scores| == 0;
  }

  lemma EmptySentence()
    ensures ProgressSentence(Progress(0, None, [], []))
      == "You've completed " + "0" + " assessments with an average score of " + "NaN" + "%. " + DoingWell
  {
    assert NatToString(0) == "0";
    assert AverageText(None) == "NaN";
    assert ReviewLine([]) == DoingWell;
  }

  /** `getStudentProgress` as intended: the id reaches the query, and no
    * figures are read out when no record of the subject is left. */
  function ProgressReplyFixed(call: Option<CallInfo>, subject: Option<string>, subs: seq<Dated>): (r: string)
    ensures (call.None? || call.value.studentId.None?) ==> r == NoStudentInfo
    ensures (call.Some? && call.value.studentId.Some? &&
             BySubject(Records(LatestDated(subs, call.value.studentId.value)),
                       ProgressSubject(subject, call.value)) == []) ==> r == NoHistoryYet
  {
    if call.None? || call.value.studentId.None? then NoStudentInfo
    else
      var p := ProgressFor(call.value, subject, subs);
      if p.NoHistory? || p.totalAssessments == 0 then NoHistoryYet else ProgressSentence(p)
  }

  /** The corrected reply always reads out a real average. */
  lemma ProgressReplyFixedHasAverage(call: CallInfo, subject: Option<string>, subs: seq<Dated>)
    requires call.studentId.Some?
    ensures var r := ProgressReplyFixed(Some(call), subject, subs);
      var p := ProgressFor(call, subject, subs);
      r == NoHistoryYet || (p.Progress? && p.averageScore.Some? && r == ProgressSentence(p))
  {
    var latest := Records(LatestDated(subs, call.studentId.value));
    if latest != [] {
      ProgressOfShape(latest, ProgressSubject(subject, call));
    }
  }

  /* ---------- get_upcoming_assessments ---------- */

  /** One assessment as read out; the date's spoken form is the call's locale's. */
  function UpcomingItem(a: Upcoming, dateText: int -> string): string
  {
    a.subject + " on " + dateText(a.opensOn) + ", covering " + Join(Take(a.topics, 2), " and ")
  }

  function UpcomingItems(items: seq<Upcoming>, dateText: int -> string): (r: seq<string>)
    ensures |r| == |items| && forall k :: 0 <= k < |items| ==> r[k] == UpcomingItem(items[k], dateText)
  {
    seq(|items|, k requires 0 <= k < |items| => UpcomingItem(items[k], dateText))
  }

  /** The spoken answer to the agent's reply (`None` for an error object).
    * An error object or a not-found message has no `length`, so the list
    * formatting throws and the caller hears the apology. */
  function UpcomingText(reply: Option<UpcomingReply>, dateText: int -> string): (r: string)
    ensures (reply.None? || reply.value.StudentNotFound?) ==> r == TroubleAssessments
    ensures reply == Some(UpcomingList([])) ==> r == NoUpcoming
  {
    if reply.None? || reply.value.StudentNotFound? then TroubleAssessments
    else if reply.value.items == [] then NoUpcoming
    else
      var upcoming := Take(reply.value.items, 3);
      "You have " + NatToString(|upcoming|) + " upcoming assessment" + (if |upcoming| > 1 then "s" else "")
      + ". " + Join(UpcomingItems(upcoming, dateText), ". ")
  }

  /** `getUpcomingAssessments` for the call's student, the agent given the
    * key `keyOf` makes of the id, with the grade and class of the call's
    * student. */
  function UpcomingReplyWith(call: Option<CallInfo>, docs: seq<Assessment>, students: Id -> Option<Option<Id>>,
                             keyOf: Id -> StudentKey, now: int, dateText: int -> string): string
  {
    if call.None? || call.value.studentId.None? then NoStudentInfo
    else UpcomingText(GetUpcomingFor(docs, students, keyOf(call.value.studentId.value),
                                     call.value.studentGradeId, call.value.studentClassId, now), dateText)
  }

  /** `getUpcomingAssessments` with the student's id reaching the agent:
    * without a student on the call the caller is asked to start a proper
    * session; an unknown student hears the apology; otherwise the upcoming
    * assessments of the call student's grade (else the stored student's)
    * and class are read out. */
  function UpcomingReplyText(call: Option<CallInfo>, docs: seq<Assessment>, students: Id -> Option<Option<Id>>,
                             now: int, dateText: int -> string): (r: string)
    ensures (call.None? || call.value.studentId.None?) ==> r == NoStudentInfo
    ensures call.Some? && call.value.studentId.Some? && students(call.value.studentId.value).None?
      ==> r == TroubleAssessments
    ensures call.Some? && call.value.studentId.Some? && students(call.value.studentId.value).Some? ==>
      var c := call.value;
      r == UpcomingText(Some(UpcomingList(UpcomingAssessments(docs,
             if c.studentGradeId.Some? then c.studentGradeId else students(c.studentId.value).value,
             c.studentClassId, now))), dateText)
  {
    UpcomingReplyWith(call, docs, students, IdOf, now, dateText)
  }

  /** Text placed after a heading still contains any prefix of it. */
  lemma PrefixedContains(head: string, body: string, w: string)
    requires w <= body
    ensures head <= head + body && Contains(head + body, w)
  {
    assert body == w + body[|w|..];
    ContainsSelf(w);
    ContainsExtend(w, w, head, body[|w|..]);
    assert head + w + body[|w|..] == head + body;
  }

  /** A non-empty list is announced with its size, at most three, in the
    * plural exactly when it is more than one, and the first assessment
    * is read out. */
  lemma UpcomingReplyAnnounces(items: seq<Upcoming>, dateText: int -> string)
    requires items != []
    ensures var n := if |items| < 3 then |items| else 3;
      var r := UpcomingText(Some(UpcomingList(items)), dateText);
      ("You have " + NatToString(n) + " upcoming assessment" + (if n > 1 then "s" else "") + ". ") <= r
      && Contains(r, UpcomingItem(items[0], dateText))
  {
    var upcoming := Take(items, 3);
    var parts := UpcomingItems(upcoming, dateText);
    JoinStartsWithFirst(parts, ". ");
    assert parts[0] == UpcomingItem(items[0], dateText);
    var head := "You have " + NatToString(|upcoming|) + " upcoming assessment" + (if |upcoming| > 1 then "s" else "") + ". ";
    PrefixedContains(head, Join(parts, ". "), parts[0]);
  }

  /* ---------- the printed document as the key ---------- */

  /** As written, the agent is given the printed student document, so a
    * call with a student always hears the no-history line about progress
    * and the apology about upcoming assessments. */
  lemma PrintedDocumentAnswersNothing(call: CallInfo, subject: Option<string>, subs: seq<Dated>,
                                      docs: seq<Assessment>, students: Id -> Option<Option<Id>>,
                                      now: int, dateText: int -> string)
    requires call.studentId.Some?
    ensures ProgressReplyWith(Some(call), subject, subs, PrintedDocument) == NoHistoryYet
    ensures UpcomingReplyWith(Some(call), docs, students, PrintedDocument, now, dateText) == TroubleAssessments
  {
    var id := call.studentId.value;
    assert PrintedDocument(id) == NotAnId;
  }

  /** With the id reaching the agent, a student with Graded work hears
    * figures, and a known student with upcoming assessments hears the
    * first of them read out. */
  lemma IdReachesQueries(call: CallInfo, subject: Option<string>, subs: seq<Dated>,
                         docs: seq<Assessment>, students: Id -> Option<Option<Id>>,
                         now: int, dateText: int -> string)
    requires call.studentId.Some?
    ensures ProgressReply(Some(call), subject, subs) != NoHistoryYet
      <==> exists d :: d in subs && GradedFor(call.studentId.value, d)
    ensures var id := call.studentId.value;
      students(id).Some? ==>
      var items := UpcomingAssessments(docs, if call.studentGradeId.Some? then call.studentGradeId else students(id).value,
                                       call.studentClassId, now);
      items != [] ==> Contains(UpcomingReplyText(Some(call), docs, students, now, dateText), UpcomingItem(items[0], dateText))
  {
    ProgressReplyNoHistory(call, subject, subs);
    if students(call.studentId.value).Some? {
      KnownStudentHearsList(call, docs, students, now, dateText);
    }
  }

  lemma KnownStudentHearsList(call: CallInfo, docs: seq<Assessment>, students: Id -> Option<Option<Id>>,
                              now: int, dateText: int -> string)
    requires call.studentId.Some? && students(call.studentId.value).Some?
    ensures var id := call.studentId.value;
      var items := UpcomingAssessments(docs, if call.studentGradeId.Some? then call.studentGradeId else students(id).value,
                                       call.studentClassId, now);
      items != [] ==> Contains(UpcomingReplyText(Some(call), docs, students, now, dateText), UpcomingItem(items[0], dateText))
  {
    var id := call.studentId.value;
    var items := UpcomingAssessments(docs, if call.studentGradeId.Some? then call.studentGradeId else students(id).value,
                                     call.studentClassId, now);
    if items != [] {
      UpcomingReplyAnnounces(items, dateText);
    }
  }

}
