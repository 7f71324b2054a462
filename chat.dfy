/** The chat controller: starting student and parent chat sessions,
  * sending a message through the right assistant and recording the
  * exchange, listing a student's sessions and closing a session. The
  * assistants are parameters: a function from the request the controller
  * builds to the chat result. */
module ChatController {
  import opened Core
  import opened Text
  import opened Sorting
  import StudentAssistant
  import AgentChat

  const MessageEmpty := "Message cannot be empty"
  const SessionNotFound := "Chat session not found"
  const StudentNotFound := "Student not found"
  const ParentNotFound := "Parent not found"
  const StartFailed := "Failed to start chat session"
  const GenerateFailed := "Failed to generate response"
  const SendFailed := "Failed to send message"

  /** How many stored messages the assistant sees. */
  const HistoryWindow: nat := 10

  /** How many characters of the last message a summary shows. */
  const PreviewLength: nat := 100

  datatype UserType = StudentUser | ParentUser

  datatype ChatStatus = ActiveChat | ClosedChat | ArchivedChat

  datatype StoredMessage = StoredMessage(role: string, content: string, timestamp: int)

  datatype Conversation = Conversation(
    userType: UserType,
    studentId: Id,
    parentId: Option<Id>,
    sessionId: string,
    messages: seq<StoredMessage>,
    selectedChapters: seq<string>,
    subjectContext: Option<string>,
    needsTeacherAttention: bool,
    teacherNotified: bool,
    status: ChatStatus,
    lastActivity: int)

  /** The parts of a student record the controller reads. */
  datatype StudentRecord = StudentRecord(firstName: string, lastName: string, gradeName: string, gradeId: Id,
                                         className: string, classId: Id)

  /** A stored message as the assistant receives it: role and content only. */
  datatype HistoryEntry = HistoryEntry(role: string, content: string)

  /** What the controller hands to an assistant. */
  datatype AgentRequest =
    | StudentRequest(message: string, studentId: Id, gradeName: string, gradeId: Id, classId: Id,
                     subject: Option<string>, history: seq<HistoryEntry>, chapters: seq<string>)
    | ParentRequest(message: string, parentId: Id, studentId: Id, gradeId: Id, classId: Id, grade: nat,
                    subject: Option<string>, history: seq<HistoryEntry>)

  /** The reply to a started session. `chapters` is `None` for "All chapters". */
  datatype Started = Started(sessionId: string, message: string, subject: string, chapters: Option<seq<string>>)

  /** The reply to a message. */
  datatype Reply = Reply(response: string, toolsUsed: seq<AgentChat.ToolUse>, sessionId: string)

  /** The summary of one session in a student's list. */
  datatype SessionSummary = SessionSummary(sessionId: string, status: ChatStatus, lastActivity: int,
                                           messageCount: nat, subjectContext: Option<string>,
                                           needsTeacherAttention: bool, lastMessage: Option<string>)

  /** The conversation collection, keyed by session id (a unique index). */
  class ConversationStore {
    var conversations: map<string, Conversation>

    constructor (initial: map<string, Conversation>)
      ensures conversations == initial
    {
      conversations := initial;
    }
  }

  /* ---------- starting a session ---------- */

  /** A fresh conversation: no messages, active, nobody to notify. */
  function NewConversation(userType: UserType, studentId: Id, parentId: Option<Id>, sessionId: string,
                           chapters: seq<string>, subject: Option<string>, now: int): (c: Conversation)
    ensures c.messages == [] && c.status == ActiveChat && !c.needsTeacherAttention && !c.teacherNotified
  {
    Conversation(userType, studentId, parentId, sessionId, [], chapters,
                 if AgentChat.Given(subject) then subject else None, false, false, ActiveChat, now)
  }

  function SubjectLabel(subject: Option<string>): string
  {
    if AgentChat.Given(subject) then subject.value else "All subjects"
  }

  /** The collection and reply of `startStudentChat`; `sessionId` is the
    * freshly drawn identifier, and saving fails when it is already taken. */
  function StartStudent(conversations: map<string, Conversation>, students: map<Id, StudentRecord>,
                        sessionId: string, studentId: Id, subject: Option<string>,
                        selectedChapters: Option<seq<string>>, now: int)
    : (map<string, Conversation>, Response<Started>)
  {
    var chapters := if selectedChapters.Some? then selectedChapters.value else [];
    if studentId !in students then (conversations, Failure(404, StudentNotFound))
    else if sessionId in conversations then (conversations, Failure(500, StartFailed))
    else
      (conversations[sessionId := NewConversation(StudentUser, studentId, None, sessionId, chapters, subject, now)],
       Success(200, Started(sessionId, "Student chat session started", SubjectLabel(subject),
                            if |chapters| > 0 then Some(chapters) else None)))
  }

  /** `startStudentChat`. */
  method StartStudentChat(store: ConversationStore, students: map<Id, StudentRecord>, sessionId: string,
                          studentId: Id, subject: Option<string>, selectedChapters: Option<seq<string>>, now: int)
    returns (r: Response<Started>)
    modifies store
    ensures (store.conversations, r) == StartStudent(old(store.conversations), students, sessionId, studentId,
                                                     subject, selectedChapters, now)
  {
    if studentId !in students {
      return Failure(404, StudentNotFound);
    }
    var chapters := if selectedChapters.Some? then selectedChapters.value else [];
    if sessionId in store.conversations {
      return Failure(500, StartFailed);
    }
    store.conversations := store.conversations[sessionId :=
      NewConversation(StudentUser, studentId, None, sessionId, chapters, subject, now)];
    r := Success(200, Started(sessionId, "Student chat session started", SubjectLabel(subject),
                              if |chapters| > 0 then Some(chapters) else None));
  }

  /** The collection and reply of `startParentChat`: the parent is looked
    * up first, then the child. */
  function StartParent(conversations: map<string, Conversation>, students: map<Id, StudentRecord>,
                       parents: set<Id>, sessionId: string, parentId: Id, studentId: Id,
                       subject: Option<string>, now: int)
    : (map<string, Conversation>, Response<Started>)
  {
    if parentId !in parents then (conversations, Failure(404, ParentNotFound))
    else if studentId !in students then (conversations, Failure(404, StudentNotFound))
    else if sessionId in conversations then (conversations, Failure(500, StartFailed))
    else
      (conversations[sessionId := NewConversation(ParentUser, studentId, Some(parentId), sessionId, [], subject, now)],
       Success(200, Started(sessionId, "Parent chat session started", SubjectLabel(subject), None)))
  }

  /** `startParentChat`. */
  method StartParentChat(store: ConversationStore, students: map<Id, StudentRecord>, parents: set<Id>,
                         sessionId: string, parentId: Id, studentId: Id, subject: Option<string>, now: int)
    returns (r: Response<Started>)
    modifies store
    ensures (store.conversations, r) == StartParent(old(store.conversations), students, parents, sessionId,
                                                    parentId, studentId, subject, now)
  {
    if parentId !in parents {
      return Failure(404, ParentNotFound);
    }
    if studentId !in students {
      return Failure(404, StudentNotFound);
    }
    if sessionId in store.conversations {
      return Failure(500, StartFailed);
    }
    store.conversations := store.conversations[sessionId :=
      NewConversation(ParentUser, studentId, Some(parentId), sessionId, [], subject, now)];
    r := Success(200, Started(sessionId, "Parent chat session started", SubjectLabel(subject), None));
  }

  /** Starting a session adds exactly one new, empty, active conversation
    * under the fresh id and keeps every other one; a failure adds nothing. */
  lemma StartAddsOne(conversations: map<string, Conversation>, students: map<Id, StudentRecord>,
                     sessionId: string, studentId: Id, subject: Option<string>,
                     selectedChapters: Option<seq<string>>, now: int)
    ensures var (after, r) := StartStudent(conversations, students, sessionId, studentId, subject,
                                           selectedChapters, now);
      (r.Failure? ==> after == conversations)
      && (r.Success? <==> studentId in students && sessionId !in conversations)
      && (r.Success? ==>
            after.Keys == conversations.Keys + {sessionId}
            && (forall s :: s in conversations ==> after[s] == conversations[s])
            && after[sessionId].messages == [] && after[sessionId].status == ActiveChat
            && after[sessionId].studentId == studentId && after[sessionId].userType == StudentUser)
  {
  }

  /** A parent start looks the parent up before the child, adds exactly one
    * new, empty, active parent conversation carrying both ids under the
    * fresh id and keeps every other one; a failure adds nothing. */
  lemma StartParentAddsOne(conversations: map<string, Conversation>, students: map<Id, StudentRecord>,
                           parents: set<Id>, sessionId: string, parentId: Id, studentId: Id,
                           subject: Option<string>, now: int)
    ensures var (after, r) := StartParent(conversations, students, parents, sessionId, parentId, studentId,
                                          subject, now);
      (r.Failure? ==> after == conversations)
      && (parentId !in parents ==> r == Failure(404, ParentNotFound))
      && (parentId in parents && studentId !in students ==> r == Failure(404, StudentNotFound))
      && (r.Success? <==> parentId in parents && studentId in students && sessionId !in conversations)
      && (r.Success? ==>
            after.Keys == conversations.Keys + {sessionId}
            && (forall s :: s in conversations ==> after[s] == conversations[s])
            && after[sessionId].messages == [] && after[sessionId].status == ActiveChat
            && after[sessionId].userType == ParentUser
            && after[sessionId].parentId == Some(parentId) && after[sessionId].studentId == studentId)
  {
  }

  /* ---------- sending a message ---------- */

  /** The last ten stored messages, role and content only, oldest first. */
  function History(messages: seq<StoredMessage>): (h: seq<HistoryEntry>)
    ensures |h| <= HistoryWindow
  {
    var recent := if |messages| <= HistoryWindow then messages else messages[|messages| - HistoryWindow..];
    seq(|recent|, k requires 0 <= k < |recent| => HistoryEntry(recent[k].role, recent[k].content))
  }

  /** The history is the tail of the stored messages: its last entry is the
    * last message, and it holds them all while there are at most ten. */
  lemma HistoryIsTail(messages: seq<StoredMessage>)
    ensures var h := History(messages);
      |h| == (if |messages| < HistoryWindow then |messages| else HistoryWindow)
      && forall k :: 0 <= k < |h| ==>
           var m := messages[|messages| - |h| + k];
           h[k] == HistoryEntry(m.role, m.content)
  {
  }

  /** The chapters of a student turn: the request's chapter, else the
    * session's chosen chapters. */
  function TurnChapters(chapter: Option<string>, c: Conversation): (r: seq<string>)
    ensures AgentChat.Given(chapter) ==> r == [chapter.value]
    ensures !AgentChat.Given(chapter) ==> r == c.selectedChapters
  {
    if AgentChat.Given(chapter) then [chapter.value] else c.selectedChapters
  }

  /** The request for the conversation's assistant, or the reply when the
    * parent of a parent session no longer exists. */
  function RequestFor(c: Conversation, s: StudentRecord, parents: set<Id>, message: string,
                      subName: Option<string>, chapter: Option<string>): (r: Result<AgentRequest>)
  {
    var history := History(c.messages);
    match c.userType
    case StudentUser =>
      Ok(StudentRequest(message, c.studentId, s.gradeName, s.gradeId, s.classId,
                        if AgentChat.Given(subName) then subName else c.subjectContext,
                        history, TurnChapters(chapter, c)))
    case ParentUser =>
      if c.parentId.None? || c.parentId.value !in parents then Err(ParentNotFound)
      else
        Ok(ParentRequest(message, c.parentId.value, c.studentId, s.gradeId, s.classId,
                         AgentChat.GradeFromName(s.gradeName), c.subjectContext, history))
  }

  /** The conversation after a successful turn: the user's message and the
    * reply appended, the activity time moved, and the attention flag
    * raised by a worrying student message. */
  function Recorded(c: Conversation, message: string, reply: string, now: int): Conversation
  {
    c.(messages := c.messages + [StoredMessage("user", message, now), StoredMessage("assistant", reply, now)],
       needsTeacherAttention := c.needsTeacherAttention
                                || (c.userType == StudentUser && StudentAssistant.ShouldNotifyTeacher(message)),
       lastActivity := now)
  }

  /** The collection and reply of `sendMessage`. An assistant that fails
    * gives 500 before anything is saved; a reply without content fails the
    * stored message's required content, so nothing is saved either. */
  function Send(conversations: map<string, Conversation>, students: map<Id, StudentRecord>, parents: set<Id>,
                sessionId: string, message: Option<string>, subName: Option<string>, chapter: Option<string>,
                agent: AgentRequest -> AgentChat.ChatResult, now: int)
    : (map<string, Conversation>, Response<Reply>)
  {
    if message.None? || Blank(message.value) then (conversations, Failure(400, MessageEmpty))
    else if sessionId !in conversations then (conversations, Failure(404, SessionNotFound))
    else
      var c := conversations[sessionId];
      if c.studentId !in students then (conversations, Failure(404, StudentNotFound))
      else
        var request := RequestFor(c, students[c.studentId], parents, message.value, subName, chapter);
        if request.Err? then (conversations, Failure(404, request.error))
        else
          var result := agent(request.value);
          if !result.success then (conversations, Failure(500, GenerateFailed))
          else if !AgentChat.Given(result.response) then (conversations, Failure(500, SendFailed))
          else
            (conversations[sessionId := Recorded(c, message.value, result.response.value, now)],
             Success(200, Reply(result.response.value, result.toolsUsed, sessionId)))
  }

  /** The save step of a turn: both messages appended, the attention flag
    * raised by a worrying student message, the activity time moved. */
  method RecordTurn(c: Conversation, message: string, reply: string, now: int) returns (d: Conversation)
    ensures d == Recorded(c, message, reply, now)
  {
    var messages := c.messages;
    messages := messages + [StoredMessage("user", message, now)];
    messages := messages + [StoredMessage("assistant", reply, now)];
    var flagged := c.needsTeacherAttention;
    if c.userType == StudentUser && StudentAssistant.ShouldNotifyTeacher(message) {
      flagged := true;
    }
    assert messages == c.messages + [StoredMessage("user", message, now), StoredMessage("assistant", reply, now)];
    d := c.(messages := messages, needsTeacherAttention := flagged, lastActivity := now);
  }

  /** `sendMessage`. */
  method SendMessage(store: ConversationStore, students: map<Id, StudentRecord>, parents: set<Id>,
                     sessionId: string, message: Option<string>, subName: Option<string>,
                     chapter: Option<string>, agent: AgentRequest -> AgentChat.ChatResult, now: int)
    returns (r: Response<Reply>)
    modifies store
    ensures (store.conversations, r) == Send(old(store.conversations), students, parents, sessionId, message,
                                             subName, chapter, agent, now)
  {
    if message.None? || Blank(message.value) {
      return Failure(400, MessageEmpty);
    }
    if sessionId !in store.conversations {
      return Failure(404, SessionNotFound);
    }
    var c := store.conversations[sessionId];
    if c.studentId !in students {
      return Failure(404, StudentNotFound);
    }
    var request := RequestFor(c, students[c.studentId], parents, message.value, subName, chapter);
    if request.Err? {
      return Failure(404, request.error);
    }
    var result := agent(request.value);
    if !result.success {
      return Failure(500, GenerateFailed);
    }
    if !AgentChat.Given(result.response) {
      return Failure(500, SendFailed);
    }
    var recorded := RecordTurn(c, message.value, result.response.value, now);
    store.conversations := store.conversations[sessionId := recorded];
    r := Success(200, Reply(result.response.value, result.toolsUsed, sessionId));
  }

  /** Every failure leaves the collection as it was; an empty or blank
    * message is refused with 400 before anything is looked up. */
  lemma SendFailureChangesNothing(conversations: map<string, Conversation>, students: map<Id, StudentRecord>,
                                  parents: set<Id>, sessionId: string, message: Option<string>,
                                  subName: Option<string>, chapter: Option<string>,
                                  agent: AgentRequest -> AgentChat.ChatResult, now: int)
    ensures var (after, r) := Send(conversations, students, parents, sessionId, message, subName, chapter, agent, now);
      (r.Failure? ==> after == conversations)
      && ((message.None? || Blank(message.value)) ==> r == Failure(400, MessageEmpty))
      && (r.Success? ==> sessionId in conversations && conversations[sessionId].studentId in students)
  {
    var res := Send(conversations, students, parents, sessionId, message, subName, chapter, agent, now);
    if message.None? || Blank(message.value) {
      assert res == (conversations, Failure(400, MessageEmpty));
    } else if sessionId !in conversations {
      assert res == (conversations, Failure(404, SessionNotFound));
    } else {
      var c := conversations[sessionId];
      if c.studentId !in students {
        assert res == (conversations, Failure(404, StudentNotFound));
      } else {
        var request := RequestFor(c, students[c.studentId], parents, message.value, subName, chapter);
        if request.Err? {
          assert res == (conversations, Failure(404, request.error));
        } else {
          var result := agent(request.value);
          assert res.1.Failure? ==> res.0 == conversations;
        }
      }
    }
  }

  /** A successful turn appends exactly two messages, the user's then the
    * assistant's reply, moves the activity time, never clears the
    * attention flag, raises it exactly for a worrying student message, and
    * leaves every other field and every other session untouched. */
  lemma SendRecordsExchange(conversations: map<string, Conversation>, students: map<Id, StudentRecord>,
                            parents: set<Id>, sessionId: string, message: Option<string>,
                            subName: Option<string>, chapter: Option<string>,
                            agent: AgentRequest -> AgentChat.ChatResult, now: int)
    requires Send(conversations, students, parents, sessionId, message, subName, chapter, agent, now).1.Success?
    ensures var (after, r) := Send(conversations, students, parents, sessionId, message, subName, chapter, agent, now);
      message.Some? && sessionId in conversations && sessionId in after && r.Success?
      && var c := conversations[sessionId];
      var d := after[sessionId];
      after.Keys == conversations.Keys
      && (forall s :: s in conversations && s != sessionId ==> after[s] == conversations[s])
      && d.messages == c.messages + [StoredMessage("user", message.value, now),
                                     StoredMessage("assistant", r.body.response, now)]
      && r.body.response != "" && d.lastActivity == now
      && (c.needsTeacherAttention ==> d.needsTeacherAttention)
      && (d.needsTeacherAttention <==>
            c.needsTeacherAttention
            || (c.userType == StudentUser && StudentAssistant.ShouldNotifyTeacher(message.value)))
      && d.(messages := c.messages, needsTeacherAttention := c.needsTeacherAttention, lastActivity := c.lastActivity) == c
  {
    var c := conversations[sessionId];
    var request := RequestFor(c, students[c.studentId], parents, message.value, subName, chapter);
    var result := agent(request.value);
    assert Send(conversations, students, parents, sessionId, message, subName, chapter, agent, now)
      == (conversations[sessionId := Recorded(c, message.value, result.response.value, now)],
          Success(200, Reply(result.response.value, result.toolsUsed, sessionId)));
  }

  /** The assistant of a student session receives the latest ten messages,
    * the request's chapter or else the session's chapters, and the
    * request's subject or else the session's; a parent session's assistant
    * receives the child's grade number and the session's subject. */
  lemma RequestContents(c: Conversation, s: StudentRecord, parents: set<Id>, message: string,
                        subName: Option<string>, chapter: Option<string>)
    ensures var r := RequestFor(c, s, parents, message, subName, chapter);
      (r.Ok? ==> r.value.history == History(c.messages) && r.value.message == message
                 && r.value.studentId == c.studentId)
      && (c.userType == StudentUser ==>
            r.Ok? && r.value.StudentRequest?
            && r.value.chapters == (if AgentChat.Given(chapter) then [chapter.value] else c.selectedChapters)
            && r.value.subject == (if AgentChat.Given(subName) then subName else c.subjectContext))
      && (c.userType == ParentUser ==>
            (r.Err? <==> c.parentId.None? || c.parentId.value !in parents)
            && (r.Ok? ==> r.value.ParentRequest? && r.value.grade >= 1 && r.value.subject == c.subjectContext))
  {
  }

  /* ---------- session list and closing ---------- */

  /** The summary of one session: the last message's first 100 characters,
    * or nothing when there are no messages. */
  function SummaryOf(c: Conversation): (s: SessionSummary)
    ensures s.messageCount == |c.messages|
    ensures s.lastMessage.None? <==> c.messages == []
    ensures s.lastMessage.Some? ==>
      |s.lastMessage.value| <= PreviewLength && s.lastMessage.value <= c.messages[|c.messages| - 1].content
    ensures s.lastMessage.Some? && |c.messages[|c.messages| - 1].content| <= PreviewLength ==>
      s.lastMessage.value == c.messages[|c.messages| - 1].content
  {
    SessionSummary(c.sessionId, c.status, c.lastActivity, |c.messages|, c.subjectContext,
                   c.needsTeacherAttention,
                   if c.messages == [] then None else Some(Take(c.messages[|c.messages| - 1].content, PreviewLength)))
  }

  /** Whether a conversation belongs to the student. */
  function OfStudent(studentId: Id): Conversation -> bool
  {
    (c: Conversation) => c.studentId == studentId
  }

  function ActivityKey(c: Conversation): real
  {
    c.lastActivity as real
  }

  /** `getStudentSessions` over the stored conversations (in storage
    * order): the student's sessions, most recently active first. */
  function StudentSessions(stored: seq<Conversation>, studentId: Id): (r: seq<SessionSummary>)
  {
    var mine := SortByDescending(Filter(stored, OfStudent(studentId)), ActivityKey);
    seq(|mine|, k requires 0 <= k < |mine| => SummaryOf(mine[k]))
  }

  /** `s` summarises one of the student's stored conversations. */
  ghost predicate SummaryOfSession(stored: seq<Conversation>, studentId: Id, s: SessionSummary)
  {
    exists c :: c in stored && c.studentId == studentId && s == SummaryOf(c)
  }

  /** The list has one summary per session of the student, each one of
    * the student's sessions, most recently active first. */
  lemma StudentSessionsOrdered(stored: seq<Conversation>, studentId: Id)
    ensures var r := StudentSessions(stored, studentId);
      |r| == |Filter(stored, OfStudent(studentId))|
      && (forall i, j :: 0 <= i < j < |r| ==> r[i].lastActivity >= r[j].lastActivity)
      && (forall k :: 0 <= k < |r| ==> SummaryOfSession(stored, studentId, r[k]))
  {
    SummariesOrdered(stored, studentId);
    SummariesOfStudent(stored, studentId);
  }

  lemma SummariesOrdered(stored: seq<Conversation>, studentId: Id)
    ensures var r := StudentSessions(stored, studentId);
      forall i, j :: 0 <= i < j < |r| ==> r[i].lastActivity >= r[j].lastActivity
  {
    var f := Filter(stored, OfStudent(studentId));
    var mine := SortByDescending(f, ActivityKey);
    var r := StudentSessions(stored, studentId);
    SortByDescendingSorted(f, ActivityKey);
    forall i, j | 0 <= i < j < |r| ensures r[i].lastActivity >= r[j].lastActivity {
      assert ActivityKey(mine[i]) >= ActivityKey(mine[j]);
    }
  }

  lemma SummariesOfStudent(stored: seq<Conversation>, studentId: Id)
    ensures var r := StudentSessions(stored, studentId);
      forall k :: 0 <= k < |r| ==> SummaryOfSession(stored, studentId, r[k])
  {
    var r := StudentSessions(stored, studentId);
    forall k | 0 <= k < |r| ensures SummaryOfSession(stored, studentId, r[k]) {
      SummaryOfStudent(stored, studentId, k);
    }
  }

  lemma SummaryOfStudent(stored: seq<Conversation>, studentId: Id, k: nat)
    requires k < |StudentSessions(stored, studentId)|
    ensures var c := SortByDescending(Filter(stored, OfStudent(studentId)), ActivityKey)[k];
      c in stored && c.studentId == studentId && StudentSessions(stored, studentId)[k] == SummaryOf(c)
  {
    SortedSelectionMember(stored, OfStudent(studentId), ActivityKey, k);
  }



  /** The collection and reply of `closeChatSession`. */
  function Close(conversations: map<string, Conversation>, sessionId: string)
    : (map<string, Conversation>, Response<string>)
  {
    if sessionId !in conversations then (conversations, Failure(404, SessionNotFound))
    else (conversations[sessionId := conversations[sessionId].(status := ClosedChat)],
          Success(200, "Chat session closed successfully"))
  }

  /** `closeChatSession`. */
  method CloseChatSession(store: ConversationStore, sessionId: string) returns (r: Response<string>)
    modifies store
    ensures (store.conversations, r) == Close(old(store.conversations), sessionId)
  {
    if sessionId !in store.conversations {
      return Failure(404, SessionNotFound);
    }
    var c := store.conversations[sessionId];
    store.conversations := store.conversations[sessionId := c.(status := ClosedChat)];
    r := Success(200, "Chat session closed successfully");
  }

  /** Closing sets the status of the named session to Closed and changes
    * nothing else; an unknown session gives 404 and changes nothing.
    * Closing twice is the same as closing once. */
  lemma CloseEffect(conversations: map<string, Conversation>, sessionId: string)
    ensures var (after, r) := Close(conversations, sessionId);
      (sessionId !in conversations ==> after == conversations && r == Failure(404, SessionNotFound))
      && (sessionId in conversations ==>
            r.Success? && after.Keys == conversations.Keys && after[sessionId].status == ClosedChat
            && after[sessionId].(status := conversations[sessionId].status) == conversations[sessionId]
            && (forall s :: s in conversations && s != sessionId ==> after[s] == conversations[s]))
      && Close(after, sessionId).0 == after
  {
  }
}
