/** The tool-calling conversation both assistant agents run: up to three
  * rounds in which the language model either answers or asks for tools;
  * each tool call has its arguments completed from the user's record, is
  * executed, and its output is appended to the conversation. The model and
  * the tools are parameters: `respond` gives the model's next message for a
  * conversation (`None` when the request fails) and `run` gives a tool's
  * output, already serialised (`None` when the tool throws). Anything that
  * throws ends the conversation in the catch, which answers with the
  * apology and no tool list. */
module AgentChat {
  import opened Core

  const MaxIterations: nat := 3
  const NeedMoreInfo := "I need more information to help you."
  const Trouble := "I'm having trouble right now. Please try again in a moment."

  /** The arguments a tool call may carry. */
  datatype ToolArgs = ToolArgs(studentId: Option<string>, grade: Option<int>, subject: Option<string>,
                               timePeriod: Option<string>, query: Option<string>, topic: Option<string>)

  datatype ToolCall = ToolCall(id: string, name: string, args: ToolArgs)

  datatype Message = Message(role: string, content: Option<string>, toolCalls: seq<ToolCall>, toolCallId: Option<string>)

  datatype ToolUse = ToolUse(name: string, args: ToolArgs)

  datatype ChatResult = ChatResult(success: bool, response: Option<string>, toolsUsed: seq<ToolUse>)

  /** A present, non-empty string (JavaScript truthiness). */
  predicate Given(s: Option<string>)
  {
    s.Some? && s.value != ""
  }

  /** The conversation sent first: the system prompt, the earlier turns and
    * the new question. */
  function Opening(systemPrompt: string, history: seq<Message>, query: string): (r: seq<Message>)
    ensures |r| == |history| + 2 && r[0].role == "system" && r[|r| - 1].content == Some(query)
  {
    [Message("system", Some(systemPrompt), [], None)] + history + [Message("user", Some(query), [], None)]
  }

  function ToolMessage(id: string, output: string): Message
  {
    Message("tool", Some(output), [], Some(id))
  }

  /** Some call of the round throws when run. */
  ghost predicate SomeToolThrows(calls: seq<ToolCall>, inject: ToolArgs -> ToolArgs,
                                 run: (string, ToolArgs) -> Option<string>)
  {
    exists k :: 0 <= k < |calls| && run(calls[k].name, inject(calls[k].args)).None?
  }

  /** One round of tool calls, in order: every call's arguments completed by
    * `inject`, its output appended as a tool message and the call recorded;
    * `None` when a call throws. */
  function ToolRound(messages: seq<Message>, used: seq<ToolUse>, calls: seq<ToolCall>,
                     inject: ToolArgs -> ToolArgs, run: (string, ToolArgs) -> Option<string>)
    : (r: Option<(seq<Message>, seq<ToolUse>)>)
    ensures r.None? <==> SomeToolThrows(calls, inject, run)
    ensures r.Some? ==>
      |r.value.0| == |messages| + |calls| && |r.value.1| == |used| + |calls|
      && r.value.0[..|messages|] == messages && r.value.1[..|used|] == used
      && forall k :: 0 <= k < |calls| ==>
           r.value.1[|used| + k] == ToolUse(calls[k].name, inject(calls[k].args))
           && r.value.0[|messages| + k] == ToolMessage(calls[k].id, run(calls[k].name, inject(calls[k].args)).value)
  {
    if calls == [] then Some((messages, used))
    else
      var init := calls[..|calls| - 1];
      var prev := ToolRound(messages, used, init, inject, run);
      var c := calls[|calls| - 1];
      var args := inject(c.args);
      var out := run(c.name, args);
      ThrowsExtend(init, c, inject, run);
      assert calls == init + [c];
      if prev.None? || out.None? then None
      else Some((prev.value.0 + [ToolMessage(c.id, out.value)], prev.value.1 + [ToolUse(c.name, args)]))
  }

  lemma ThrowsExtend(init: seq<ToolCall>, c: ToolCall, inject: ToolArgs -> ToolArgs,
                     run: (string, ToolArgs) -> Option<string>)
    ensures SomeToolThrows(init + [c], inject, run)
      <==> SomeToolThrows(init, inject, run) || run(c.name, inject(c.args)).None?
  {
    var calls := init + [c];
    if SomeToolThrows(init, inject, run) {
      var k :| 0 <= k < |init| && run(init[k].name, inject(init[k].args)).None?;
      assert calls[k] == init[k];
    }
    if run(c.name, inject(c.args)).None? {
      assert calls[|init|] == c;
    }
    if SomeToolThrows(calls, inject, run) {
      var k :| 0 <= k < |calls| && run(calls[k].name, inject(calls[k].args)).None?;
      if k < |init| {
        assert calls[k] == init[k];
      }
    }
  }

  /** The reply once the rounds are used up: the last message's content,
    * or the fallback line when it has none. */
  function FinalReply(messages: seq<Message>): string
    requires messages != []
  {
    var last := messages[|messages| - 1];
    if Given(last.content) then last.content.value else NeedMoreInfo
  }

  /** What the catch answers with. */
  const Failed := ChatResult(false, Some(Trouble), [])

  /** The conversation from round `iteration` on, as written. */
  function Converse(messages: seq<Message>, used: seq<ToolUse>, iteration: nat,
                    respond: seq<Message> -> Option<Message>, inject: ToolArgs -> ToolArgs,
                    run: (string, ToolArgs) -> Option<string>): ChatResult
    requires messages != [] && iteration <= MaxIterations
    decreases MaxIterations - iteration
  {
    if iteration == MaxIterations then ChatResult(true, Some(FinalReply(messages)), used)
    else
      var reply := respond(messages);
      if reply.None? then Failed
      else if |reply.value.toolCalls| > 0 then
        var next := ToolRound(messages + [reply.value], used, reply.value.toolCalls, inject, run);
        if next.None? then Failed
        else Converse(next.value.0, next.value.1, iteration + 1, respond, inject, run)
      else ChatResult(true, reply.value.content, used)
  }

  /** `chat`: the loop over the rounds, appending to the conversation. */
  method Chat(systemPrompt: string, history: seq<Message>, query: string,
              respond: seq<Message> -> Option<Message>, inject: ToolArgs -> ToolArgs,
              run: (string, ToolArgs) -> Option<string>) returns (result: ChatResult)
    ensures result == Converse(Opening(systemPrompt, history, query), [], 0, respond, inject, run)
  {
    var messages := Opening(systemPrompt, history, query);
    var toolsUsed: seq<ToolUse> := [];
    var iteration := 0;
    while iteration < MaxIterations
      invariant iteration <= MaxIterations && messages != []
      invariant Converse(messages, toolsUsed, iteration, respond, inject, run)
        == Converse(Opening(systemPrompt, history, query), [], 0, respond, inject, run)
    {
      ghost var round := (messages, toolsUsed, iteration);
      iteration := iteration + 1;
      var reply := respond(messages);
      if reply.None? {
        return Failed;
      }
      if |reply.value.toolCalls| > 0 {
        messages := messages + [reply.value];
        ghost var start := (messages, toolsUsed);
        var calls := reply.value.toolCalls;
        var j := 0;
        while j < |calls|
          invariant 0 <= j <= |calls|
          invariant ToolRound(start.0, start.1, calls[..j], inject, run) == Some((messages, toolsUsed))
        {
          assert calls[..j + 1][..j] == calls[..j];
          var args := inject(calls[j].args);
          var out := run(calls[j].name, args);
          if out.None? {
            RoundThrows(start.0, start.1, calls, j, inject, run);
            assert Converse(round.0, round.1, round.2, respond, inject, run) == Failed;
            return Failed;
          }
          messages := messages + [ToolMessage(calls[j].id, out.value)];
          toolsUsed := toolsUsed + [ToolUse(calls[j].name, args)];
          j := j + 1;
        }
        assert calls[..j] == calls;
      } else {
        return ChatResult(true, reply.value.content, toolsUsed);
      }
    }
    result := ChatResult(true, Some(FinalReply(messages)), toolsUsed);
  }

  lemma RoundThrows(messages: seq<Message>, used: seq<ToolUse>, calls: seq<ToolCall>, j: nat,
                    inject: ToolArgs -> ToolArgs, run: (string, ToolArgs) -> Option<string>)
    requires j < |calls| && run(calls[j].name, inject(calls[j].args)).None?
    ensures ToolRound(messages, used, calls, inject, run).None?
  {
    assert SomeToolThrows(calls, inject, run);
  }

  /** A round in which a tool throws ends the conversation with the
    * apology, whatever came before it. */
  lemma ToolFailureFails(messages: seq<Message>, used: seq<ToolUse>, iteration: nat,
                         respond: seq<Message> -> Option<Message>, inject: ToolArgs -> ToolArgs,
                         run: (string, ToolArgs) -> Option<string>, j: nat)
    requires messages != [] && iteration < MaxIterations && respond(messages).Some?
    requires var calls := respond(messages).value.toolCalls;
      j < |calls| && run(calls[j].name, inject(calls[j].args)).None?
    ensures Converse(messages, used, iteration, respond, inject, run) == Failed
  {
    var reply := respond(messages).value;
    RoundThrows(messages + [reply], used, reply.toolCalls, j, inject, run);
  }

  /** Every recorded tool use carries arguments completed by `inject`. */
  ghost predicate AllInjected(used: seq<ToolUse>, inject: ToolArgs -> ToolArgs)
  {
    forall k :: 0 <= k < |used| ==> exists a :: used[k].args == inject(a)
  }

  /** The conversation records only tool uses whose arguments went through
    * `inject`. */
  lemma {:induction false} ToolsUsedInjected(messages: seq<Message>, used: seq<ToolUse>, iteration: nat,
                                             respond: seq<Message> -> Option<Message>,
                                             inject: ToolArgs -> ToolArgs, run: (string, ToolArgs) -> Option<string>)
    requires messages != [] && iteration <= MaxIterations
    requires AllInjected(used, inject)
    ensures AllInjected(Converse(messages, used, iteration, respond, inject, run).toolsUsed, inject)
    decreases MaxIterations - iteration
  {
    if iteration < MaxIterations {
      var reply := respond(messages);
      if reply.Some? && |reply.value.toolCalls| > 0 {
        var calls := reply.value.toolCalls;
        var next := ToolRound(messages + [reply.value], used, calls, inject, run);
        if next.Some? {
          var (ms, us) := next.value;
          forall k | 0 <= k < |us| ensures exists a :: us[k].args == inject(a) {
            if k < |used| {
              assert us[k] == used[k];
            } else {
              assert us[k].args == inject(calls[k - |used|].args);
            }
          }
          assert AllInjected(us, inject);
          ToolsUsedInjected(ms, us, iteration + 1, respond, inject, run);
          assert Converse(messages, used, iteration, respond, inject, run)
            == Converse(ms, us, iteration + 1, respond, inject, run);
        } else {
          assert Converse(messages, used, iteration, respond, inject, run) == Failed;
        }
      } else if reply.None? {
        assert Converse(messages, used, iteration, respond, inject, run) == Failed;
      } else {
        assert Converse(messages, used, iteration, respond, inject, run).toolsUsed == used;
      }
    } else {
      assert Converse(messages, used, iteration, respond, inject, run).toolsUsed == used;
    }
  }

  /** A model that answers at once: its answer is the reply and no tool is used. */
  lemma DirectAnswer(systemPrompt: string, history: seq<Message>, query: string,
                     respond: seq<Message> -> Option<Message>, inject: ToolArgs -> ToolArgs,
                     run: (string, ToolArgs) -> Option<string>)
    requires var first := respond(Opening(systemPrompt, history, query));
      first.Some? && first.value.toolCalls == []
    ensures Converse(Opening(systemPrompt, history, query), [], 0, respond, inject, run)
      == ChatResult(true, respond(Opening(systemPrompt, history, query)).value.content, [])
  {
  }

  /* ---------- the rounds used up ---------- */

  /** As written: when the model asks for tools in every round and no tool
    * throws, the reply is the serialised output of the last tool run, not
    * an answer. */
  lemma ExhaustedReplyIsToolOutput(messages: seq<Message>, used: seq<ToolUse>, iteration: nat,
                                   respond: seq<Message> -> Option<Message>,
                                   inject: ToolArgs -> ToolArgs, run: (string, ToolArgs) -> Option<string>)
    requires messages != [] && iteration < MaxIterations
    requires forall m :: respond(m).Some? && |respond(m).value.toolCalls| > 0
    requires forall n, a :: run(n, a).Some? && run(n, a).value != ""
    ensures var r := Converse(messages, used, iteration, respond, inject, run);
      r.success && exists n, a :: r.response == Some(run(n, a).value)
    decreases MaxIterations - iteration
  {
    var reply := respond(messages).value;
    var calls := reply.toolCalls;
    var next := ToolRound(messages + [reply], used, calls, inject, run);
    assert next.Some?;
    var (ms, us) := next.value;
    var c := calls[|calls| - 1];
    var lastOut := run(c.name, inject(c.args)).value;
    assert ms[|ms| - 1] == ToolMessage(c.id, lastOut);
    if iteration + 1 < MaxIterations {
      ExhaustedReplyIsToolOutput(ms, us, iteration + 1, respond, inject, run);
    } else {
      assert Converse(messages, used, iteration, respond, inject, run)
        == ChatResult(true, Some(lastOut), us);
    }
  }

  /** As intended: once the rounds are used up without an answer, the
    * fallback line is the reply. */
  function ConverseFixed(messages: seq<Message>, used: seq<ToolUse>, iteration: nat,
                         respond: seq<Message> -> Option<Message>, inject: ToolArgs -> ToolArgs,
                         run: (string, ToolArgs) -> Option<string>): ChatResult
    requires iteration <= MaxIterations
    decreases MaxIterations - iteration
  {
    if iteration == MaxIterations then ChatResult(true, Some(NeedMoreInfo), used)
    else
      var reply := respond(messages);
      if reply.None? then Failed
      else if |reply.value.toolCalls| > 0 then
        var next := ToolRound(messages + [reply.value], used, reply.value.toolCalls, inject, run);
        if next.None? then Failed
        else ConverseFixed(next.value.0, next.value.1, iteration + 1, respond, inject, run)
      else ChatResult(true, reply.value.content, used)
  }

  /** The corrected loop answers with the model's own words, the fallback
    * line or the apology, never with a tool's output. */
  lemma {:induction false} FixedReplyIsNeverToolOutput(messages: seq<Message>, used: seq<ToolUse>, iteration: nat,
                                                       respond: seq<Message> -> Option<Message>,
                                                       inject: ToolArgs -> ToolArgs,
                                                       run: (string, ToolArgs) -> Option<string>)
    requires iteration <= MaxIterations
    ensures var r := ConverseFixed(messages, used, iteration, respond, inject, run);
      r.response == Some(NeedMoreInfo) || r.response == Some(Trouble)
      || exists m :: respond(m).Some? && respond(m).value.toolCalls == [] && r.response == respond(m).value.content
    decreases MaxIterations - iteration
  {
    if iteration < MaxIterations {
      var reply := respond(messages);
      if reply.Some? && |reply.value.toolCalls| > 0 {
        var next := ToolRound(messages + [reply.value], used, reply.value.toolCalls, inject, run);
        if next.Some? {
          FixedReplyIsNeverToolOutput(next.value.0, next.value.1, iteration + 1, respond, inject, run);
        }
      }
    }
  }

  /** The corrected loop gives the fallback line when every round asks for
    * tools and none throws. */
  lemma FixedExhaustedSaysNeedMoreInfo(messages: seq<Message>, used: seq<ToolUse>, iteration: nat,
                                       respond: seq<Message> -> Option<Message>,
                                       inject: ToolArgs -> ToolArgs, run: (string, ToolArgs) -> Option<string>)
    requires iteration <= MaxIterations
    requires forall m :: respond(m).Some? && |respond(m).value.toolCalls| > 0
    requires forall n, a :: run(n, a).Some?
    ensures ConverseFixed(messages, used, iteration, respond, inject, run).response == Some(NeedMoreInfo)
    decreases MaxIterations - iteration
  {
    if iteration < MaxIterations {
      var reply := respond(messages).value;
      var next := ToolRound(messages + [reply], used, reply.toolCalls, inject, run);
      assert next.Some?;
      FixedExhaustedSaysNeedMoreInfo(next.value.0, next.value.1, iteration + 1, respond, inject, run);
    }
  }

  /* ---------- argument completion and grade ---------- */

  /** The student agent's completion: a missing student id is taken from
    * the student's record. */
  function InjectStudent(studentId: Option<string>): ToolArgs -> ToolArgs
  {
    (a: ToolArgs) => if !Given(a.studentId) && Given(studentId) then a.(studentId := studentId) else a
  }

  /** A grade argument is present when it is a non-zero number. */
  predicate GradeGiven(g: Option<int>)
  {
    g.Some? && g.value != 0
  }

  /** The parent agent's completion: a missing student id and a missing
    * grade are taken from the child's record. */
  function InjectChild(studentId: Option<string>, grade: Option<int>): ToolArgs -> ToolArgs
  {
    (a: ToolArgs) =>
      var withId := if !Given(a.studentId) && Given(studentId) then a.(studentId := studentId) else a;
      if !GradeGiven(withId.grade) && GradeGiven(grade) then withId.(grade := grade) else withId
  }

  /** Completion never overrides an argument the model gave, fills the
    * missing ones from the child, and touches nothing else. */
  lemma InjectChildEffect(studentId: Option<string>, grade: Option<int>, a: ToolArgs)
    ensures var r := InjectChild(studentId, grade)(a);
      (Given(a.studentId) ==> r.studentId == a.studentId)
      && (!Given(a.studentId) ==> r.studentId == (if Given(studentId) then studentId else a.studentId))
      && (GradeGiven(a.grade) ==> r.grade == a.grade)
      && (!GradeGiven(a.grade) ==> r.grade == (if GradeGiven(grade) then grade else a.grade))
      && r.(studentId := a.studentId, grade := a.grade) == a
      && (Given(studentId) ==> Given(r.studentId))
  {
  }

  lemma InjectStudentEffect(studentId: Option<string>, a: ToolArgs)
    ensures var r := InjectStudent(studentId)(a);
      (Given(a.studentId) ==> r == a)
      && (!Given(a.studentId) && Given(studentId) ==> r == a.(studentId := studentId))
  {
  }

  /** The digits of a grade name as a number, 8 when there are none or
    * they read as zero (`parseInt(...) || 8`). */
  function GradeFromName(gradeName: string): (r: nat)
    ensures r >= 1
  {
    var digits := Filter(gradeName, (c: char) => '0' <= c <= '9');
    if digits == [] then 8
    else
      var v := DigitsNumber(digits);
      if v == 0 then 8 else v
  }

  /** The value of a run of decimal digits. */
  function DigitsNumber(s: string): nat
  {
    if s == [] then 0
    else
      var c := s[|s| - 1];
      DigitsNumber(s[..|s| - 1]) * 10 + (if '0' <= c <= '9' then (c as int - '0' as int) as nat else 0)
  }

  /** The parent agent always has a grade to fill in. */
  lemma ChildGradeAlwaysGiven(gradeName: string)
    ensures GradeGiven(Some(GradeFromName(gradeName) as int))
  {
  }
}
