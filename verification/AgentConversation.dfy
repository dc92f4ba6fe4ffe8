/** The chat history of internal/ai: what a provider accepts, and what is missing from it while a
    change waits for approval. */
module AgentConversation {
  import opened Wrappers

  datatype Role = SystemRole | UserRole | AssistantRole | ToolRole

  datatype ToolCall = ToolCall(id: string, name: string, arguments: string)

  datatype Message = Message(role: Role, content: string, toolCalls: seq<ToolCall>, toolCallId: string)

  function Note(content: string): Message { Message(SystemRole, content, [], "") }
  function Reply(content: string, calls: seq<ToolCall>): Message { Message(AssistantRole, content, calls, "") }
  function ToolResult(callId: string, content: string): Message { Message(ToolRole, content, [], callId) }

  function CallIds(calls: seq<ToolCall>): multiset<string> {
    if calls == [] then multiset{} else CallIds(calls[..|calls| - 1]) + multiset{calls[|calls| - 1].id}
  }

  /** The ids answered by the unbroken block of tool messages that starts at i. */
  function Answers(ms: seq<Message>, i: nat): seq<string>
    requires i <= |ms|
    decreases |ms| - i
  {
    if i < |ms| && ms[i].role == ToolRole then [ms[i].toolCallId] + Answers(ms, i + 1) else []
  }

  predicate Calls(m: Message) { m.role == AssistantRole && m.toolCalls != [] }

  /** Every assistant message with tool calls is followed, before the next message that is not a
      tool message, by results whose ids are exactly its call ids. */
  ghost predicate WellAnswered(ms: seq<Message>) {
    forall i {:trigger ms[i]} | 0 <= i < |ms| && Calls(ms[i]) ::
      multiset(Answers(ms, i + 1)) == CallIds(ms[i].toolCalls)
  }

  /** The last assistant message with tool calls lacks exactly one result, that of `id`; everything
      before it is well answered. */
  ghost predicate LacksOnly(ms: seq<Message>, id: string) {
    exists k | 0 <= k < |ms| :: Calls(ms[k]) && WellAnswered(ms[..k]) && k + 1 + |Answers(ms, k + 1)| == |ms|
      && multiset(Answers(ms, k + 1)) + multiset{id} == CallIds(ms[k].toolCalls)
  }

  // ----- the same, tracked message by message -----

  /** The ids still to be answered before the conversation may go on, or None once a message came
      out of turn. */
  function Outstanding(ms: seq<Message>): Option<multiset<string>> {
    if ms == [] then Some(multiset{})
    else
      var m := ms[|ms| - 1];
      match Outstanding(ms[..|ms| - 1])
      case None => None
      case Some(open) =>
        if m.role == ToolRole then (if m.toolCallId in open then Some(open - multiset{m.toolCallId}) else None)
        else if open != multiset{} then None
        else if m.role == AssistantRole then Some(CallIds(m.toolCalls)) else Some(multiset{})
  }

  predicate Settled(ms: seq<Message>) { Outstanding(ms) == Some(multiset{}) }

  lemma OutstandingSnoc(ms: seq<Message>, m: Message)
    ensures (ms + [m])[..|ms + [m]| - 1] == ms
    ensures Settled(ms) && m.role != ToolRole ==>
      Outstanding(ms + [m]) == Some(if m.role == AssistantRole then CallIds(m.toolCalls) else multiset{})
    ensures Outstanding(ms).Some? && m.role == ToolRole && m.toolCallId in Outstanding(ms).value ==>
      Outstanding(ms + [m]) == Some(Outstanding(ms).value - multiset{m.toolCallId})
  {
    assert (ms + [m])[..|ms + [m]| - 1] == ms;
  }

  lemma {:induction false} AnswersSnoc(ms: seq<Message>, m: Message, i: nat)
    requires i <= |ms|
    ensures i + |Answers(ms, i)| <= |ms|
    ensures Answers(ms + [m], i) ==
      if m.role == ToolRole && i + |Answers(ms, i)| == |ms| then Answers(ms, i) + [m.toolCallId] else Answers(ms, i)
    decreases |ms| - i
  {
    if i < |ms| && ms[i].role == ToolRole { AnswersSnoc(ms, m, i + 1); }
  }

  lemma {:induction false} CallIdsEmpty(calls: seq<ToolCall>)
    ensures CallIds(calls) == multiset{} <==> calls == []
  {
  }

  ghost predicate AnsweredSoFar(ms: seq<Message>, open: multiset<string>, i: nat)
    requires i < |ms| && Calls(ms[i])
  {
    var block := Answers(ms, i + 1);
    if i + 1 + |block| == |ms| then multiset(block) + open == CallIds(ms[i].toolCalls)
    else multiset(block) == CallIds(ms[i].toolCalls)
  }

  /** One more message keeps the account of every earlier block. */
  lemma AnsweredSnoc(front: seq<Message>, m: Message, open: multiset<string>, i: nat)
    requires i < |front| && Calls(front[i]) && AnsweredSoFar(front, open, i)
    requires if m.role == ToolRole then m.toolCallId in open else open == multiset{}
    ensures forall next :: (m.role == ToolRole ==> next == open - multiset{m.toolCallId}) ==>
      AnsweredSoFar(front + [m], next, i)
  {
    AnswersSnoc(front, m, i + 1);
    var block := Answers(front, i + 1);
    if m.role == ToolRole && i + 1 + |block| == |front| {
      assert multiset(block + [m.toolCallId]) == multiset(block) + multiset{m.toolCallId};
      assert open == open - multiset{m.toolCallId} + multiset{m.toolCallId};
    }
  }

  lemma {:induction false} OutstandingAnswers(ms: seq<Message>, i: nat)
    requires Outstanding(ms).Some? && i < |ms| && Calls(ms[i])
    ensures AnsweredSoFar(ms, Outstanding(ms).value, i)
  {
    var front, m := ms[..|ms| - 1], ms[|ms| - 1];
    assert ms == front + [m];
    if i < |front| {
      OutstandingAnswers(front, i);
      AnsweredSnoc(front, m, Outstanding(front).value, i);
    }
  }

  /** Nothing outstanding means that every call has been answered in place. */
  lemma SettledIsWellAnswered(ms: seq<Message>)
    requires Settled(ms)
    ensures WellAnswered(ms)
  {
    forall i | 0 <= i < |ms| && Calls(ms[i]) ensures multiset(Answers(ms, i + 1)) == CallIds(ms[i].toolCalls) {
      OutstandingAnswers(ms, i);
    }
  }

  /** Something outstanding belongs to the last message with tool calls, and to it alone. */
  lemma {:induction false} LastCaller(ms: seq<Message>) returns (k: nat)
    requires Outstanding(ms).Some? && Outstanding(ms).value != multiset{}
    ensures k < |ms| && Calls(ms[k]) && Settled(ms[..k]) && k + 1 + |Answers(ms, k + 1)| == |ms|
  {
    var front, m := ms[..|ms| - 1], ms[|ms| - 1];
    assert ms == front + [m];
    if m.role == ToolRole {
      assert m.toolCallId in Outstanding(front).value;
      k := LastCaller(front);
      AnswersSnoc(front, m, k + 1);
      assert ms[..k] == front[..k];
    } else {
      k := |front|;
      assert ms[..k] == front && Settled(front);
      CallIdsEmpty(m.toolCalls);
    }
  }

  lemma OneOutstandingLacksOnly(ms: seq<Message>, id: string)
    requires Outstanding(ms) == Some(multiset{id})
    ensures LacksOnly(ms, id)
  {
    var k := LastCaller(ms);
    SettledIsWellAnswered(ms[..k]);
    OutstandingAnswers(ms, k);
  }

  /** A chat starts with a system message and content-only turns. */
  lemma {:induction false} PlainIsSettled(ms: seq<Message>)
    requires forall i | 0 <= i < |ms| :: ms[i].role != ToolRole && ms[i].toolCalls == []
    ensures Settled(ms)
  {
    if ms != [] {
      PlainIsSettled(ms[..|ms| - 1]);
      assert ms == ms[..|ms| - 1] + [ms[|ms| - 1]];
      OutstandingSnoc(ms[..|ms| - 1], ms[|ms| - 1]);
    }
  }

  // ----- in plain terms -----

  lemma {:induction false} CallIdsAre(calls: seq<ToolCall>)
    ensures CallIds(calls) == multiset(seq(|calls|, k requires 0 <= k < |calls| => calls[k].id))
  {
    if calls != [] {
      var n := |calls| - 1;
      CallIdsAre(calls[..n]);
      var ids := seq(|calls|, k requires 0 <= k < |calls| => calls[k].id);
      assert ids == seq(n, k requires 0 <= k < n => calls[..n][k].id) + [calls[n].id];
    }
  }

  ghost predicate IsBlock(ms: seq<Message>, i: nat, ids: seq<string>) {
    && i + |ids| <= |ms|
    && (forall j | i <= j < i + |ids| :: ms[j].role == ToolRole && ms[j].toolCallId == ids[j - i])
    && (i + |ids| < |ms| ==> ms[i + |ids|].role != ToolRole)
  }

  /** The answers at i are the ids of the tool messages from i on, up to the first message of another kind. */
  lemma {:induction false} AnswersAreABlock(ms: seq<Message>, i: nat)
    requires i <= |ms|
    ensures IsBlock(ms, i, Answers(ms, i))
    decreases |ms| - i
  {
    if i < |ms| && ms[i].role == ToolRole {
      AnswersAreABlock(ms, i + 1);
      var ids, rest := Answers(ms, i), Answers(ms, i + 1);
      forall j | i <= j < i + |ids| ensures ms[j].role == ToolRole && ms[j].toolCallId == ids[j - i] {
        if j > i { assert ms[j].toolCallId == rest[j - (i + 1)]; }
      }
    }
  }
}
