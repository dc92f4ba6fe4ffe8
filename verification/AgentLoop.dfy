/** The assistant's loop between model and tools, with its pause for approval and its resumption. */
module AgentLoop {
  import opened Wrappers
  import Text
  import opened AgentConversation
  import opened AgentSessions
  import Seqs

  const MAX_ITERATIONS := 12
  const MAX_EMPTY_RESPONSES := 2
  const MAX_TOOL_RESULT := 64 * 1024

  const MUTATION_TOOLS := {"create_resource", "update_resource", "patch_resource", "delete_resource"}
  predicate IsMutation(tool: string) { tool in MUTATION_TOOLS }

  datatype Reason = Provider(message: string) | EmptyReplies | TooManyPending | TooManyIterations
                  | NotYours | GoneOrExpired | NotConfigured

  datatype Event =
    | TextDelta(content: string)
    | ToolCalled(call: ToolCall)
    | ToolFinished(name: string, callId: string, result: string, isErr: bool)
    | ActionRequired(call: ToolCall, sessionId: string)
    | Error(reason: Reason)
    | Done

  predicate IsFinal(e: Event) { e.Error? || e.Done? || e.ActionRequired? }

  /** One final event, and it is the last. */
  ghost predicate EndsOnce(events: seq<Event>) {
    events != [] && IsFinal(events[|events| - 1]) && forall i | 0 <= i < |events| - 1 :: !IsFinal(events[i])
  }

  ghost predicate Ongoing(events: seq<Event>) { forall e | e in events :: !IsFinal(e) }

  datatype Streamed = Streamed(deltas: seq<string>, calls: seq<ToolCall>, failure: Option<string>)

  /** The model provider, the authorizer and the read-only tools, by turn and position in the turn. */
  datatype World = World(
    stream: (nat, seq<Message>) -> Streamed,
    deny: (nat, nat, ToolCall) -> string,
    execute: (nat, nat, ToolCall) -> Result<string, string>,
    skipped: string,   // fixed text for calls after the proposal
    nudge: string)     // fixed text after an empty reply

  function Limit(result: string): string {
    if |result| <= MAX_TOOL_RESULT then result else result[..MAX_TOOL_RESULT] + "\n...(truncated)..."
  }

  function RawText(r: Result<string, string>): string {
    match r case Ok(text) => text case Err(e) => "Tool error: " + e
  }

  function ToolText(r: Result<string, string>): string { Limit(RawText(r)) }

  /** t is s, or if s is longer than 64 Ki its beginning with a note behind it. */
  ghost predicate IsShortOf(s: string, t: string) {
    if |s| <= 65536 then t == s
    else |t| == 65536 + 18 && t[..65536] == s[..65536] && t[65536..] == "\n...(truncated)..."
  }

  /** The text of a tool's result, or of its error, shortened. */
  ghost predicate TellsResult(r: Result<string, string>, t: string) {
    match r case Ok(text) => IsShortOf(text, t) case Err(e) => IsShortOf("Tool error: " + e, t)
  }

  lemma ToolTextTells(r: Result<string, string>)
    ensures TellsResult(r, ToolText(r))
  {
    LimitShortens(RawText(r));
  }

  lemma LimitShortens(s: string)
    ensures IsShortOf(s, Limit(s))
  {
    if |s| > 65536 { assert |"\n...(truncated)..."| == 18; }
  }

  datatype Request = Request(user: nat, cluster: string, clientIp: string)

  /** An invocation of a tool by the loop. */
  datatype Invocation = Invocation(turn: nat, index: nat, call: ToolCall)

  // ----- one turn -----

  predicate Allowed(world: World, turn: nat, calls: seq<ToolCall>, k: nat)
    requires k < |calls|
  {
    world.deny(turn, k, calls[k]) == ""
  }

  /** Position k asks for an authorised change. */
  predicate Proposes(world: World, turn: nat, calls: seq<ToolCall>, k: nat)
    requires k < |calls|
  {
    Allowed(world, turn, calls, k) && IsMutation(calls[k].name)
  }

  /** k is the first authorised change of the turn, or |calls| when there is none. */
  ghost predicate FirstProposal(world: World, turn: nat, calls: seq<ToolCall>, k: nat) {
    && k <= |calls|
    && (k < |calls| ==> Proposes(world, turn, calls, k))
    && forall j | 0 <= j < k :: !Proposes(world, turn, calls, j)
  }

  /** What the conversation records for position k when the first proposal is at p. */
  function AnswerAt(world: World, turn: nat, calls: seq<ToolCall>, p: nat, k: nat): seq<Message>
    requires k < |calls|
  {
    if k == p then []
    else if p < k then [ToolResult(calls[k].id, world.skipped)]
    else if !Allowed(world, turn, calls, k) then
      [ToolResult(calls[k].id, "Forbidden: " + world.deny(turn, k, calls[k]))]
    else [ToolResult(calls[k].id, ToolText(world.execute(turn, k, calls[k])))]
  }

  function AnswersUpTo(world: World, turn: nat, calls: seq<ToolCall>, p: nat, n: nat): seq<Message>
    requires n <= |calls|
  {
    if n == 0 then [] else AnswersUpTo(world, turn, calls, p, n - 1) + AnswerAt(world, turn, calls, p, n - 1)
  }

  /** What the loop executes at position k when the first proposal is at p. */
  predicate Executes(world: World, turn: nat, calls: seq<ToolCall>, p: nat, k: nat)
    requires k < |calls|
  {
    k < p && Allowed(world, turn, calls, k) && !IsMutation(calls[k].name)
  }

  /** The events of position k: the call is announced, and answered unless it is the proposal. */
  function EventsAt(world: World, turn: nat, calls: seq<ToolCall>, p: nat, k: nat): seq<Event>
    requires k < |calls|
  {
    var answer := AnswerAt(world, turn, calls, p, k);
    if answer == [] then [ToolCalled(calls[k])]
    else [ToolCalled(calls[k]),
          ToolFinished(calls[k].name, calls[k].id, answer[0].content, IsError(world, turn, calls, p, k))]
  }

  predicate IsError(world: World, turn: nat, calls: seq<ToolCall>, p: nat, k: nat)
    requires k < |calls|
  {
    k < p && (!Allowed(world, turn, calls, k) || world.execute(turn, k, calls[k]).Err?)
  }

  function EventsUpTo(world: World, turn: nat, calls: seq<ToolCall>, p: nat, n: nat): seq<Event>
    requires n <= |calls|
  {
    if n == 0 then [] else EventsUpTo(world, turn, calls, p, n - 1) + EventsAt(world, turn, calls, p, n - 1)
  }

  function LogAt(world: World, turn: nat, calls: seq<ToolCall>, p: nat, k: nat): seq<Invocation>
    requires k < |calls|
  {
    if Executes(world, turn, calls, p, k) then [Invocation(turn, k, calls[k])] else []
  }

  function InvokedUpTo(world: World, turn: nat, calls: seq<ToolCall>, p: nat, n: nat): seq<Invocation>
    requires n <= |calls|
  {
    if n == 0 then []
    else InvokedUpTo(world, turn, calls, p, n - 1) + LogAt(world, turn, calls, p, n - 1)
  }

  lemma {:induction false} InvokedByPosition(world: World, turn: nat, calls: seq<ToolCall>, p: nat, n: nat,
                                             x: Invocation)
    requires n <= |calls|
    ensures x in InvokedUpTo(world, turn, calls, p, n) <==>
      x.turn == turn && x.index < n && x.call == calls[x.index] && Executes(world, turn, calls, p, x.index)
  {
    if n > 0 { InvokedByPosition(world, turn, calls, p, n - 1, x); }
  }

  /** A turn invokes exactly its authorised calls before position p that do not ask for a change. */
  lemma InvokedExactly(world: World, turn: nat, calls: seq<ToolCall>, p: nat, x: Invocation)
    ensures x in InvokedUpTo(world, turn, calls, p, |calls|) <==>
      && x.turn == turn && x.index < |calls| && x.index < p && x.call == calls[x.index]
      && world.deny(turn, x.index, x.call) == ""
      && x.call.name !in {"create_resource", "update_resource", "patch_resource", "delete_resource"}
  {
    InvokedByPosition(world, turn, calls, p, |calls|, x);
  }

  // ----- the same, position by position -----

  /** m answers call number k: it gives the reason why the call was refused, or tells what executing just
      this call returned. */
  ghost predicate AnswersCall(world: World, turn: nat, k: nat, call: ToolCall, m: Message) {
    && m.role == ToolRole && m.toolCallId == call.id && m.toolCalls == []
    && (world.deny(turn, k, call) != "" ==> m.content == "Forbidden: " + world.deny(turn, k, call))
    && (world.deny(turn, k, call) == "" ==> TellsResult(world.execute(turn, k, call), m.content))
  }

  ghost predicate AnswersAre(world: World, turn: nat, calls: seq<ToolCall>, p: nat, n: nat, answers: seq<Message>)
    requires n <= |calls|
  {
    && |answers| == (if p < n then n - 1 else n)
    && (forall k | 0 <= k < n && k < p :: AnswersCall(world, turn, k, calls[k], answers[k]))
    && (forall k | p < k < n :: answers[k - 1] == Message(ToolRole, world.skipped, [], calls[k].id))
  }

  lemma AnswerTells(world: World, turn: nat, calls: seq<ToolCall>, p: nat, k: nat)
    requires k < |calls| && k < p
    ensures var answer := AnswerAt(world, turn, calls, p, k);
      |answer| == 1 && AnswersCall(world, turn, k, calls[k], answer[0])
  {
    ToolTextTells(world.execute(turn, k, calls[k]));
  }

  lemma AnswersGrowBy(world: World, turn: nat, calls: seq<ToolCall>, p: nat, n: nat, answers: seq<Message>)
    requires n < |calls| && AnswersAre(world, turn, calls, p, n, answers)
    ensures AnswersAre(world, turn, calls, p, n + 1, answers + AnswerAt(world, turn, calls, p, n))
  {
    if n < p { AnswerTells(world, turn, calls, p, n); }
  }

  lemma {:induction false} AnswersByPosition(world: World, turn: nat, calls: seq<ToolCall>, p: nat, n: nat)
    requires n <= |calls|
    ensures AnswersAre(world, turn, calls, p, n, AnswersUpTo(world, turn, calls, p, n))
  {
    if n > 0 {
      AnswersByPosition(world, turn, calls, p, n - 1);
      AnswersGrowBy(world, turn, calls, p, n - 1, AnswersUpTo(world, turn, calls, p, n - 1));
    }
  }

  /** What the user is shown: each call announced, followed by its answer, which says whether it is an error. */
  ghost predicate EventsAre(world: World, turn: nat, calls: seq<ToolCall>, p: nat, n: nat, answers: seq<Message>,
                            events: seq<Event>)
    requires n <= |calls|
  {
    && |answers| == (if p < n then n - 1 else n) && |events| == n + |answers|
    && (forall k | 0 <= k < n && k < p ::
      && events[2 * k] == ToolCalled(calls[k])
      && events[2 * k + 1] == ToolFinished(calls[k].name, calls[k].id, answers[k].content,
                                           world.deny(turn, k, calls[k]) != ""
                                           || world.execute(turn, k, calls[k]).Err?))
    && (p < n ==> events[2 * p] == ToolCalled(calls[p]))
    && (forall k | p < k < n ::
      && events[2 * k - 1] == ToolCalled(calls[k])
      && events[2 * k] == ToolFinished(calls[k].name, calls[k].id, world.skipped, false))
  }

  lemma EventsGrow(world: World, turn: nat, calls: seq<ToolCall>, p: nat, n: nat, answers: seq<Message>,
                   events: seq<Event>)
    requires n < |calls| && EventsAre(world, turn, calls, p, n, answers, events)
    ensures EventsAre(world, turn, calls, p, n + 1, answers + AnswerAt(world, turn, calls, p, n),
                      events + EventsAt(world, turn, calls, p, n))
  {
  }

  lemma {:induction false} EventsByPosition(world: World, turn: nat, calls: seq<ToolCall>, p: nat, n: nat)
    requires n <= |calls|
    ensures EventsAre(world, turn, calls, p, n, AnswersUpTo(world, turn, calls, p, n),
                      EventsUpTo(world, turn, calls, p, n))
  {
    if n > 0 {
      EventsByPosition(world, turn, calls, p, n - 1);
      EventsGrow(world, turn, calls, p, n - 1, AnswersUpTo(world, turn, calls, p, n - 1),
                 EventsUpTo(world, turn, calls, p, n - 1));
    }
  }

  lemma {:induction false} EventsOngoing(world: World, turn: nat, calls: seq<ToolCall>, p: nat, n: nat)
    requires n <= |calls|
    ensures Ongoing(EventsUpTo(world, turn, calls, p, n))
  {
    if n > 0 { EventsOngoing(world, turn, calls, p, n - 1); }
  }

  /** Before the first proposal has been met, its position does not matter. */
  lemma {:induction false} ProposalAhead(world: World, turn: nat, calls: seq<ToolCall>, p: nat, q: nat, n: nat)
    requires n <= |calls| && n <= p && n <= q
    ensures AnswersUpTo(world, turn, calls, p, n) == AnswersUpTo(world, turn, calls, q, n)
    ensures InvokedUpTo(world, turn, calls, p, n) == InvokedUpTo(world, turn, calls, q, n)
    ensures EventsUpTo(world, turn, calls, p, n) == EventsUpTo(world, turn, calls, q, n)
  {
    if n > 0 { ProposalAhead(world, turn, calls, p, q, n - 1); }
  }

  /** The ids of the calls from position n on. */
  function RestIds(calls: seq<ToolCall>, n: nat): multiset<string>
    requires n <= |calls|
    decreases |calls| - n
  {
    if n == |calls| then multiset{} else multiset{calls[n].id} + RestIds(calls, n + 1)
  }

  lemma Regroup(a: multiset<string>, b: multiset<string>, c: multiset<string>)
    ensures a + (b + c) == a + b + c
  {
  }

  lemma {:induction false} CallIdsPrefix(calls: seq<ToolCall>, n: nat)
    requires n <= |calls|
    ensures CallIds(calls) == CallIds(calls[..n]) + RestIds(calls, n)
    decreases |calls| - n
  {
    if n < |calls| {
      CallIdsPrefix(calls, n + 1);
      assert calls[..n + 1][..n] == calls[..n];
      Regroup(CallIds(calls[..n]), multiset{calls[n].id}, RestIds(calls, n + 1));
    } else {
      assert calls[..n] == calls;
    }
  }

  function OwnId(calls: seq<ToolCall>, p: nat, n: nat): multiset<string> {
    if p < n && p < |calls| then multiset{calls[p].id} else multiset{}
  }

  /** What is outstanding after n positions: the calls still to come, and the proposal if met. */
  function OpenAfter(calls: seq<ToolCall>, p: nat, n: nat): multiset<string>
    requires n <= |calls|
  {
    RestIds(calls, n) + OwnId(calls, p, n)
  }

  lemma OpenStep(calls: seq<ToolCall>, p: nat, k: nat)
    requires k < |calls|
    ensures calls[k].id in OpenAfter(calls, p, k)
    ensures OpenAfter(calls, p, k + 1) == if k == p then OpenAfter(calls, p, k)
      else OpenAfter(calls, p, k) - multiset{calls[k].id}
  {
  }

  lemma SettleOne(sofar: seq<Message>, answer: seq<Message>, id: string, open: multiset<string>)
    requires Outstanding(sofar) == Some(open)
    requires answer == [] || (|answer| == 1 && answer[0].role == ToolRole && answer[0].toolCallId == id && id in open)
    ensures Outstanding(sofar + answer) == Some(if answer == [] then open else open - multiset{id})
  {
    if answer == [] {
      assert sofar + answer == sofar;
    } else {
      OutstandingSnoc(sofar, answer[0]);
      assert sofar + answer == sofar + [answer[0]];
    }
  }

  lemma OpenEnds(calls: seq<ToolCall>, p: nat)
    requires p <= |calls|
    ensures OpenAfter(calls, p, 0) == CallIds(calls)
    ensures OpenAfter(calls, p, |calls|) == if p < |calls| then multiset{calls[p].id} else multiset{}
  {
    CallIdsPrefix(calls, 0);
    assert calls[..0] == [];
  }

  lemma AnswersGrow(world: World, turn: nat, start: seq<Message>, calls: seq<ToolCall>, p: nat, n: nat)
    returns (sofar: seq<Message>, answer: seq<Message>)
    requires n < |calls|
    ensures sofar == start + AnswersUpTo(world, turn, calls, p, n) && answer == AnswerAt(world, turn, calls, p, n)
    ensures start + AnswersUpTo(world, turn, calls, p, n + 1) == sofar + answer
    ensures n == p ==> answer == []
    ensures n != p ==> |answer| == 1 && answer[0].role == ToolRole && answer[0].toolCallId == calls[n].id
  {
    sofar, answer := start + AnswersUpTo(world, turn, calls, p, n), AnswerAt(world, turn, calls, p, n);
  }

  /** One position of a turn: the conversation grows by an answer that closes its call, or stays. */
  ghost predicate Settles(sofar: seq<Message>, next: seq<Message>, id: string, open: multiset<string>,
                          open': multiset<string>) {
    if next == sofar then open' == open
    else id in open && open' == open - multiset{id} && exists answer: Message :: AddsAnswer(sofar, next, answer, id)
  }

  ghost predicate AddsAnswer(sofar: seq<Message>, next: seq<Message>, answer: Message, id: string) {
    next == sofar + [answer] && answer.role == ToolRole && answer.toolCallId == id
  }

  lemma SettlesOne(sofar: seq<Message>, next: seq<Message>, id: string, open: multiset<string>, open': multiset<string>)
    requires Settles(sofar, next, id, open, open') && Outstanding(sofar) == Some(open)
    ensures Outstanding(next) == Some(open')
  {
    if next != sofar {
      var answer :| AddsAnswer(sofar, next, answer, id);
      SettleOne(sofar, [answer], id, open);
    }
  }

  lemma {:induction false} SettlesAll(history: seq<seq<Message>>, ids: seq<string>, opens: seq<multiset<string>>,
                                      n: nat)
    requires SettlesEach(history, ids, opens) && n <= |ids| && Outstanding(history[0]) == Some(opens[0])
    ensures Outstanding(history[n]) == Some(opens[n])
  {
    if n > 0 {
      SettlesAll(history, ids, opens, n - 1);
      SettlesOne(history[n - 1], history[n], ids[n - 1], opens[n - 1], opens[n]);
    }
  }

  lemma AnswerSettles(sofar: seq<Message>, answer: seq<Message>, id: string, open: multiset<string>)
    requires |answer| == 1 && answer[0].role == ToolRole && answer[0].toolCallId == id && id in open
    ensures Settles(sofar, sofar + answer, id, open, open - multiset{id})
  {
    assert answer == [answer[0]];
    assert AddsAnswer(sofar, sofar + answer, answer[0], id);
  }

  lemma PositionSettles(world: World, turn: nat, start: seq<Message>, calls: seq<ToolCall>, p: nat, n: nat)
    requires n < |calls|
    ensures Settles(start + AnswersUpTo(world, turn, calls, p, n), start + AnswersUpTo(world, turn, calls, p, n + 1),
                    calls[n].id, OpenAfter(calls, p, n), OpenAfter(calls, p, n + 1))
  {
    var sofar, answer := AnswersGrow(world, turn, start, calls, p, n);
    OpenStep(calls, p, n);
    if n != p { AnswerSettles(sofar, answer, calls[n].id, OpenAfter(calls, p, n)); }
  }

  ghost predicate SettlesEach(history: seq<seq<Message>>, ids: seq<string>, opens: seq<multiset<string>>) {
    && |history| == |opens| == |ids| + 1
    && forall k {:trigger ids[k]} | 0 <= k < |ids| ::
      Settles(history[k], history[k + 1], ids[k], opens[k], opens[k + 1])
  }

  lemma SettlesMore(history: seq<seq<Message>>, ids: seq<string>, opens: seq<multiset<string>>,
                    next: seq<Message>, id: string, open: multiset<string>)
    requires SettlesEach(history, ids, opens) && Settles(history[|ids|], next, id, opens[|ids|], open)
    ensures SettlesEach(history + [next], ids + [id], opens + [open])
  {
  }

  /** The conversation after each of the first n positions, and what is open then. */
  lemma {:induction false} Histories(world: World, turn: nat, start: seq<Message>, calls: seq<ToolCall>, p: nat, n: nat)
    returns (history: seq<seq<Message>>, ids: seq<string>, opens: seq<multiset<string>>)
    requires n <= |calls|
    ensures SettlesEach(history, ids, opens) && |ids| == n
    ensures history[0] == start && history[n] == start + AnswersUpTo(world, turn, calls, p, n)
    ensures opens[0] == OpenAfter(calls, p, 0) && opens[n] == OpenAfter(calls, p, n)
  {
    if n == 0 {
      history, ids, opens := [start], [], [OpenAfter(calls, p, 0)];
    } else {
      history, ids, opens := Histories(world, turn, start, calls, p, n - 1);
      var next := start + AnswersUpTo(world, turn, calls, p, n);
      PositionSettles(world, turn, start, calls, p, n - 1);
      SettlesMore(history, ids, opens, next, calls[n - 1].id, OpenAfter(calls, p, n));
      history, ids, opens := history + [next], ids + [calls[n - 1].id], opens + [OpenAfter(calls, p, n)];
    }
  }

  /** After all positions exactly the proposal among them is unanswered. */
  lemma TurnLeavesOne(world: World, turn: nat, start: seq<Message>, calls: seq<ToolCall>, p: nat)
    requires Outstanding(start) == Some(OpenAfter(calls, p, 0))
    ensures Outstanding(start + AnswersUpTo(world, turn, calls, p, |calls|)) == Some(OpenAfter(calls, p, |calls|))
  {
    var history, ids, opens := Histories(world, turn, start, calls, p, |calls|);
    SettlesAll(history, ids, opens, |calls|);
  }

  /** A turn leaves nothing open except the call of the change it proposes. */
  lemma TurnSettles(world: World, turn: nat, before: seq<Message>, text: string, calls: seq<ToolCall>, p: nat)
    requires Settled(before) && p <= |calls|
    ensures Outstanding(before + [Reply(text, calls)] + AnswersUpTo(world, turn, calls, p, |calls|))
            == Some(if p < |calls| then multiset{calls[p].id} else multiset{})
  {
    OutstandingSnoc(before, Reply(text, calls));
    OpenEnds(calls, p);
    TurnLeavesOne(world, turn, before + [Reply(text, calls)], calls, p);
  }

  /** What the inner loop has gathered. */
  datatype Gathered = Gathered(pending: Option<ToolCall>, messages: seq<Message>, events: seq<Event>,
                               invoked: seq<Invocation>)

  /** After i positions: the first proposal, if any, is pending, and all others have their answers. */
  ghost predicate Answered(world: World, turn: nat, before: seq<Message>, calls: seq<ToolCall>, i: nat, p: nat,
                           g: Gathered)
    requires i <= |calls|
  {
    && (g.pending.None? ==> p == |calls| && forall j | 0 <= j < i :: !Proposes(world, turn, calls, j))
    && (g.pending.Some? ==> p < i && g.pending == Some(calls[p]) && FirstProposal(world, turn, calls, p))
    && g.messages == before + AnswersUpTo(world, turn, calls, p, i)
    && g.events == EventsUpTo(world, turn, calls, p, i)
    && g.invoked == InvokedUpTo(world, turn, calls, p, i)
  }

  lemma Grow(a: seq<Message>, b: seq<Message>, c: seq<Message>)
    ensures a + (b + c) == a + b + c
  {
  }

  lemma KeepsAnswered(world: World, turn: nat, before: seq<Message>, calls: seq<ToolCall>, i: nat, p: nat, g: Gathered)
    requires i < |calls| && Answered(world, turn, before, calls, i, p, g)
    requires g.pending.None? ==> !Proposes(world, turn, calls, i)
    ensures Answered(world, turn, before, calls, i + 1, p,
                     g.(messages := g.messages + AnswerAt(world, turn, calls, p, i),
                        events := g.events + EventsAt(world, turn, calls, p, i),
                        invoked := g.invoked + LogAt(world, turn, calls, p, i)))
  {
    Grow(before, AnswersUpTo(world, turn, calls, p, i), AnswerAt(world, turn, calls, p, i));
  }

  lemma ProposalAnswered(world: World, turn: nat, before: seq<Message>, calls: seq<ToolCall>, i: nat, g: Gathered)
    requires i < |calls| && Answered(world, turn, before, calls, i, |calls|, g) && g.pending.None?
    requires Proposes(world, turn, calls, i)
    ensures Answered(world, turn, before, calls, i + 1, i,
                     g.(pending := Some(calls[i]), events := g.events + [ToolCalled(calls[i])]))
  {
    ProposalAhead(world, turn, calls, |calls|, i, i);
    Grow(before, AnswersUpTo(world, turn, calls, i, i), []);
  }

  /** The one place where a tool is invoked, and the invocation noted. */
  method Invoke(world: World, turn: nat, i: nat, call: ToolCall)
    returns (r: Result<string, string>, invocation: Invocation)
    ensures r == world.execute(turn, i, call) && invocation == Invocation(turn, i, call)
  {
    r, invocation := world.execute(turn, i, call), Invocation(turn, i, call);
  }

  /** A call that is refused or that only reads is answered at once. */
  method AnswerCall(world: World, turn: nat, calls: seq<ToolCall>, i: nat, ghost p: nat)
    returns (res: string, isErr: bool, log: seq<Invocation>)
    requires i < |calls| && i < p && !Proposes(world, turn, calls, i)
    ensures AnswerAt(world, turn, calls, p, i) == [ToolResult(calls[i].id, res)]
    ensures isErr == IsError(world, turn, calls, p, i) && log == LogAt(world, turn, calls, p, i)
  {
    var deny := world.deny(turn, i, calls[i]);
    if deny != "" { return "Forbidden: " + deny, true, []; }
    var r, invocation := Invoke(world, turn, i, calls[i]);
    return ToolText(r), r.Err?, [invocation];
  }

  /** One position of a reply. */
  method TakeCall(world: World, turn: nat, ghost before: seq<Message>, calls: seq<ToolCall>, i: nat, ghost p: nat,
                  g: Gathered)
    returns (g': Gathered, ghost p': nat)
    requires i < |calls| && Answered(world, turn, before, calls, i, p, g)
    ensures Answered(world, turn, before, calls, i + 1, p', g')
  {
    var tc := calls[i];
    p' := p;
    if g.pending.None? && Proposes(world, turn, calls, i) {
      ProposalAnswered(world, turn, before, calls, i, g);
      p' := i;
      return g.(pending := Some(tc), events := g.events + [ToolCalled(tc)]), p';
    }
    KeepsAnswered(world, turn, before, calls, i, p, g);
    var res, isErr, log := world.skipped, false, [];
    if g.pending.None? { res, isErr, log := AnswerCall(world, turn, calls, i, p); }
    g' := g.(messages := g.messages + [ToolResult(tc.id, res)], invoked := g.invoked + log,
             events := g.events + [ToolCalled(tc), ToolFinished(tc.name, tc.id, res, isErr)]);
  }

  /** The inner loop over one reply's tool calls. */
  method RunTurn(world: World, turn: nat, before: seq<Message>, calls: seq<ToolCall>)
    returns (messages: seq<Message>, events: seq<Event>, invoked: seq<Invocation>, pending: Option<ToolCall>,
             ghost p: nat)
    ensures FirstProposal(world, turn, calls, p)
    ensures forall j | 0 <= j < p :: world.deny(turn, j, calls[j]) != "" || !IsMutation(calls[j].name)
    ensures p < |calls| ==> world.deny(turn, p, calls[p]) == "" && IsMutation(calls[p].name)
    ensures pending == if p < |calls| then Some(calls[p]) else None
    ensures messages == before + AnswersUpTo(world, turn, calls, p, |calls|)
    ensures AnswersAre(world, turn, calls, p, |calls|, messages[|before|..])
    ensures EventsAre(world, turn, calls, p, |calls|, messages[|before|..], events) && Ongoing(events)
    ensures invoked == InvokedUpTo(world, turn, calls, p, |calls|)
  {
    var g := Gathered(None, before, [], []);
    p := |calls|;
    for i := 0 to |calls|
      invariant Answered(world, turn, before, calls, i, p, g)
    {
      g, p := TakeCall(world, turn, before, calls, i, p, g);
    }
    messages, events, invoked, pending := g.messages, g.events, g.invoked, g.pending;
    forall j | 0 <= j < p ensures world.deny(turn, j, calls[j]) != "" || !IsMutation(calls[j].name) {
      assert !Proposes(world, turn, calls, j);
    }
    AnswersByPosition(world, turn, calls, p, |calls|);
    EventsByPosition(world, turn, calls, p, |calls|);
    EventsOngoing(world, turn, calls, p, |calls|);
    assert messages[|before|..] == AnswersUpTo(world, turn, calls, p, |calls|);
  }

  lemma ProposesIs(world: World, turn: nat, calls: seq<ToolCall>, k: nat)
    requires k < |calls|
    ensures Proposes(world, turn, calls, k) <==>
      && world.deny(turn, k, calls[k]) == ""
      && calls[k].name in {"create_resource", "update_resource", "patch_resource", "delete_resource"}
  {
  }

  // ----- the conversation over several turns -----

  predicate IsBlank(s: string) { Text.TrimSpace(s) == "" }

  function ContentOf(r: Streamed): string { Seqs.Flatten(r.deltas) }

  lemma BlankIs(s: string)
    ensures IsBlank(s) <==> forall c | c in s :: Text.IsSpace(c)
  {
    Text.TrimsToNothing(s);
  }

  predicate IsAnswer(r: Streamed) { r.failure.None? && r.calls == [] && !IsBlank(ContentOf(r)) }
  predicate IsEmpty(r: Streamed) { r.failure.None? && r.calls == [] && IsBlank(ContentOf(r)) }

  /** The next prompt after a turn that neither failed, answered nor proposed a change. */
  function NextPrompt(world: World, turn: nat, prompt: seq<Message>): seq<Message> {
    var r := world.stream(turn, prompt);
    var heard := prompt + [Reply(ContentOf(r), r.calls)];
    if r.calls == [] then heard + [Note(world.nudge)]
      else heard + AnswersUpTo(world, turn, r.calls, |r.calls|, |r.calls|)
  }

  /** The prompts of a chat: each settled, each the continuation of the one before. */
  ghost predicate Continuation(world: World, prompts: seq<seq<Message>>) {
    && (forall i | 0 <= i < |prompts| :: Settled(prompts[i]))
    && (forall j | 0 < j < |prompts| :: GoesOnAt(world, prompts, j))
  }

  /** Prompt j is what follows after the one before it. */
  ghost predicate GoesOnAt(world: World, prompts: seq<seq<Message>>, j: nat)
    requires 0 < j < |prompts|
  {
    GoesOn(world, j - 1, prompts[j - 1], prompts[j])
  }

  ghost predicate Continues(world: World, turn: nat, prompt: seq<Message>) {
    var r := world.stream(turn, prompt);
    r.failure.None? && !IsAnswer(r) && FirstProposal(world, turn, r.calls, |r.calls|)
  }

  /** The turn's reply asked for this call, and it is authorised and no mutation. */
  ghost predicate AuthorisedRead(world: World, turn: nat, prompt: seq<Message>, x: Invocation) {
    var calls := world.stream(turn, prompt).calls;
    x.turn == turn && x.index < |calls| && x.call == calls[x.index] && world.deny(turn, x.index, x.call) == ""
    && !IsMutation(x.call.name)
  }

  ghost predicate OnlyAuthorisedReads(world: World, prompts: seq<seq<Message>>, invoked: seq<Invocation>) {
    forall x | x in invoked :: x.turn < |prompts| && AuthorisedRead(world, x.turn, prompts[x.turn], x)
  }

  /** A stored conversation lacks the result of the change it waits for, and nothing else. */
  predicate Suspended(s: Session) {
    Outstanding(s.messages) == Some(multiset{s.toolCall.id}) && IsMutation(s.toolCall.name)
  }

  ghost predicate AllSuspended(sessions: Sessions) { forall id | id in sessions :: Suspended(sessions[id]) }

  /** The last turn put the change at p up for approval, with the conversation as it then stood. */
  ghost predicate ProposedBy(world: World, turn: nat, prompt: seq<Message>, p: nat, s: Session) {
    var r := world.stream(turn, prompt);
    r.failure.None? && p < |r.calls| && FirstProposal(world, turn, r.calls, p) && s.toolCall == r.calls[p]
    && s.messages == prompt + [Reply(ContentOf(r), r.calls)] + AnswersUpTo(world, turn, r.calls, p, |r.calls|)
  }

  /** How the final event follows from the turn's reply, and what is stored. */
  ghost predicate EndsAs(world: World, req: Request, turn: nat, prompt: seq<Message>, final: Event, id: string,
                         now: int,
                         before: Sessions, after: Sessions)
  {
    var r := world.stream(turn, prompt);
    match final
    case Done => IsAnswer(r) && after == before
    case ActionRequired(call, sessionId) =>
      sessionId == id && id in after && after == Live(before, now)[id := after[id]] && call == after[id].toolCall
      && after[id].user == req.user && after[id].expiresAt == now + SESSION_TTL
      && exists p :: ProposedBy(world, turn, prompt, p, after[id])
    case Error(Provider(message)) => r.failure == Some(message) && after == before
    case Error(EmptyReplies) => IsEmpty(r) && after == before
    case Error(TooManyPending) => !HasRoom(before, req.user, now) && after == Live(before, now)
    case Error(TooManyIterations) => turn == 11 && Continues(world, turn, prompt) && after == before
    case _ => false
  }

  lemma EmptyTurnSettles(prompt: seq<Message>, content: string, nudge: string)
    requires Settled(prompt)
    ensures Settled(prompt + [Reply(content, [])] + [Note(nudge)])
  {
    OutstandingSnoc(prompt, Reply(content, []));
    OutstandingSnoc(prompt + [Reply(content, [])], Note(nudge));
  }

  method EmitDeltas(deltas: seq<string>) returns (events: seq<Event>)
    ensures Ongoing(events) && |events| == |deltas| && forall i | 0 <= i < |deltas| :: events[i] == TextDelta(deltas[i])
  {
    events := [];
    for i := 0 to |deltas|
      invariant Ongoing(events) && |events| == i && forall j | 0 <= j < i :: events[j] == TextDelta(deltas[j])
    {
      events := events + [TextDelta(deltas[i])];
    }
  }

  /** One iteration: final is None when the loop goes on with `next`. */
  method Turn(world: World, req: Request, store: SessionStore, turn: nat, prompt: seq<Message>, empties: nat,
              id: string, correlationId: string, now: int)
    returns (next: seq<Message>, events: seq<Event>, invoked: seq<Invocation>, final: Option<Event>, empties': nat)
    requires Settled(prompt) && id !in store.sessions && Bounded(store.sessions) && AllSuspended(store.sessions)
    modifies store
    ensures Bounded(store.sessions) && AllSuspended(store.sessions) && Ongoing(events)
    ensures var deltas := world.stream(turn, prompt).deltas;
      |deltas| <= |events| && forall i | 0 <= i < |deltas| :: events[i] == TextDelta(deltas[i])
    ensures forall x | x in invoked :: AuthorisedRead(world, turn, prompt, x)
    ensures final.None? ==> Settled(next) && GoesOn(world, turn, prompt, next)
    ensures final.None? ==>
      store.sessions == old(store.sessions)
      && empties' == if IsEmpty(world.stream(turn, prompt)) then empties + 1 else 0
    ensures final == Some(Error(EmptyReplies)) <==>
      IsEmpty(world.stream(turn, prompt)) && empties + 1 >= MAX_EMPTY_RESPONSES
    ensures final.Some? ==>
      IsFinal(final.value)
      && EndsAs(world, req, turn, prompt, final.value, id, now, old(store.sessions), store.sessions)
  {
    next, invoked, final, empties' := prompt, [], None, 0;
    var r := world.stream(turn, prompt);
    events := EmitDeltas(r.deltas);
    if r.failure.Some? { final := Some(Error(Provider(r.failure.value))); return; }
    next := next + [Reply(ContentOf(r), r.calls)];
    if r.calls == [] && IsBlank(ContentOf(r)) {
      empties' := empties + 1;
      if empties' >= MAX_EMPTY_RESPONSES { final := Some(Error(EmptyReplies)); return; }
      EmptyTurnSettles(prompt, ContentOf(r), world.nudge);
      next := next + [Note(world.nudge)];
      return;
    }
    if r.calls == [] { final := Some(Done); return; }
    var turnEvents;
    next, turnEvents, invoked, final := ToolTurn(world, req, store, turn, prompt, id, correlationId, now);
    events := events + turnEvents;
  }

  /** The rest of an iteration whose reply holds tool calls. */
  method ToolTurn(world: World, req: Request, store: SessionStore, turn: nat, prompt: seq<Message>,
                  id: string, correlationId: string, now: int)
    returns (next: seq<Message>, events: seq<Event>, invoked: seq<Invocation>, final: Option<Event>)
    requires world.stream(turn, prompt).failure.None? && world.stream(turn, prompt).calls != []
    requires Settled(prompt) && id !in store.sessions && Bounded(store.sessions) && AllSuspended(store.sessions)
    modifies store
    ensures Bounded(store.sessions) && AllSuspended(store.sessions) && Ongoing(events)
    ensures forall x | x in invoked :: AuthorisedRead(world, turn, prompt, x)
    ensures final.None? ==> Settled(next) && GoesOn(world, turn, prompt, next) && store.sessions == old(store.sessions)
    ensures final != Some(Error(EmptyReplies))
    ensures final.Some? ==>
      IsFinal(final.value)
      && EndsAs(world, req, turn, prompt, final.value, id, now, old(store.sessions), store.sessions)
  {
    final := None;
    var r := world.stream(turn, prompt);
    var pending;
    ghost var p;
    next, events, invoked, pending, p := RunTurn(world, turn, prompt + [Reply(ContentOf(r), r.calls)], r.calls);
    TurnSettles(world, turn, prompt, ContentOf(r), r.calls, p);
    ReadsOnly(world, turn, prompt, p, invoked);
    if pending.Some? {
      var saved := Suspend(world, req, store, turn, prompt, next, pending.value, p, id, correlationId, now);
      final := Some(if saved then ActionRequired(pending.value, id) else Error(TooManyPending));
    }
  }

  lemma ReadsOnly(world: World, turn: nat, prompt: seq<Message>, p: nat, invoked: seq<Invocation>)
    requires var calls := world.stream(turn, prompt).calls; invoked == InvokedUpTo(world, turn, calls, p, |calls|)
    ensures forall x | x in invoked :: AuthorisedRead(world, turn, prompt, x)
  {
    forall x | x in invoked ensures AuthorisedRead(world, turn, prompt, x) {
      InvokedExactly(world, turn, world.stream(turn, prompt).calls, p, x);
    }
  }

  lemma StoredSuspended(before: Sessions, now: int, id: string, sess: Session)
    requires AllSuspended(before) && Suspended(sess)
    ensures AllSuspended(Live(before, now)) && AllSuspended(Live(before, now)[id := sess])
  {
  }

  /** Saves the conversation with the change it waits for. */
  method Suspend(world: World, req: Request, store: SessionStore, ghost turn: nat, ghost prompt: seq<Message>,
                 messages: seq<Message>,
                 pending: ToolCall, ghost p: nat, id: string, correlationId: string, now: int) returns (saved: bool)
    requires id !in store.sessions && Bounded(store.sessions) && AllSuspended(store.sessions)
    requires ProposedBy(world, turn, prompt, p, Session(messages, pending, "", 0, "", "", 0))
    requires Outstanding(messages) == Some(multiset{pending.id}) && IsMutation(pending.name)
    modifies store
    ensures Bounded(store.sessions) && AllSuspended(store.sessions)
    ensures var final := if saved then ActionRequired(pending, id) else Error(TooManyPending);
      EndsAs(world, req, turn, prompt, final, id, now, old(store.sessions), store.sessions)
  {
    var sess := Session(messages, pending, req.cluster, req.user, req.clientIp, "", 0);
    ghost var before := store.sessions;
    saved := store.Save(sess, id, correlationId, now);
    StoredSuspended(before, now, id, Stamped(sess, correlationId, now));
    if saved {
      assert store.sessions[id] == Stamped(sess, correlationId, now);
      assert ProposedBy(world, turn, prompt, p, store.sessions[id]);
    }
  }

  lemma EndsOnceGrows(events: seq<Event>, more: seq<Event>, final: Event)
    requires Ongoing(events) && Ongoing(more)
    ensures Ongoing(events + more)
    ensures IsFinal(final) ==> EndsOnce(events + more + [final])
  {
    forall e | e in events + more ensures !IsFinal(e) { assert e in events || e in more; }
    forall i | 0 <= i < |events + more| ensures !IsFinal((events + more + [final])[i]) {
      assert (events + more)[i] in events + more;
    }
  }

  lemma ReadsGrow(world: World, prompts: seq<seq<Message>>, prompt: seq<Message>, invoked: seq<Invocation>,
                  more: seq<Invocation>)
    requires OnlyAuthorisedReads(world, prompts, invoked)
    requires forall x | x in more :: AuthorisedRead(world, |prompts|, prompt, x)
    ensures OnlyAuthorisedReads(world, prompts + [prompt], invoked + more)
  {
    forall x | x in invoked + more
      ensures x.turn < |prompts + [prompt]| && AuthorisedRead(world, x.turn, (prompts + [prompt])[x.turn], x)
    {
      assert x in invoked || x in more;
    }
  }

  /** The reply to prompt i is the second empty one in a row. */
  predicate SecondEmpty(world: World, prompts: seq<seq<Message>>, i: nat)
    requires i < |prompts|
  {
    i > 0 && IsEmpty(world.stream(i - 1, prompts[i - 1])) && IsEmpty(world.stream(i, prompts[i]))
  }

  /** The loop is about to send `next` after the prompts sent so far. */
  ghost predicate Underway(world: World, start: seq<Message>, prompts: seq<seq<Message>>, next: seq<Message>,
                           empties: nat) {
    && Settled(next) && Continuation(world, prompts)
    && (prompts == [] ==> next == start && empties == 0)
    && (prompts != [] ==> prompts[0] == start && GoesOn(world, |prompts| - 1, prompts[|prompts| - 1], next))
    && (prompts != [] ==> empties == if IsEmpty(world.stream(|prompts| - 1, prompts[|prompts| - 1])) then 1 else 0)
    && forall i | 0 <= i < |prompts| :: !SecondEmpty(world, prompts, i)
  }

  ghost predicate GoesOn(world: World, turn: nat, prompt: seq<Message>, next: seq<Message>) {
    next == NextPrompt(world, turn, prompt) && Continues(world, turn, prompt)
  }

  /** What the prompts look like once the loop has stopped. */
  ghost predicate Conversed(world: World, start: seq<Message>, prompts: seq<seq<Message>>, final: Event) {
    && 0 < |prompts| <= 12 && prompts[0] == start && Continuation(world, prompts)
    && (forall i | 0 <= i < |prompts| :: SecondEmpty(world, prompts, i) ==> i == |prompts| - 1)
    && (SecondEmpty(world, prompts, |prompts| - 1) <==> final == Error(EmptyReplies))
  }

  lemma ContinuationGrows(world: World, prompts: seq<seq<Message>>, next: seq<Message>)
    requires Settled(next) && Continuation(world, prompts)
    requires prompts != [] ==> GoesOn(world, |prompts| - 1, prompts[|prompts| - 1], next)
    ensures Continuation(world, prompts + [next])
  {
    var sent := prompts + [next];
    forall j | 0 < j < |sent| ensures GoesOnAt(world, sent, j) {
      if j < |prompts| {
        assert GoesOnAt(world, prompts, j);
        assert sent[j] == prompts[j] && sent[j - 1] == prompts[j - 1];
      }
    }
  }

  lemma SecondEmptyGrows(world: World, prompts: seq<seq<Message>>, next: seq<Message>)
    ensures forall i | 0 <= i < |prompts| :: SecondEmpty(world, prompts + [next], i) <==> SecondEmpty(world, prompts, i)
    ensures SecondEmpty(world, prompts + [next], |prompts|) <==>
      && prompts != [] && IsEmpty(world.stream(|prompts| - 1, prompts[|prompts| - 1]))
      && IsEmpty(world.stream(|prompts|, next))
  {
    var sent := prompts + [next];
    assert forall i | 0 <= i < |prompts| :: sent[i] == prompts[i];
  }

  lemma PromptSent(world: World, start: seq<Message>, prompts: seq<seq<Message>>, next: seq<Message>, empties: nat)
    requires Underway(world, start, prompts, next, empties)
    ensures var sent := prompts + [next];
      && sent[0] == start && Continuation(world, sent)
      && (forall i | 0 <= i < |prompts| :: !SecondEmpty(world, sent, i))
      && (SecondEmpty(world, sent, |prompts|) <==> empties == 1 && IsEmpty(world.stream(|prompts|, next)))
  {
    ContinuationGrows(world, prompts, next);
    SecondEmptyGrows(world, prompts, next);
  }

  lemma StaysUnderway(world: World, start: seq<Message>, prompts: seq<seq<Message>>, prompt: seq<Message>,
                      empties: nat, next: seq<Message>, empties': nat)
    requires Underway(world, start, prompts, prompt, empties) && Settled(next) && GoesOn(world, |prompts|, prompt, next)
    requires empties' == if IsEmpty(world.stream(|prompts|, prompt)) then empties + 1 else 0
    requires !(IsEmpty(world.stream(|prompts|, prompt)) && empties + 1 >= MAX_EMPTY_RESPONSES)
    ensures Underway(world, start, prompts + [prompt], next, empties')
  {
    PromptSent(world, start, prompts, prompt, empties);
  }

  lemma Stopped(world: World, start: seq<Message>, prompts: seq<seq<Message>>, prompt: seq<Message>, empties: nat,
                final: Event)
    requires Underway(world, start, prompts, prompt, empties) && |prompts| < MAX_ITERATIONS
    requires final == Error(EmptyReplies) <==>
      IsEmpty(world.stream(|prompts|, prompt)) && empties + 1 >= MAX_EMPTY_RESPONSES
    ensures Conversed(world, start, prompts + [prompt], final)
  {
    PromptSent(world, start, prompts, prompt, empties);
  }

  lemma GaveUp(world: World, start: seq<Message>, prompts: seq<seq<Message>>, next: seq<Message>, empties: nat)
    requires Underway(world, start, prompts, next, empties) && |prompts| == MAX_ITERATIONS
    ensures Conversed(world, start, prompts, Error(TooManyIterations))
      && Continues(world, |prompts| - 1, prompts[|prompts| - 1])
  {
  }

  /** The loop's variables before an iteration. */
  datatype Progress = Progress(prompts: seq<seq<Message>>, messages: seq<Message>, empties: nat, events: seq<Event>,
                               invoked: seq<Invocation>)

  ghost predicate Running(world: World, start: seq<Message>, s: Progress) {
    |s.prompts| <= MAX_ITERATIONS && Underway(world, start, s.prompts, s.messages, s.empties)
    && Ongoing(s.events) && OnlyAuthorisedReads(world, s.prompts, s.invoked)
  }

  /** What a finished loop promises. */
  ghost predicate Finished(world: World, req: Request, start: seq<Message>, s: Progress, id: string, now: int,
                           before: Sessions, after: Sessions) {
    && EndsOnce(s.events)
    && Conversed(world, start, s.prompts, s.events[|s.events| - 1])
    && OnlyAuthorisedReads(world, s.prompts, s.invoked)
    && EndsAs(world, req, |s.prompts| - 1, s.prompts[|s.prompts| - 1], s.events[|s.events| - 1], id, now, before, after)
  }

  function Sent(s: Progress, events: seq<Event>, invoked: seq<Invocation>): Progress {
    s.(prompts := s.prompts + [s.messages], events := s.events + events, invoked := s.invoked + invoked)
  }

  lemma KeepsRunning(world: World, start: seq<Message>, s: Progress, events: seq<Event>, invoked: seq<Invocation>,
                     next: seq<Message>, empties: nat)
    requires Running(world, start, s) && |s.prompts| < MAX_ITERATIONS && Ongoing(events)
    requires forall x | x in invoked :: AuthorisedRead(world, |s.prompts|, s.messages, x)
    requires Settled(next) && GoesOn(world, |s.prompts|, s.messages, next)
    requires empties == if IsEmpty(world.stream(|s.prompts|, s.messages)) then s.empties + 1 else 0
    requires !(IsEmpty(world.stream(|s.prompts|, s.messages)) && s.empties + 1 >= MAX_EMPTY_RESPONSES)
    ensures Running(world, start, Sent(s, events, invoked).(messages := next, empties := empties))
  {
    ReadsGrow(world, s.prompts, s.messages, s.invoked, invoked);
    EndsOnceGrows(s.events, events, Done);
    StaysUnderway(world, start, s.prompts, s.messages, s.empties, next, empties);
  }

  lemma BecomesFinished(world: World, req: Request, start: seq<Message>, s: Progress, events: seq<Event>,
                        invoked: seq<Invocation>, final: Event,
                        id: string, now: int, before: Sessions, after: Sessions)
    requires Running(world, start, s) && |s.prompts| < MAX_ITERATIONS && Ongoing(events) && IsFinal(final)
    requires forall x | x in invoked :: AuthorisedRead(world, |s.prompts|, s.messages, x)
    requires EndsAs(world, req, |s.prompts|, s.messages, final, id, now, before, after)
    requires final == Error(EmptyReplies) <==>
      IsEmpty(world.stream(|s.prompts|, s.messages)) && s.empties + 1 >= MAX_EMPTY_RESPONSES
    ensures Finished(world, req, start, Sent(s, events + [final], invoked), id, now, before, after)
  {
    LastSent(s, events, final, invoked);
    ReadsGrow(world, s.prompts, s.messages, s.invoked, invoked);
    EndsOnceGrows(s.events, events, final);
    Stopped(world, start, s.prompts, s.messages, s.empties, final);
  }

  lemma LastSent(s: Progress, events: seq<Event>, final: Event, invoked: seq<Invocation>)
    ensures var t := Sent(s, events + [final], invoked);
      && t.prompts == s.prompts + [s.messages] && |t.prompts| - 1 == |s.prompts| && t.prompts[|s.prompts|] == s.messages
      && t.events == s.events + events + [final] && t.events[|t.events| - 1] == final
        && t.invoked == s.invoked + invoked
  {
  }

  lemma RunsOut(world: World, req: Request, start: seq<Message>, s: Progress, id: string, now: int, sessions: Sessions)
    requires Running(world, start, s) && |s.prompts| == MAX_ITERATIONS
    ensures Finished(world, req, start, s.(events := s.events + [Error(TooManyIterations)]), id, now, sessions,
                     sessions)
  {
    GaveUp(world, start, s.prompts, s.messages, s.empties);
    EndsOnceGrows(s.events, [], Error(TooManyIterations));
    assert s.events + [] == s.events;
  }

  /** Drives the conversation until an answer, a proposal, a failure or twelve turns. `id` and
      `correlationId` are UUIDs generated for the session, if one is saved. */
  method Loop(world: World, req: Request, store: SessionStore, start: seq<Message>, id: string,
              correlationId: string, now: int)
    returns (s: Progress)
    requires Settled(start) && id !in store.sessions && Bounded(store.sessions) && AllSuspended(store.sessions)
    modifies store
    ensures Bounded(store.sessions) && AllSuspended(store.sessions)
    ensures Finished(world, req, start, s, id, now, old(store.sessions), store.sessions)
  {
    s := Progress([], start, 0, [], []);
    while |s.prompts| < MAX_ITERATIONS
      invariant Running(world, start, s) && store.sessions == old(store.sessions)
      decreases MAX_ITERATIONS - |s.prompts|
    {
      var next, events, invoked, final, empties :=
        Turn(world, req, store, |s.prompts|, s.messages, s.empties, id, correlationId, now);
      if final.Some? {
        BecomesFinished(world, req, start, s, events, invoked, final.value, id, now, old(store.sessions),
                        store.sessions);
        return Sent(s, events + [final.value], invoked);
      }
      KeepsRunning(world, start, s, events, invoked, next, empties);
      s := Sent(s, events, invoked).(messages := next, empties := empties);
    }
    RunsOut(world, req, start, s, id, now, store.sessions);
    s := s.(events := s.events + [Error(TooManyIterations)]);
  }

  // ----- what each prompt adds, and what is stored -----

  /** Between two prompts lie the model's reply, word for word, and then the answer to each of its calls, or
      after an empty reply the nudge. */
  lemma PromptGrows(world: World, start: seq<Message>, prompts: seq<seq<Message>>, final: Event, i: nat)
    requires Conversed(world, start, prompts, final) && i + 1 < |prompts|
    ensures var r, n := world.stream(i, prompts[i]), |prompts[i]|;
      && r.failure.None? && n < |prompts[i + 1]| && prompts[i + 1][..n] == prompts[i]
      && prompts[i + 1][n] == Message(AssistantRole, Seqs.Flatten(r.deltas), r.calls, "")
      && (r.calls == [] ==> prompts[i + 1][n + 1..] == [Message(SystemRole, world.nudge, [], "")])
      && (r.calls != [] ==> AnswersAre(world, i, r.calls, |r.calls|, |r.calls|, prompts[i + 1][n + 1..]))
  {
    var r := world.stream(i, prompts[i]);
    assert GoesOnAt(world, prompts, i + 1);
    ReplyAndRest(prompts[i], Reply(ContentOf(r), r.calls), AnswersUpTo(world, i, r.calls, |r.calls|, |r.calls|));
    AnswersByPosition(world, i, r.calls, |r.calls|, |r.calls|);
  }

  lemma ReplyAndRest(prompt: seq<Message>, reply: Message, rest: seq<Message>)
    ensures var all := prompt + [reply] + rest;
      all[..|prompt|] == prompt && all[|prompt|] == reply && all[|prompt| + 1..] == rest
  {
  }

  /** What is stored for approval: the conversation with the reply that proposed the change, word for word,
      and the answers to all its calls but the proposed one. */
  lemma StoredConversation(world: World, turn: nat, prompt: seq<Message>, p: nat, s: Session)
    requires ProposedBy(world, turn, prompt, p, s)
    ensures var r, n := world.stream(turn, prompt), |prompt|;
      && p < |r.calls| && s.toolCall == r.calls[p] && n < |s.messages| && s.messages[..n] == prompt
      && s.messages[n] == Message(AssistantRole, Seqs.Flatten(r.deltas), r.calls, "")
      && AnswersAre(world, turn, r.calls, p, |r.calls|, s.messages[n + 1..])
  {
    var r := world.stream(turn, prompt);
    ReplyAndRest(prompt, Reply(ContentOf(r), r.calls), AnswersUpTo(world, turn, r.calls, p, |r.calls|));
    AnswersByPosition(world, turn, r.calls, p, |r.calls|);
  }

  // ----- starting and resuming -----

  /** At every call of the provider each assistant message has all its tool results in place. */
  lemma PromptsWellAnswered(world: World, start: seq<Message>, prompts: seq<seq<Message>>, final: Event, i: nat)
    requires Conversed(world, start, prompts, final) && i < |prompts|
    ensures WellAnswered(prompts[i])
  {
    SettledIsWellAnswered(prompts[i]);
  }

  /** A stored conversation lacks exactly the pending call's result; with it, it is settled again. */
  lemma SuspendedResumes(s: Session, result: string)
    requires Suspended(s)
    ensures LacksOnly(s.messages, s.toolCall.id)
    ensures Settled(s.messages + [ToolResult(s.toolCall.id, result)])
  {
    OneOutstandingLacksOnly(s.messages, s.toolCall.id);
    OutstandingSnoc(s.messages, ToolResult(s.toolCall.id, result));
  }

  /** What the environment answers to one chat or approval: is the assistant configured, may the
      actor run the approved change, and how did it end. */
  datatype Approval = Approval(ready: bool, deny: string, result: Result<string, string>)

  /** A fresh chat over content-only turns. */
  method Chat(world: World, req: Request, store: SessionStore, ready: bool, systemPrompt: string, history: seq<Message>,
              id: string, correlationId: string, now: int)
    returns (s: Progress)
    requires forall i | 0 <= i < |history| :: history[i].role != ToolRole && history[i].toolCalls == []
    requires id !in store.sessions && Bounded(store.sessions) && AllSuspended(store.sessions)
    modifies store
    ensures Bounded(store.sessions) && AllSuspended(store.sessions)
    ensures ready ==>
      Finished(world, req, [Note(systemPrompt)] + history, s, id, now, old(store.sessions), store.sessions)
    ensures !ready ==>
      s.events == [Error(NotConfigured)] && s.prompts == [] && s.invoked == [] && store.sessions == old(store.sessions)
  {
    if !ready { return Progress([], [], 0, [Error(NotConfigured)], []); }
    var messages := [Note(systemPrompt)] + history;
    PlainIsSettled(messages);
    s := Loop(world, req, store, messages, id, correlationId, now);
  }

  /** The outcome of resuming a taken session. */
  ghost predicate Resumed(world: World, sess: Session, user: nat, clientIp: string, approval: Approval,
                          newId: string, now: int,
                          before: Sessions, executed: Option<ToolCall>, result: string, events: seq<Event>,
                          s: Progress, after: Sessions) {
    var tc := sess.toolCall;
    && executed == (if approval.deny == "" then Some(tc) else None)
    && result == Limit(if approval.deny == "" then RawText(approval.result) else "Forbidden: " + approval.deny)
    && events == [ToolFinished(tc.name, tc.id, result, approval.deny != "" || approval.result.Err?)] + s.events
    && Finished(world, Request(user, sess.cluster, clientIp), sess.messages + [ToolResult(tc.id, result)], s, newId,
                now, before, after)
  }

  method Resume(world: World, store: SessionStore, sess: Session, user: nat, clientIp: string, approval: Approval,
                newId: string, correlationId: string, now: int)
    returns (executed: Option<ToolCall>, result: string, events: seq<Event>, s: Progress)
    requires Suspended(sess) && newId !in store.sessions && Bounded(store.sessions) && AllSuspended(store.sessions)
    modifies store
    ensures Bounded(store.sessions) && AllSuspended(store.sessions)
    ensures Resumed(world, sess, user, clientIp, approval, newId, now, old(store.sessions), executed, result, events,
                    s, store.sessions)
  {
    var tc := sess.toolCall;
    var isErr := false;
    executed := None;
    if approval.deny != "" {
      result, isErr := "Forbidden: " + approval.deny, true;
    } else {
      executed, result, isErr := Some(tc), RawText(approval.result), approval.result.Err?;
    }
    result := Limit(result);
    SuspendedResumes(sess, result);
    s := Loop(world, Request(user, sess.cluster, clientIp), store, sess.messages + [ToolResult(tc.id, result)],
              newId, correlationId, now);
    events := [ToolFinished(tc.name, tc.id, result, isErr)] + s.events;
  }

  /** Resumes a paused conversation. The change runs only if its own user takes the session before
      it expires and is still authorised; the session is gone afterwards in any case. */
  method ContinueAction(world: World, store: SessionStore, sessionId: string, user: nat, clientIp: string,
                        approval: Approval,
                        newId: string, correlationId: string, now: int, later: int)
    returns (executed: Option<ToolCall>, result: string, events: seq<Event>, s: Progress)
    requires newId !in store.sessions && Bounded(store.sessions) && AllSuspended(store.sessions)
    modifies store
    ensures Bounded(store.sessions) && AllSuspended(store.sessions)
    ensures var before := old(store.sessions); var outcome := TakeOutcome(before, sessionId, user, now);
      && (executed.Some? <==> outcome == Taken && approval.ready && approval.deny == "")
      && (outcome != Taken ==> events == [Error(if outcome == Forbidden then NotYours else GoneOrExpired)])
      && (outcome == Taken && !approval.ready ==> events == [Error(NotConfigured)])
      && (outcome != Taken || !approval.ready ==>
        store.sessions == TakeFrom(before, sessionId, user, now) && s.prompts == [])
      && (outcome == Taken && approval.ready ==>
            Resumed(world, before[sessionId], user, clientIp, approval, newId, later,
                    TakeFrom(before, sessionId, user, now),
                    executed, result, events, s, store.sessions))
  {
    executed, result, s := None, "", Progress([], [], 0, [], []);
    var sess, outcome := store.TakeOwned(sessionId, user, now);
    if outcome != Taken {
      events := [Error(if outcome == Forbidden then NotYours else GoneOrExpired)];
      return;
    }
    if !approval.ready {
      events := [Error(NotConfigured)];
      return;
    }
    executed, result, events, s :=
      Resume(world, store, sess.value, user, clientIp, approval, newId, correlationId, later);
  }
}
