/** From a proposed change to its execution: sessions, approvals and operations together. */
module AiChange {
  import opened Wrappers
  import opened Operations
  import opened OperationRuns
  import opened OperationSafety
  import OperationManager
  import opened AgentSessions
  import AgentLoop

  // ----- the executor -----

  /** What the environment answers while an approved change is executed. */
  datatype Execution = Execution(decoded: bool, ready: bool, deny: string, applied: bool)

  function ResultOf(x: Execution): AiResult {
    if !x.decoded then InvalidInput
    else if !x.ready then NotConfigured
    else if x.deny != "" then Denied
    else if !x.applied then ToolFailed
    else Applied
  }

  /** The change is sent to the cluster exactly when everything before it went well, and whatever
      happens the failure is not retryable. */
  method RunExecutor(x: Execution) returns (outcome: Outcome, sent: bool)
    ensures outcome == AiOutcome(ResultOf(x))
    ensures sent <==> x.decoded && x.ready && x.deny == ""
    ensures outcome == Success <==> sent && x.applied
    ensures outcome.Failure? ==> !outcome.retryable
    ensures !x.decoded ==> outcome == Failure("INVALID_OPERATION_INPUT", false)
    ensures x.decoded && !x.ready ==> outcome == Failure("AI_CONFIGURATION_INVALID", false)
    ensures x.decoded && x.ready && x.deny != "" ==> outcome == Failure("PERMISSION_DENIED", false)
    ensures sent && !x.applied ==> outcome == Failure("AI_CHANGE_FAILED", false)
  {
    sent := false;
    if !x.decoded { return Failure("INVALID_OPERATION_INPUT", false), sent; }
    if !x.ready { return Failure("AI_CONFIGURATION_INVALID", false), sent; }
    if x.deny != "" { return Failure("PERMISSION_DENIED", false), sent; }
    sent := true;
    if !x.applied { return Failure("AI_CHANGE_FAILED", false), sent; }
    outcome := Success;
  }

  function TaskOf(s: Session): Task {
    Task(s.user, AI_CHANGE, "ai_change", s.toolCall.name,
         Approved(s.toolCall.id, s.toolCall.name, s.toolCall.arguments, s.cluster, s.clientIp, s.correlationId))
  }

  /** The operation is to carry out the session's tool call, whole, for the session's user, with the cluster,
      address and correlation id that were stored with it. */
  predicate CarriesOut(task: Task, sess: Session) {
    && task.user == sess.user && task.kind == "ai_change" && task.action == "ai_change"
    && task.target == sess.toolCall.name && task.payload.Approved?
    && task.payload.callId == sess.toolCall.id && task.payload.tool == sess.toolCall.name
    && task.payload.arguments == sess.toolCall.arguments
    && task.payload.cluster == sess.cluster && task.payload.clientIp == sess.clientIp
    && task.payload.correlationId == sess.correlationId
  }

  /** The approval handler: takes the session and submits its change as an operation of the same user. */
  method ApproveAndSubmit(store: SessionStore, manager: OperationManager.Manager, sessionId: string, user: nat,
                          opId: OpId, now: int)
    returns (r: Result<OpId, TakeResult>)
    requires Bounded(store.sessions) && opId !in manager.db.rows
    modifies store, manager`queue, manager.db
    ensures Bounded(store.sessions) && store.sessions == TakeFrom(old(store.sessions), sessionId, user, now)
    ensures r.Ok? <==> TakeOutcome(old(store.sessions), sessionId, user, now) == Taken
    ensures r.Ok? ==> old(store.sessions)[sessionId].user == user
    ensures r.Ok? ==>
      manager.db.rows == old(manager.db.rows)[opId := NewRow(TaskOf(old(store.sessions)[sessionId]), None, now)]
    ensures r.Ok? ==>
      && sessionId in old(store.sessions) && r.value == opId && opId in manager.db.rows
      && CarriesOut(manager.db.rows[opId].task, old(store.sessions)[sessionId])
    ensures r.Err? ==> manager.db.rows == old(manager.db.rows)
  {
    var sess, outcome := store.TakeOwned(sessionId, user, now);
    if outcome != Taken { return Err(outcome); }
    manager.Submit(opId, TaskOf(sess.value), now);
    r := Ok(opId);
  }

  // ----- the composed system -----

  datatype Taking = Taking(user: nat, at: int)

  datatype AiState = AiState(
    ops: State,
    sessions: Sessions,
    saved: map<string, Session>,      // every session ever stored
    taken: map<string, Taking>,       // every approval that took its session
    origin: map<OpId, string>)        // the session an AI change was submitted for

  function AiInit(): AiState { AiState(Init(), map[], map[], map[], map[]) }

  datatype AiEvent =
    | SaveSession(id: string, sess: Session, correlationId: string, now: int)
    | Approve(id: string, user: nat, now: int)
    | SubmitApproved(m: ManagerId, id: string, opId: OpId)
    | Op(e: Event)

  function SubmitOf(a: AiState, e: AiEvent): Event
    requires e.SubmitApproved? && e.id in a.saved
  {
    Submit(e.m, e.opId, TaskOf(a.saved[e.id]))
  }

  ghost predicate AiEnabled(a: AiState, e: AiEvent) {
    match e
    case SaveSession(id, sess, _, _) => id !in a.saved && AgentLoop.Suspended(sess)
    case Approve(_, _, _) => true
    case SubmitApproved(_, id, _) =>
      id in a.taken && id in a.saved && id !in a.origin.Values && Enabled(a.ops, SubmitOf(a, e))
    case Op(op) => Enabled(a.ops, op) && !(op.Submit? && op.task.kind == AI_CHANGE)
  }

  function AiApply(a: AiState, e: AiEvent): AiState
    requires AiEnabled(a, e)
  {
    match e
    case SaveSession(id, sess, correlationId, now) =>
      a.(sessions := SaveIn(a.sessions, sess, id, correlationId, now),
         saved := if !HasRoom(a.sessions, sess.user, now) then a.saved
                  else a.saved[id := Stamped(sess, correlationId, now)])
    case Approve(id, user, now) =>
      a.(sessions := TakeFrom(a.sessions, id, user, now),
         taken := if TakeOutcome(a.sessions, id, user, now) == Taken then a.taken[id := Taking(user, now)] else a.taken)
    case SubmitApproved(_, id, opId) => a.(ops := Apply(a.ops, SubmitOf(a, e)), origin := a.origin[opId := id])
    case Op(op) => a.(ops := Apply(a.ops, op))
  }

  ghost predicate IsAiRun(ss: seq<AiState>, es: seq<AiEvent>) {
    |ss| == |es| + 1 && ss[0] == AiInit()
    && forall i {:trigger es[i]} | 0 <= i < |es| :: AiEnabled(ss[i], es[i]) && ss[i + 1] == AiApply(ss[i], es[i])
  }

  // ----- its invariant -----

  ghost predicate SessionsInv(a: AiState) {
    && Bounded(a.sessions)
    && (forall id | id in a.sessions :: id in a.saved && a.sessions[id] == a.saved[id] && id !in a.taken)
    && (forall id | id in a.taken :: TakingInv(a, id))
  }

  /** Taken by its own user, before it expired. */
  ghost predicate TakingInv(a: AiState, id: string)
    requires id in a.taken
  {
    id in a.saved && a.taken[id].user == a.saved[id].user && a.taken[id].at <= a.saved[id].expiresAt
  }

  ghost predicate OriginInv(a: AiState, op: OpId)
    requires op in a.origin
  {
    && op in a.ops.births && a.ops.births[op].parent.None?
    && a.origin[op] in a.taken && a.origin[op] in a.saved && a.ops.births[op].task == TaskOf(a.saved[a.origin[op]])
  }

  ghost predicate OriginsInv(a: AiState) {
    && (forall op | op in a.origin :: OriginInv(a, op))
    && (forall x, y | x in a.origin && y in a.origin && a.origin[x] == a.origin[y] :: x == y)
    && (forall op | op in a.ops.births && a.ops.births[op].parent.None? && a.ops.births[op].task.kind == AI_CHANGE ::
      op in a.origin)
  }

  ghost predicate AiInv(a: AiState) { Reachable(a.ops) && SessionsInv(a) && OriginsInv(a) }

  lemma StepKeepsSessions(a: AiState, e: AiEvent)
    requires AiInv(a) && AiEnabled(a, e)
    ensures SessionsInv(AiApply(a, e))
  {
    var b := AiApply(a, e);
    match e
    case SaveSession(id, sess, correlationId, now) =>
      SaveKeepsBounded(a.sessions, sess, id, correlationId, now);
      forall x | x in b.taken ensures TakingInv(b, x) { assert TakingInv(a, x); }
    case Approve(id, user, now) =>
      TakeKeepsBounded(a.sessions, id, user, now);
      forall x | x in b.taken ensures TakingInv(b, x) { if x in a.taken { assert TakingInv(a, x); } }
    case _ =>
      forall x | x in b.taken ensures TakingInv(b, x) { assert TakingInv(a, x); }
  }

  /** Operations never change how an operation came to be; only Submit makes new roots. */
  lemma StepKeepsBirths(s: State, e: Event)
    requires Enabled(s, e)
    ensures forall id | id in s.births :: id in Apply(s, e).births && Apply(s, e).births[id] == s.births[id]
    ensures forall id | id in Apply(s, e).births && id !in s.births && Apply(s, e).births[id].parent.None? ::
      e.Submit? && id == e.id && Apply(s, e).births[id].task == e.task
  {
  }

  lemma SubmitAddsRoot(s: State, m: ManagerId, id: OpId, task: Task)
    requires Enabled(s, Submit(m, id, task))
    ensures Apply(s, Submit(m, id, task)).births == s.births[id := Birth(task, None, |s.births|, None)]
  {
  }

  lemma StepKeepsOrigins(a: AiState, e: AiEvent)
    requires AiInv(a) && AiEnabled(a, e) && (e.Op? || e.SubmitApproved?)
    ensures OriginsInv(AiApply(a, e))
  {
    var b := AiApply(a, e);
    var op := if e.Op? then e.e else SubmitOf(a, e);
    StepKeepsBirths(a.ops, op);
    if e.SubmitApproved? {
      SubmitAddsRoot(a.ops, e.m, e.opId, TaskOf(a.saved[e.id]));
      forall x | x in a.origin ensures a.origin[x] != e.id { assert a.origin[x] in a.origin.Values; }
    }
    forall x | x in b.origin ensures OriginInv(b, x) { if x in a.origin { assert OriginInv(a, x); } }
  }

  lemma StepKeepsAiInv(a: AiState, e: AiEvent)
    requires AiInv(a) && AiEnabled(a, e)
    ensures AiInv(AiApply(a, e))
  {
    var b := AiApply(a, e);
    StepKeepsSessions(a, e);
    if e.Op? {
      ReachStep(a.ops, e.e);
      StepKeepsOrigins(a, e);
    } else if e.SubmitApproved? {
      ReachStep(a.ops, SubmitOf(a, e));
      StepKeepsOrigins(a, e);
    } else {
      forall x | x in b.origin ensures OriginInv(b, x) { assert OriginInv(a, x); }
    }
  }

  lemma {:induction false} AiRunKeepsInv(ss: seq<AiState>, es: seq<AiEvent>, i: nat)
    requires IsAiRun(ss, es) && i < |ss|
    ensures AiInv(ss[i])
  {
    if i == 0 {
      var none: seq<Event> := [];
      assert IsRun([Init()], none) && [Init()][|none|] == Init();
    } else {
      AiRunKeepsInv(ss, es, i - 1);
      assert ss[i] == AiApply(ss[i - 1], es[i - 1]);
      StepKeepsAiInv(ss[i - 1], es[i - 1]);
    }
  }

  // ----- theorems -----

  ghost predicate Takes(a: AiState, e: AiEvent, id: string) {
    e.Approve? && e.id == id && TakeOutcome(a.sessions, id, e.user, e.now) == Taken
  }

  lemma {:induction false} TakenStaysTaken(ss: seq<AiState>, es: seq<AiEvent>, i: nat, j: nat, id: string)
    requires IsAiRun(ss, es) && i <= j < |ss| && id in ss[i].taken
    ensures id in ss[j].taken
  {
    if i < j {
      TakenStaysTaken(ss, es, i, j - 1, id);
      assert ss[j] == AiApply(ss[j - 1], es[j - 1]);
    }
  }

  lemma NotTakenTwice(ss: seq<AiState>, es: seq<AiEvent>, i: nat, j: nat, id: string)
    requires IsAiRun(ss, es) && i < j < |es| && Takes(ss[i], es[i], id)
    ensures !Takes(ss[j], es[j], id)
  {
    assert ss[i + 1] == AiApply(ss[i], es[i]);
    TakenStaysTaken(ss, es, i + 1, j, id);
    AiRunKeepsInv(ss, es, j);
  }

  /** Each stored session is taken at most once, by its own user, and not after it expired. */
  lemma TakenOnce(ss: seq<AiState>, es: seq<AiEvent>, i: nat, j: nat, id: string)
    requires IsAiRun(ss, es) && i < |es| && j < |es| && Takes(ss[i], es[i], id) && Takes(ss[j], es[j], id)
    ensures i == j && id in ss[i].saved && es[i].user == ss[i].saved[id].user && es[i].now <= ss[i].saved[id].expiresAt
  {
    AiRunKeepsInv(ss, es, i);
    if i < j { NotTakenTwice(ss, es, i, j, id); }
    if j < i { NotTakenTwice(ss, es, j, i, id); }
  }

  /** In every reachable state at most 100 conversations wait, at most 5 of one user. */
  lemma StoreStaysBounded(ss: seq<AiState>, es: seq<AiEvent>, i: nat)
    requires IsAiRun(ss, es) && i < |ss|
    ensures Bounded(ss[i].sessions)
  {
    AiRunKeepsInv(ss, es, i);
  }

  /** The root of an executed AI change was submitted for one session: stored with a conversation that
      lacks only the result of a mutation, taken by its own user in time; the executed task is that call. */
  ghost predicate ComesFrom(a: AiState, op: OpId, id: string)
    requires op in a.ops.births && WellParented(a.ops.births)
  {
    var root := Root(a.ops.births, op);
    && root in a.origin && a.origin[root] == id
    && id in a.saved && id in a.taken && TakingInv(a, id)
    && a.ops.births[op].task == TaskOf(a.saved[id])
  }

  lemma SavedStaysOrIsNew(a: AiState, e: AiEvent, id: string)
    requires AiEnabled(a, e) && id in AiApply(a, e).saved
    ensures if id in a.saved then AiApply(a, e).saved[id] == a.saved[id]
            else e.SaveSession? && AiApply(a, e).saved[id] == Stamped(e.sess, e.correlationId, e.now)
  {
  }

  /** Every conversation that was ever stored lacks only the result of the mutation it proposes. */
  lemma {:induction false} SavedIsSuspended(ss: seq<AiState>, es: seq<AiEvent>, i: nat, id: string)
    requires IsAiRun(ss, es) && i < |ss| && id in ss[i].saved
    ensures AgentLoop.Suspended(ss[i].saved[id])
  {
    var k := i - 1;
    assert ss[i] == AiApply(ss[k], es[k]);
    SavedStaysOrIsNew(ss[k], es[k], id);
    if id in ss[k].saved { SavedIsSuspended(ss, es, k, id); }
  }

  lemma EveryExecutionWasApproved(ss: seq<AiState>, es: seq<AiEvent>, i: nat, op: OpId)
    requires IsAiRun(ss, es) && i < |ss| && op in ss[i].ops.ran && KindOf(ss[i].ops, op) == AI_CHANGE
    ensures op in ss[i].ops.births && WellParented(ss[i].ops.births)
    ensures exists id :: ComesFrom(ss[i], op, id) && CarriesOut(ss[i].ops.births[op].task, ss[i].saved[id])
    ensures ss[i].ops.births[op].task.payload.Approved? && AgentLoop.IsMutation(ss[i].ops.births[op].task.payload.tool)
  {
    var a := ss[i];
    AiRunKeepsInv(ss, es, i);
    var os, oe :| IsRun(os, oe) && os[|oe|] == a.ops;
    RunKeepsInv(os, oe, |oe|);
    RunWellParented(os, oe, |oe|);
    RootIsRoot(a.ops.births, op);
    var root := Root(a.ops.births, op);
    assert OriginInv(a, root);
    assert ComesFrom(a, op, a.origin[root]) && CarriesOut(a.ops.births[op].task, a.saved[a.origin[root]]);
    SavedIsSuspended(ss, es, i, a.origin[root]);
  }

  /** Two executions for the same approval lie on different branches of an operation of the approval's own
      family that was retried twice, and never one above the other. */
  lemma OneApprovalOneExecution(ss: seq<AiState>, es: seq<AiEvent>, i: nat, x: OpId, y: OpId, id: string)
    requires IsAiRun(ss, es) && i < |ss| && x in ss[i].ops.ran && y in ss[i].ops.ran && x != y
    requires x in ss[i].ops.births && y in ss[i].ops.births && WellParented(ss[i].ops.births)
    requires ComesFrom(ss[i], x, id) && ComesFrom(ss[i], y, id)
    ensures !Ancestor(ss[i].ops.births, x, y) && !Ancestor(ss[i].ops.births, y, x) && Fork(ss[i].ops.births, x, y)
  {
    AiRunKeepsInv(ss, es, i);
    var os, oe :| IsRun(os, oe) && os[|oe|] == ss[i].ops;
    OneExecutionPerApproval(os, oe, |oe|, x, y);
  }
}
