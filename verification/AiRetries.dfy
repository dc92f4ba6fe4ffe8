/** The composed system of sessions, approvals and operations, carried on from a given state: the one way
    in which an approved change is executed twice does occur. */
module AiRetries {
  import opened Wrappers
  import opened Operations
  import opened OperationRuns
  import opened OperationSafety
  import opened OperationRetries
  import opened AgentConversation
  import opened AgentSessions
  import AgentLoop
  import opened AiChange

  ghost predicate IsAiPath(start: AiState, ss: seq<AiState>, es: seq<AiEvent>) {
    && |ss| == |es| + 1 && ss[0] == start
    && forall i {:trigger es[i]} | 0 <= i < |es| :: AiEnabled(ss[i], es[i]) && ss[i + 1] == AiApply(ss[i], es[i])
  }

  ghost predicate AiLeadsTo(start: AiState, a: AiState) {
    exists ss, es :: IsAiPath(start, ss, es) && ss[|es|] == a
  }

  lemma AiHere(a: AiState)
    ensures AiLeadsTo(a, a)
  {
    var none: seq<AiEvent> := [];
    assert IsAiPath(a, [a], none) && [a][|none|] == a;
  }

  lemma AiOnward(start: AiState, a: AiState, e: AiEvent)
    requires AiLeadsTo(start, a) && AiEnabled(a, e)
    ensures AiLeadsTo(start, AiApply(a, e))
  {
    var ss, es :| IsAiPath(start, ss, es) && ss[|es|] == a;
    assert IsAiPath(start, ss + [AiApply(a, e)], es + [e]);
  }

  lemma {:induction false} LiftPath(start: AiState, a: AiState, os: seq<State>, oe: seq<Event>, n: nat)
    requires AiLeadsTo(start, a) && IsPath(a.ops, os, oe) && n <= |oe|
    ensures AiLeadsTo(start, a.(ops := os[n]))
  {
    if n > 0 {
      LiftPath(start, a, os, oe, n - 1);
      AiOnward(start, a.(ops := os[n - 1]), Op(oe[n - 1]));
    }
  }

  /** Whatever the operations can do by themselves they can do in the composed system. */
  lemma Lift(start: AiState, a: AiState, t: State)
    requires AiLeadsTo(start, a) && LeadsTo(a.ops, t)
    ensures AiLeadsTo(start, a.(ops := t))
  {
    var os, oe :| IsPath(a.ops, os, oe) && os[|oe|] == t;
    LiftPath(start, a, os, oe, |oe|);
  }

  lemma AiReachedInv(a: AiState) returns (ss: seq<AiState>, es: seq<AiEvent>)
    requires AiLeadsTo(AiInit(), a)
    ensures IsAiRun(ss, es) && ss[|es|] == a && AiInv(a) && Inv(a.ops)
  {
    ss, es :| IsAiPath(AiInit(), ss, es) && ss[|es|] == a;
    assert IsAiRun(ss, es);
    AiRunKeepsInv(ss, es, |es|);
    var os, oe :| IsRun(os, oe) && os[|oe|] == a.ops;
    RunKeepsInv(os, oe, |oe|);
  }

  /** Two executed operations, each submitted for approval id or a retry of such a one. */
  ghost predicate ApprovedTwice(a: AiState, x: OpId, y: OpId, id: string) {
    && x != y && x in a.ops.ran && y in a.ops.ran
    && x in a.ops.births && y in a.ops.births && WellParented(a.ops.births)
    && ComesFrom(a, x, id) && ComesFrom(a, y, id)
  }

  /** From any reachable state whose AI change may be retried, a continuation executes one approval twice. */
  lemma ApprovalRunsTwice(a: AiState, p: OpId) returns (b: AiState, x: OpId, y: OpId, id: string)
    requires AiLeadsTo(AiInit(), a) && p in a.ops.rows && MayRetry(a.ops.rows[p]) && KindOf(a.ops, p) == AI_CHANGE
    ensures AiLeadsTo(a, b) && AiLeadsTo(AiInit(), b) && ApprovedTwice(b, x, y, id)
  {
    var _, _ := AiReachedInv(a);
    assert RowInv(a.ops, p);
    var t;
    Here(a.ops);
    t, x, y := RetriedTwiceRunsTwice(a.ops, a.ops, p);
    b := a.(ops := t);
    AiHere(a);
    Lift(a, a, t);
    Lift(AiInit(), a, t);
    id := SiblingsComeFromOne(b, p, x, y);
  }

  lemma SiblingsComeFromOne(b: AiState, p: OpId, x: OpId, y: OpId) returns (id: string)
    requires AiLeadsTo(AiInit(), b) && x in b.ops.births && y in b.ops.births && x != y
    requires b.ops.births[x].parent == b.ops.births[y].parent == Some(p) && p in b.ops.births
    requires KindOf(b.ops, p) == AI_CHANGE && x in b.ops.ran && y in b.ops.ran
    ensures ApprovedTwice(b, x, y, id)
  {
    var ss, es := AiReachedInv(b);
    assert BirthInv(b.ops, x) && BirthInv(b.ops, y);
    EveryExecutionWasApproved(ss, es, |es|, x);
    EveryExecutionWasApproved(ss, es, |es|, y);
    var i :| ComesFrom(b, x, i);
    var j :| ComesFrom(b, y, j);
    assert Edge(b.ops.births, p, x) && Edge(b.ops.births, p, y);
    assert Root(b.ops.births, x) == Root(b.ops.births, y);
    id := i;
  }

  /** A stored conversation, approved in time by its user, and submitted. */
  lemma ApprovedAndSubmitted(sess: Session) returns (a: AiState, op: OpId)
    requires AgentLoop.Suspended(sess)
    ensures AiLeadsTo(AiInit(), a) && Waiting(a.ops, op) && KindOf(a.ops, op) == AI_CHANGE
  {
    op := "a";
    var a1 := Stored(sess);
    var a2 := AiApply(a1, Approve("s", sess.user, 0));
    AiOnward(AiInit(), a1, Approve("s", sess.user, 0));
    AiOnward(AiInit(), a2, Op(NewManager("m", 0)));
    var a3 := AiApply(a2, Op(NewManager("m", 0)));
    AiOnward(AiInit(), a3, SubmitApproved("m", "s", op));
    a := AiApply(a3, SubmitApproved("m", "s", op));
  }

  lemma Stored(sess: Session) returns (a: AiState)
    requires AgentLoop.Suspended(sess)
    ensures AiLeadsTo(AiInit(), a) && a == AiInit().(sessions := a.sessions, saved := a.sessions)
    ensures "s" in a.sessions && a.sessions["s"].user == sess.user && a.sessions["s"].expiresAt >= 0
  {
    AiHere(AiInit());
    assert Live(map[], 0) == map[] && OfUser(map[], sess.user) == {};
    AiOnward(AiInit(), AiInit(), SaveSession("s", sess, "c", 0));
    a := AiApply(AiInit(), SaveSession("s", sess, "c", 0));
  }

  /** Hence, for every conversation that waits for approval, a run in which the user approves it once and the
      change is executed twice. */
  lemma OneApprovalTwoExecutions(sess: Session) returns (b: AiState, x: OpId, y: OpId, id: string)
    requires AgentLoop.Suspended(sess)
    ensures AiLeadsTo(AiInit(), b) && ApprovedTwice(b, x, y, id)
  {
    var a, op := ApprovedAndSubmitted(sess);
    Here(a.ops);
    var s1, w := NewReplica(a.ops, a.ops);
    var t := FailOne(a.ops, s1, w, op);
    Lift(AiInit(), a, t);
    b, x, y, id := ApprovalRunsTwice(a.(ops := t), op);
  }

  /** There are such conversations. */
  lemma SomeSession() returns (sess: Session)
    ensures AgentLoop.Suspended(sess)
  {
    var call := ToolCall("1", "delete_resource", "");
    var reply := Reply("", [call]);
    sess := Session([reply], call, "c", 1, "", "", 0);
    assert Settled([]);
    OutstandingSnoc([], reply);
    assert [] + [reply] == [reply] && [call][..0] == [];
    assert CallIds([call]) == multiset{call.id};
  }
}
