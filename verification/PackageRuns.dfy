/** Confirmations and operations together: from the preview of a package change to its execution in the
    background, and how often one confirmation can be carried out. */
module PackageRuns {
  import opened Wrappers
  import opened Operations
  import opened OperationRuns
  import opened OperationSafety
  import opened OperationRetries
  import Grants = PackageConfirmation

  /** A confirmed change, with the source as it was asked for and the digest that the preview showed. */
  datatype Confirmed = Confirmed(request: Grants.Request, source: Grants.ChartSource, digest: string)

  datatype System = System(
    ops: State,
    grants: Grants.Grants,
    issued: set<string>,              // every token ever drawn
    confirmed: map<string, Confirmed>, // every token that confirmed its change
    origin: map<OpId, string>)        // the token an operation was submitted for

  function Begin(): System { System(Init(), map[], {}, map[], map[]) }

  datatype Step =
    | Grant(g: Grants.Event, source: Grants.ChartSource)
    | SubmitConfirmed(m: ManagerId, token: string, id: OpId)
    | Op(e: Event)

  predicate IsChange(task: Task) { task.kind == HELM_RELEASE && (task.action == "install" || task.action == "upgrade") }

  predicate IsOperation(operation: string) { operation == "install" || operation == "upgrade" }

  /** What the handler submits for it. */
  function TaskFor(c: Confirmed): Task {
    var o := c.request.options;
    var values := if o.values == Some("null") || o.values == Some("{}") then None else o.values;
    Task(c.request.user, HELM_RELEASE, c.request.operation, o.releaseName,
         Change(c.request.cluster, o.namespace, o.releaseName, c.source.chart, c.source.repoUrl, c.source.version,
                c.source.repositoryId, c.source.uploadId, values, o.createNamespace, o.wait, o.atomic,
                o.timeout / 1000, c.digest))
  }

  /** The task is to carry out the confirmed change: release, options and digest as confirmed, the source as it
      was asked for, to be resolved again, and the timeout in whole seconds. */
  predicate CarriesOut(task: Task, c: Confirmed) {
    var o := c.request.options;
    && task.user == c.request.user && task.kind == "helm_release" && task.action == c.request.operation
    && task.target == o.releaseName && task.payload.Change?
    && task.payload.cluster == c.request.cluster && task.payload.namespace == o.namespace
    && task.payload.name == o.releaseName && task.payload.createNamespace == o.createNamespace
    && task.payload.wait == o.wait && task.payload.atomic == o.atomic
    && (task.payload.values == o.values || (task.payload.values == None && o.values in {Some("null"), Some("{}")}))
    && task.payload.chart == c.source.chart && task.payload.repoUrl == c.source.repoUrl
    && task.payload.version == c.source.version && task.payload.repositoryId == c.source.repositoryId
    && task.payload.uploadId == c.source.uploadId && task.payload.expectedDigest == c.digest
    && o.timeout - 1000 < task.payload.timeoutSeconds * 1000 <= o.timeout
  }

  ghost predicate Possible(a: System, e: Step) {
    match e
    case Grant(g, _) => Grants.Enabled(a.issued, g) && (g.Mint? ==> IsOperation(g.request.operation))
    case SubmitConfirmed(m, token, id) =>
      token in a.confirmed && token !in a.origin.Values && Enabled(a.ops, Submit(m, id, TaskFor(a.confirmed[token])))
    case Op(op) => Enabled(a.ops, op) && !(op.Submit? && IsChange(op.task))
  }

  function Next(a: System, e: Step): System
    requires Possible(a, e)
  {
    match e
    case Grant(g, source) =>
      a.(grants := Grants.Apply(a.grants, g), issued := if g.Mint? then a.issued + {g.token} else a.issued,
         confirmed := if !Grants.Succeeds(a.grants, g) then a.confirmed
                      else a.confirmed[g.token := Confirmed(g.request, source, a.grants[g.token].digest)])
    case SubmitConfirmed(m, token, id) =>
      a.(ops := Apply(a.ops, Submit(m, id, TaskFor(a.confirmed[token]))), origin := a.origin[id := token])
    case Op(op) => a.(ops := Apply(a.ops, op))
  }

  ghost predicate IsHistory(start: System, ss: seq<System>, es: seq<Step>) {
    && |ss| == |es| + 1 && ss[0] == start
    && forall i {:trigger es[i]} | 0 <= i < |es| :: Possible(ss[i], es[i]) && ss[i + 1] == Next(ss[i], es[i])
  }

  ghost predicate ComesTo(start: System, a: System) {
    exists ss, es :: IsHistory(start, ss, es) && ss[|es|] == a
  }

  lemma ComesToItself(a: System)
    ensures ComesTo(a, a)
  {
    var none: seq<Step> := [];
    assert IsHistory(a, [a], none) && [a][|none|] == a;
  }

  lemma ComesToNext(start: System, a: System, e: Step)
    requires ComesTo(start, a) && Possible(a, e)
    ensures ComesTo(start, Next(a, e))
  {
    var ss, es :| IsHistory(start, ss, es) && ss[|es|] == a;
    assert IsHistory(start, ss + [Next(a, e)], es + [e]);
  }

  // ----- the invariant -----

  /** A token is pending or has been presented, never both, and stands for an install or an upgrade. */
  ghost predicate TokensInv(a: System) {
    && (forall t | t in a.grants :: t in a.issued && IsOperation(a.grants[t].operation))
    && (forall t | t in a.confirmed :: t in a.issued && t !in a.grants && IsOperation(a.confirmed[t].request.operation))
  }

  ghost predicate OriginInv(a: System, op: OpId)
    requires op in a.origin
  {
    && op in a.ops.births && a.ops.births[op].parent.None?
    && a.origin[op] in a.confirmed && a.ops.births[op].task == TaskFor(a.confirmed[a.origin[op]])
  }

  ghost predicate OriginsInv(a: System) {
    && (forall op | op in a.origin :: OriginInv(a, op))
    && (forall x, y | x in a.origin && y in a.origin && a.origin[x] == a.origin[y] :: x == y)
    && (forall op | op in a.ops.births && a.ops.births[op].parent.None? && IsChange(a.ops.births[op].task) ::
      op in a.origin)
  }

  ghost predicate SystemInv(a: System) { Reachable(a.ops) && TokensInv(a) && OriginsInv(a) }

  lemma GrantKeepsTokens(a: System, g: Grants.Event, source: Grants.ChartSource)
    requires TokensInv(a) && Possible(a, Grant(g, source))
    ensures TokensInv(Next(a, Grant(g, source)))
    ensures forall t | t in a.confirmed ::
      t in Next(a, Grant(g, source)).confirmed && Next(a, Grant(g, source)).confirmed[t] == a.confirmed[t]
  {
  }

  lemma RootsAfter(s: State, e: Event)
    requires Enabled(s, e)
    ensures forall id | id in s.births :: id in Apply(s, e).births && Apply(s, e).births[id] == s.births[id]
    ensures forall id | id in Apply(s, e).births && id !in s.births && Apply(s, e).births[id].parent.None? ::
      e.Submit? && id == e.id && Apply(s, e).births[id].task == e.task
  {
  }

  lemma SubmitKeepsOrigins(a: System, m: ManagerId, token: string, id: OpId)
    requires OriginsInv(a) && Possible(a, SubmitConfirmed(m, token, id))
    ensures OriginsInv(Next(a, SubmitConfirmed(m, token, id)))
  {
    var b := Next(a, SubmitConfirmed(m, token, id));
    RootsAfter(a.ops, Submit(m, id, TaskFor(a.confirmed[token])));
    forall x | x in a.origin ensures a.origin[x] != token { assert a.origin[x] in a.origin.Values; }
    assert b.ops.births == a.ops.births[id := Birth(TaskFor(a.confirmed[token]), None, |a.ops.births|, None)];
    forall x | x in b.origin ensures OriginInv(b, x) { if x in a.origin { assert OriginInv(a, x); } }
  }

  lemma OpKeepsOrigins(a: System, op: Event)
    requires OriginsInv(a) && Possible(a, Op(op))
    ensures OriginsInv(Next(a, Op(op)))
  {
    var b := Next(a, Op(op));
    RootsAfter(a.ops, op);
    forall x | x in b.origin ensures OriginInv(b, x) { assert OriginInv(a, x); }
  }

  lemma NextKeepsInv(a: System, e: Step)
    requires SystemInv(a) && Possible(a, e)
    ensures SystemInv(Next(a, e))
  {
    match e
    case Grant(g, source) =>
      GrantKeepsTokens(a, g, source);
      forall x | x in a.origin ensures OriginInv(Next(a, e), x) { assert OriginInv(a, x); }
    case SubmitConfirmed(m, token, id) =>
      ReachStep(a.ops, Submit(m, id, TaskFor(a.confirmed[token])));
      SubmitKeepsOrigins(a, m, token, id);
    case Op(op) =>
      ReachStep(a.ops, op);
      OpKeepsOrigins(a, op);
  }

  lemma {:induction false} HistoryKeepsInv(ss: seq<System>, es: seq<Step>, i: nat)
    requires IsHistory(Begin(), ss, es) && i < |ss|
    ensures SystemInv(ss[i])
  {
    if i == 0 {
      var none: seq<Event> := [];
      assert IsRun([Init()], none) && [Init()][|none|] == Init();
    } else {
      HistoryKeepsInv(ss, es, i - 1);
      assert ss[i] == Next(ss[i - 1], es[i - 1]);
      NextKeepsInv(ss[i - 1], es[i - 1]);
    }
  }

  // ----- theorems -----

  /** op descends from the operation submitted for this token's confirmed change, and does just that. */
  ghost predicate StemsFrom(a: System, op: OpId, token: string)
    requires op in a.ops.births && WellParented(a.ops.births)
  {
    var root := Root(a.ops.births, op);
    root in a.origin && a.origin[root] == token && token in a.confirmed
    && a.ops.births[op].task == TaskFor(a.confirmed[token])
  }

  lemma ReachedInv(a: System)
    requires ComesTo(Begin(), a)
    ensures SystemInv(a) && Inv(a.ops) && WellParented(a.ops.births)
  {
    var ss, es :| IsHistory(Begin(), ss, es) && ss[|es|] == a;
    HistoryKeepsInv(ss, es, |es|);
    var os, oe :| IsRun(os, oe) && os[|oe|] == a.ops;
    RunKeepsInv(os, oe, |oe|);
    RunWellParented(os, oe, |oe|);
  }

  /** Every install or upgrade that was ever queued, and so every one executed, was confirmed. */
  lemma EveryChangeWasConfirmed(a: System, op: OpId) returns (token: string)
    requires ComesTo(Begin(), a) && op in a.ops.births && IsChange(a.ops.births[op].task)
    ensures WellParented(a.ops.births) && StemsFrom(a, op, token) && token in a.issued && token !in a.grants
    ensures token in a.confirmed && CarriesOut(a.ops.births[op].task, a.confirmed[token])
  {
    ReachedInv(a);
    RootIsRoot(a.ops.births, op);
    var root := Root(a.ops.births, op);
    assert OriginInv(a, root);
    token := a.origin[root];
  }

  /** Along one retry path a confirmation is carried out at most once: every earlier attempt answered that
      there was a conflict. Two that were carried out have been parted by an operation retried twice. */
  lemma ConfirmationCarriedOutOnce(a: System, x: OpId, y: OpId, token: string)
    requires ComesTo(Begin(), a) && WellParented(a.ops.births) && x in a.ops.births && y in a.ops.births && x != y
    requires StemsFrom(a, x, token) && StemsFrom(a, y, token) && CarriedOut(a.ops, x) && CarriedOut(a.ops, y)
    ensures !Ancestor(a.ops.births, x, y) && !Ancestor(a.ops.births, y, x) && Fork(a.ops.births, x, y)
  {
    ReachedInv(a);
    var os, oe :| IsRun(os, oe) && os[|oe|] == a.ops;
    CarriedOutOnce(os, oe, |oe|, x, y);
  }

  lemma {:induction false} LiftPath(start: System, a: System, os: seq<State>, oe: seq<Event>, n: nat)
    requires ComesTo(start, a) && IsPath(a.ops, os, oe) && n <= |oe|
    ensures ComesTo(start, a.(ops := os[n]))
  {
    if n > 0 {
      LiftPath(start, a, os, oe, n - 1);
      ComesToNext(start, a.(ops := os[n - 1]), Op(oe[n - 1]));
    }
  }

  /** Whatever the operations can do by themselves they can do in the composed system. */
  lemma Lift(start: System, a: System, t: State)
    requires ComesTo(start, a) && LeadsTo(a.ops, t)
    ensures ComesTo(start, a.(ops := t))
  {
    var os, oe :| IsPath(a.ops, os, oe) && os[|oe|] == t;
    LiftPath(start, a, os, oe, |oe|);
  }

  lemma ConflictsAgain(s: State, p: OpId, n: nat) returns (t: State, path: seq<OpId>)
    requires p in s.rows && p in s.births && MayRetry(s.rows[p]) && s.rows[p].task.kind == HELM_RELEASE
    ensures LeadsTo(s, t) && |path| == n + 1 && path[0] == p && Chain(t.births, path) && t.ran == s.ran + path[1..]
    ensures p in t.births && t.births[p] == s.births[p]
  {
    Here(s);
    var conflict := Failure("RELEASE_CONFLICT", true);
    assert conflict == PackageOutcome(Conflict);
    t, path := AnyNumberOfAttempts(s, s, p, conflict, n);
  }

  /** From any reachable state whose change may be retried, one confirmation can come to be attempted any
      number of times more, along one path, each attempt ending in a conflict. */
  lemma AttemptedAnyNumberOfTimes(a: System, p: OpId, n: nat) returns (b: System, path: seq<OpId>, token: string)
    requires ComesTo(Begin(), a) && p in a.ops.rows && MayRetry(a.ops.rows[p]) && IsChange(a.ops.rows[p].task)
    ensures ComesTo(a, b) && ComesTo(Begin(), b) && WellParented(b.ops.births)
    ensures |path| == n + 1 && path[0] == p && Chain(b.ops.births, path) && b.ops.ran == a.ops.ran + path[1..]
    ensures forall x | x in path :: x in b.ops.births && StemsFrom(b, x, token)
  {
    ReachedInv(a);
    assert RowInv(a.ops, p);
    var t;
    t, path := ConflictsAgain(a.ops, p, n);
    b := a.(ops := t);
    ComesToItself(a);
    Lift(a, a, t);
    Lift(Begin(), a, t);
    ReachedInv(b);
    assert b.ops.births[p] == a.ops.births[p];
    token := EveryChangeWasConfirmed(b, p);
    PathStems(b, path, token);
  }

  lemma PathStems(b: System, path: seq<OpId>, token: string)
    requires WellParented(b.ops.births) && Chain(b.ops.births, path) && path != [] && path[0] in b.ops.births
    requires StemsFrom(b, path[0], token)
    ensures forall x | x in path :: x in b.ops.births && StemsFrom(b, x, token)
  {
    forall x | x in path ensures x in b.ops.births && StemsFrom(b, x, token) {
      var k :| 0 <= k < |path| && path[k] == x;
      ChainStems(b, path, k, token);
    }
  }

  lemma {:induction false} ChainStems(b: System, path: seq<OpId>, k: nat, token: string)
    requires WellParented(b.ops.births) && Chain(b.ops.births, path) && k < |path| && path[0] in b.ops.births
    requires StemsFrom(b, path[0], token)
    ensures path[k] in b.ops.births && StemsFrom(b, path[k], token)
  {
    if k > 0 {
      ChainStems(b, path, k - 1, token);
      assert Edge(b.ops.births, path[k - 1], path[k]);
    }
  }

  /** And it can come to be carried out twice, by retrying one operation twice. */
  lemma ConfirmationRunsTwice(a: System, p: OpId) returns (b: System, x: OpId, y: OpId, token: string)
    requires ComesTo(Begin(), a) && p in a.ops.rows && MayRetry(a.ops.rows[p]) && IsChange(a.ops.rows[p].task)
    ensures ComesTo(a, b) && WellParented(b.ops.births) && x in b.ops.births && y in b.ops.births && x != y
    ensures StemsFrom(b, x, token) && StemsFrom(b, y, token) && CarriedOut(b.ops, x) && CarriedOut(b.ops, y)
  {
    ReachedInv(a);
    assert RowInv(a.ops, p);
    Here(a.ops);
    var t;
    t, x, y := RetriedTwiceRunsTwice(a.ops, a.ops, p);
    b := a.(ops := t);
    ComesToItself(a);
    Lift(a, a, t);
    Lift(Begin(), a, t);
    ReachedInv(b);
    token := EveryChangeWasConfirmed(b, p);
    assert Edge(b.ops.births, p, x) && Edge(b.ops.births, p, y);
    NotYetDeferred(a.ops, x);
    NotYetDeferred(a.ops, y);
  }

  lemma NotYetDeferred(s: State, id: OpId)
    requires Inv(s) && id !in s.births
    ensures id !in s.deferred
  {
    assert forall x | x in s.deferred :: x in s.ran && Left(s, x);
  }

  /** For every change there is a reachable state in which it was confirmed, queued, and may be retried. */
  lemma SomeRetryableChange(request: Grants.Request, source: Grants.ChartSource, digest: string)
    returns (a: System, p: OpId)
    requires IsOperation(request.operation)
    ensures ComesTo(Begin(), a) && p in a.ops.rows && MayRetry(a.ops.rows[p]) && IsChange(a.ops.rows[p].task)
    ensures exists t :: t in a.confirmed && a.confirmed[t] == Confirmed(request, source, digest)
  {
    p := "a";
    var a2 := ConfirmedFirst("t", request, source, digest);
    ComesToNext(Begin(), a2, Op(NewManager("m", 0)));
    var a3 := Next(a2, Op(NewManager("m", 0)));
    ComesToNext(Begin(), a3, SubmitConfirmed("m", "t", p));
    var a4 := Next(a3, SubmitConfirmed("m", "t", p));
    Here(a4.ops);
    var s, w := NewReplica(a4.ops, a4.ops);
    var t := FailOne(a4.ops, s, w, p);
    Lift(Begin(), a4, t);
    a := a4.(ops := t);
    assert a.confirmed["t"] == Confirmed(request, source, digest);
  }

  lemma ConfirmedFirst(token: string, request: Grants.Request, source: Grants.ChartSource, digest: string)
    returns (a: System)
    ensures IsOperation(request.operation) ==> ComesTo(Begin(), a)
    ensures a.ops == Init() && a.origin == map[] && token in a.confirmed
      && a.confirmed[token] == Confirmed(request, source, digest)
  {
    ComesToItself(Begin());
    var admin := Grants.Actor(request.user, true, false, false);
    var mint, use := Grants.Mint(token, request, admin, true, digest, 0), Grants.Prepare(token, request, 0);
    assert Grants.Pruned(map[], 0) == map[];
    var a1 := Begin().(grants := Grants.Apply(map[], mint), issued := {token});
    a := a1.(grants := Grants.Apply(a1.grants, use), confirmed := map[token := Confirmed(request, source, digest)]);
    if IsOperation(request.operation) {
      ComesToNext(Begin(), Begin(), Grant(mint, source));
      ComesToNext(Begin(), a1, Grant(use, source));
    }
  }

  /** Of all that the executor of package changes answers, only a conflict may be retried. */
  lemma OnlyConflictsMayBeRetried(r: PackageResult)
    ensures MayComeAgain(PackageOutcome(r)) <==> r == Conflict
    ensures PackageOutcome(r).Success? <==> r == Done
    ensures r == Conflict ==> PackageOutcome(r) == Failure("RELEASE_CONFLICT", true)
  {
  }
}
