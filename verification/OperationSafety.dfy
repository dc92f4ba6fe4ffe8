/** Theorems over every run of OperationRuns: at-most-once execution, no way back to an earlier
    status, no lost submission, and the forest that Retry builds. */
module OperationSafety {
  import opened Wrappers
  import opened Operations
  import opened OperationRuns

  lemma NextKeepsInv(ss: seq<State>, es: seq<Event>, i: nat)
    requires IsRun(ss, es) && i < |es| && Inv(ss[i])
    ensures Inv(ss[i + 1])
  {
    assert ss[i + 1] == Apply(ss[i], es[i]);
    StepKeepsInv(ss[i], es[i]);
  }

  lemma {:induction false} RunKeepsInv(ss: seq<State>, es: seq<Event>, i: nat)
    requires IsRun(ss, es) && i < |ss|
    ensures Inv(ss[i])
  {
    if i > 0 {
      RunKeepsInv(ss, es, i - 1);
      NextKeepsInv(ss, es, i - 1);
    }
  }

  // ----- at most once -----

  ghost predicate Begins(s: State, e: Event, id: OpId) {
    e.Begin? && e.w in s.jobs && s.jobs[e.w].id == id
  }

  lemma {:induction false} RanGrows(ss: seq<State>, es: seq<Event>, i: nat, j: nat)
    requires IsRun(ss, es) && i <= j < |ss|
    ensures ss[i].ran <= ss[j].ran
  {
    if i < j {
      RanGrows(ss, es, i, j - 1);
      assert ss[j] == Apply(ss[j - 1], es[j - 1]);
    }
  }

  /** The executor is started at most once per operation, whatever queues, crashes and the reaper do. */
  lemma AtMostOnce(ss: seq<State>, es: seq<Event>, i: nat, j: nat, id: OpId)
    requires IsRun(ss, es) && i < |es| && j < |es|
    requires Begins(ss[i], es[i], id) && Begins(ss[j], es[j], id)
    ensures i == j
  {
    if i != j {
      var a, b := if i < j then i else j, if i < j then j else i;
      assert ss[a + 1] == Apply(ss[a], es[a]);
      assert id == ss[a + 1].ran[|ss[a].ran|];
      RanGrows(ss, es, a + 1, b);
      NotYetRun(ss, es, b, id);
      assert false;
    }
  }

  lemma NotYetRun(ss: seq<State>, es: seq<Event>, i: nat, id: OpId)
    requires IsRun(ss, es) && i < |es| && Begins(ss[i], es[i], id)
    ensures id !in ss[i].ran
  {
    RunKeepsInv(ss, es, i);
    assert JobInv(ss[i], es[i].w);
  }

  // ----- no way back -----

  function Rank(status: Status): nat {
    match status
    case Queued => 0
    case Running => 1
    case Succeeded => 2
    case Failed => 2
  }

  lemma {:induction false} BirthsGrow(ss: seq<State>, es: seq<Event>, i: nat, j: nat, id: OpId)
    requires IsRun(ss, es) && i <= j < |ss| && id in ss[i].births
    ensures id in ss[j].births && ss[j].births[id] == ss[i].births[id]
  {
    if i < j {
      BirthsGrow(ss, es, i, j - 1, id);
      assert ss[j] == Apply(ss[j - 1], es[j - 1]);
    }
  }

  /** A row that has left queued, or left running, never has that status again, and a deleted
      row is never created anew. */
  lemma {:induction false} NeverReturns(ss: seq<State>, es: seq<Event>, i: nat, j: nat, id: OpId)
    requires IsRun(ss, es) && i <= j < |ss| && id in ss[i].births && id in ss[j].rows
    ensures id in ss[i].rows && Rank(ss[i].rows[id].status) <= Rank(ss[j].rows[id].status)
  {
    if i < j {
      BirthsGrow(ss, es, i, j - 1, id);
      NextRank(ss, es, j - 1, id);
      NeverReturns(ss, es, i, j - 1, id);
    }
  }

  lemma RankStep(s: State, e: Event, id: OpId)
    requires Inv(s) && Enabled(s, e) && id in s.births && id in Apply(s, e).rows
    ensures id in s.rows && Rank(s.rows[id].status) <= Rank(Apply(s, e).rows[id].status)
  {
    BornStays(s, e, id);
    RowAfter(s, e, id);
    if OwnerWrites(s, e, id) { assert JobInv(s, e.w); }
  }

  lemma NextRank(ss: seq<State>, es: seq<Event>, j: nat, id: OpId)
    requires IsRun(ss, es) && j < |es| && id in ss[j].births && id in ss[j + 1].rows
    ensures id in ss[j].rows && Rank(ss[j].rows[id].status) <= Rank(ss[j + 1].rows[id].status)
  {
    RunKeepsInv(ss, es, j);
    RankStep(ss[j], es[j], id);
  }

  // ----- nothing submitted is lost -----

  ghost predicate Claims(s: State, e: Event, id: OpId) {
    e.Claim? && e.w in s.jobs && s.jobs[e.w].id == id && id in s.rows && s.rows[id].status == Queued
  }

  /** However often enqueue drops the id, the persisted row stays exactly as submitted, and so
      eligible for the next dispatch, until some worker claims it. */
  lemma {:induction false} QueuedUntilClaimed(ss: seq<State>, es: seq<Event>, i: nat, j: nat, id: OpId)
    requires IsRun(ss, es) && i <= j < |ss| && id in ss[i].rows && ss[i].rows[id].status == Queued
    ensures (id in ss[j].rows && ss[j].rows[id] == ss[i].rows[id])
         || exists k {:trigger es[k]} :: i <= k < j && Claims(ss[k], es[k], id)
  {
    if i < j {
      QueuedUntilClaimed(ss, es, i, j - 1, id);
      if id in ss[j - 1].rows && ss[j - 1].rows[id] == ss[i].rows[id] {
        var s, e := ss[j - 1], es[j - 1];
        assert ss[j] == Apply(s, e);
        RunKeepsInv(ss, es, j - 1);
        assert RowInv(s, id);
        assert id in ss[j].rows;
        RowAfter(s, e, id);
        if OwnerWrites(s, e, id) { assert JobInv(s, e.w); }
        assert ss[j].rows[id] == s.rows[id] || Claims(s, e, id);
      }
    }
  }

  // ----- the retry forest -----

  ghost predicate WellParented(births: map<OpId, Birth>) {
    forall id | id in births && births[id].parent.Some? :: Edge(births, births[id].parent.value, id)
  }

  ghost predicate Edge(births: map<OpId, Birth>, p: OpId, id: OpId)
    requires id in births
  {
    births[id].parent == Some(p) && p in births && births[p].order < births[id].order
    && births[p].task == births[id].task
  }

  ghost function Root(births: map<OpId, Birth>, id: OpId): OpId
    requires WellParented(births) && id in births
    decreases births[id].order
  {
    if births[id].parent.None? then id
    else assert Edge(births, births[id].parent.value, id); Root(births, births[id].parent.value)
  }

  /** a lies strictly between b and the root of b, or is that root. */
  ghost predicate Ancestor(births: map<OpId, Birth>, a: OpId, b: OpId)
    requires WellParented(births) && b in births
    decreases births[b].order
  {
    births[b].parent.Some?
    && (assert Edge(births, births[b].parent.value, b); births[b].parent.value == a
        || Ancestor(births, a, births[b].parent.value))
  }

  lemma RunWellParented(ss: seq<State>, es: seq<Event>, i: nat)
    requires IsRun(ss, es) && i < |ss|
    ensures WellParented(ss[i].births)
  {
    RunKeepsInv(ss, es, i);
    forall id | id in ss[i].births && ss[i].births[id].parent.Some?
      ensures Edge(ss[i].births, ss[i].births[id].parent.value, id)
    {
      assert BirthInv(ss[i], id);
    }
  }

  /** Parent links are acyclic, and user, kind, action, target and payload are those of the root. */
  lemma {:induction false} RetryChain(births: map<OpId, Birth>, a: OpId, b: OpId)
    requires WellParented(births) && b in births && Ancestor(births, a, b)
    ensures a in births && births[a].order < births[b].order && a != b
    ensures births[a].task == births[b].task && Root(births, a) == Root(births, b)
    decreases births[b].order
  {
    var p := births[b].parent.value;
    assert Edge(births, p, b);
    if p != a { RetryChain(births, a, p); }
  }

  lemma {:induction false} RootIsRoot(births: map<OpId, Birth>, id: OpId)
    requires WellParented(births) && id in births
    ensures var r := Root(births, id);
      r in births && births[r].parent.None? && births[r].task == births[id].task && (r == id || Ancestor(births, r, id))
    decreases births[id].order
  {
    if births[id].parent.Some? {
      assert Edge(births, births[id].parent.value, id);
      RootIsRoot(births, births[id].parent.value);
    }
  }

  /** Step k of the run reads p, failed and retryable, for the call of Retry numbered r. */
  ghost predicate ReadsAt(ss: seq<State>, es: seq<Event>, k: nat, r: nat, p: OpId, row: Row) {
    && k < |es| && k < |ss| && es[k].ReadParent? && es[k].r == r && es[k].previous == p
    && p in ss[k].rows && ss[k].rows[p] == row && MayRetry(row)
  }

  lemma {:induction false} LookupWasRead(ss: seq<State>, es: seq<Event>, i: nat, r: nat) returns (k: nat)
    requires IsRun(ss, es) && i < |ss| && r in ss[i].lookups
    ensures k < i && ReadsAt(ss, es, k, r, ss[i].lookups[r].previous, ss[i].lookups[r].row)
  {
    k := i - 1;
    assert Enabled(ss[k], es[k]) && ss[i] == Apply(ss[k], es[k]);
    LookupAfter(ss[k], es[k], r);
    if r in ss[k].lookups { k := LookupWasRead(ss, es, k, r); }
  }

  /** Step i of the run creates id as a child of p, by a call of Retry that has read p as `row`. */
  ghost predicate CreatesAt(ss: seq<State>, es: seq<Event>, i: nat, r: nat, p: OpId, row: Row, id: OpId) {
    && i < |es| && |ss| == |es| + 1 && es[i].Retry? && es[i].r == r && es[i].id == id && id !in ss[i].births
    && id in ss[i + 1].rows && ss[i + 1].rows[id].task == row.task && ss[i + 1].rows[id].parent == Some(p)
    && (p in ss[i].rows ==> ss[i].rows[p] == row && p in ss[i + 1].rows && ss[i + 1].rows[p] == row)
  }

  lemma NewBirth(s: State, e: Event, id: OpId)
    requires Enabled(s, e) && id !in s.births && id in Apply(s, e).births && Apply(s, e).births[id].parent.Some?
    ensures e.Retry? && e.id == id
    ensures var Read(p, row) := s.lookups[e.r];
      Apply(s, e).births[id].parent == Some(p)
      && Apply(s, e).rows == s.rows[id := NewRow(row.task, Some(p), Now(s, e.m))]
  {
  }

  lemma NewChild(s: State, e: Event, p: OpId, id: OpId)
    requires Inv(s) && Enabled(s, e) && id !in s.births && id in Apply(s, e).births
    requires Apply(s, e).births[id].parent == Some(p)
    ensures e.Retry? && e.id == id && s.lookups[e.r].previous == p && ReadInv(s, e.r) && p in s.births
    ensures id in Apply(s, e).rows && Apply(s, e).rows == s.rows[id := Apply(s, e).rows[id]]
    ensures Apply(s, e).rows[id].task == s.lookups[e.r].row.task && Apply(s, e).rows[id].parent == Some(p)
  {
    NewBirth(s, e, id);
    assert ReadInv(s, e.r);
  }

  /** Every child was made by one call of Retry, under a fresh id, of a row that it had read as failed and
      retryable, that was still the same when the child was made, unless clean-up had deleted it, and that
      the call left untouched. */
  lemma {:induction false} ChildComesFromRetry(ss: seq<State>, es: seq<Event>, j: nat, p: OpId, id: OpId)
    returns (k: nat, i: nat, r: nat, row: Row)
    requires IsRun(ss, es) && j < |ss| && id in ss[j].births && ss[j].births[id].parent == Some(p)
    ensures k < i < j && ReadsAt(ss, es, k, r, p, row) && CreatesAt(ss, es, i, r, p, row, id)
  {
    i := j - 1;
    assert Enabled(ss[i], es[i]) && ss[i + 1] == Apply(ss[i], es[i]);
    if id in ss[i].births {
      BirthsGrow(ss, es, i, j, id);
      k, i, r, row := ChildComesFromRetry(ss, es, j - 1, p, id);
    } else {
      RunKeepsInv(ss, es, i);
      NewChild(ss[i], es[i], p, id);
      r, row := es[i].r, ss[i].lookups[es[i].r].row;
      k := LookupWasRead(ss, es, i, r);
    }
  }

  lemma NextRetryable(ss: seq<State>, es: seq<Event>, j: nat, id: OpId)
    requires IsRun(ss, es) && j < |es| && id in ss[j].rows && MayRetry(ss[j].rows[id])
    ensures id in ss[j].births && (id in ss[j + 1].rows ==> ss[j + 1].rows[id] == ss[j].rows[id])
  {
    RunKeepsInv(ss, es, j);
    assert RowInv(ss[j], id) && Retired(ss[j], id);
    RetiredRowStays(ss[j], es[j], id);
  }

  lemma StillThere(ss: seq<State>, es: seq<Event>, j: nat, id: OpId)
    requires IsRun(ss, es) && j < |es| && id in ss[j].births && id in ss[j + 1].rows
    ensures id in ss[j].rows
  {
    BornStays(ss[j], es[j], id);
  }

  /** Without any assumption on timing: a failed row that may be retried never changes again, and no worker
      holds it, until clean-up deletes it. */
  lemma {:induction false} RetryableNeverChanges(ss: seq<State>, es: seq<Event>, i: nat, j: nat, id: OpId)
    requires IsRun(ss, es) && i <= j < |ss| && id in ss[i].rows && MayRetry(ss[i].rows[id]) && id in ss[j].rows
    ensures ss[j].rows[id] == ss[i].rows[id] && Unowned(ss[j], id)
  {
    RunKeepsInv(ss, es, j);
    if i < j {
      NextRetryable(ss, es, i, id);
      BirthsGrow(ss, es, i, j - 1, id);
      StillThere(ss, es, j - 1, id);
      RetryableNeverChanges(ss, es, i, j - 1, id);
      NextRetryable(ss, es, j - 1, id);
    }
    assert Retired(ss[j], id);
  }

  // ----- how often one request is carried out -----

  /** What has been retried is closed for good: its executor was never invoked, or returned a failure that
      may be retried. */
  lemma {:induction false} RetriedIsRetired(ss: seq<State>, es: seq<Event>, i: nat, a: OpId, b: OpId)
    requires IsRun(ss, es) && i < |ss| && WellParented(ss[i].births)
    requires b in ss[i].births && Ancestor(ss[i].births, a, b)
    ensures Retired(ss[i], a)
    decreases ss[i].births[b].order
  {
    RunKeepsInv(ss, es, i);
    var p := ss[i].births[b].parent.value;
    assert BirthInv(ss[i], b) && Edge(ss[i].births, p, b);
    if p != a { RetriedIsRetired(ss, es, i, a, p); }
  }

  /** c and d are two retries of one operation p; x descends from the one, or is it, and y from the other. */
  ghost predicate ForkAt(births: map<OpId, Birth>, p: OpId, c: OpId, d: OpId, x: OpId, y: OpId)
    requires WellParented(births) && x in births && y in births
  {
    && c in births && d in births && c != d && births[c].parent == births[d].parent == Some(p)
    && (c == x || Ancestor(births, c, x)) && (d == y || Ancestor(births, d, y))
  }

  ghost predicate Fork(births: map<OpId, Birth>, x: OpId, y: OpId)
    requires WellParented(births) && x in births && y in births
  {
    exists p, c, d :: ForkAt(births, p, c, d, x, y)
  }

  lemma {:induction false} FirstChild(births: map<OpId, Birth>, a: OpId, b: OpId) returns (c: OpId)
    requires WellParented(births) && b in births && Ancestor(births, a, b)
    ensures c in births && births[c].parent == Some(a) && (c == b || Ancestor(births, c, b))
    decreases births[b].order
  {
    var p := births[b].parent.value;
    assert Edge(births, p, b);
    if p == a { c := b; } else { c := FirstChild(births, a, p); }
  }

  /** Members of one family that are not on one path have been parted by a fork. */
  lemma {:induction false} FamilyForks(births: map<OpId, Birth>, x: OpId, y: OpId)
    requires WellParented(births) && x in births && y in births && x != y && Root(births, x) == Root(births, y)
    requires !Ancestor(births, x, y) && !Ancestor(births, y, x)
    ensures Fork(births, x, y)
    decreases births[y].order
  {
    if births[y].parent.None? {
      RootIsRoot(births, x);
    } else {
      var p := births[y].parent.value;
      assert Edge(births, p, y);
      if Ancestor(births, p, x) {
        var c := FirstChild(births, p, x);
        assert ForkAt(births, p, c, y, x, y);
      } else {
        FamilyForks(births, x, p);
        var q, c, d :| ForkAt(births, q, c, d, x, p);
        assert ForkAt(births, q, c, d, x, y);
      }
    }
  }

  /** The executor was invoked for x, and did not say that x may be retried: it succeeded, failed for good,
      or never came back. */
  predicate CarriedOut(s: State, x: OpId) { x in s.ran && x !in s.deferred }

  /** Of the operations that come from one submitted request, no two that were carried out lie on one retry
      path: above them, within this family, one operation was retried twice. */
  lemma CarriedOutOnce(ss: seq<State>, es: seq<Event>, i: nat, x: OpId, y: OpId)
    requires IsRun(ss, es) && i < |ss| && WellParented(ss[i].births)
    requires x in ss[i].births && y in ss[i].births && Root(ss[i].births, x) == Root(ss[i].births, y)
    requires CarriedOut(ss[i], x) && CarriedOut(ss[i], y) && x != y
    ensures !Ancestor(ss[i].births, x, y) && !Ancestor(ss[i].births, y, x) && Fork(ss[i].births, x, y)
  {
    if Ancestor(ss[i].births, x, y) { RetriedIsRetired(ss, es, i, x, y); }
    if Ancestor(ss[i].births, y, x) { RetriedIsRetired(ss, es, i, y, x); }
    FamilyForks(ss[i].births, x, y);
  }

  /** For AI changes, whose executor never says so, this holds of all executions. */
  lemma OneExecutionPerApproval(ss: seq<State>, es: seq<Event>, i: nat, x: OpId, y: OpId)
    requires IsRun(ss, es) && i < |ss| && WellParented(ss[i].births)
    requires x in ss[i].births && y in ss[i].births && Root(ss[i].births, x) == Root(ss[i].births, y)
    requires KindOf(ss[i], x) == AI_CHANGE && x in ss[i].ran && y in ss[i].ran && x != y
    ensures CarriedOut(ss[i], x) && CarriedOut(ss[i], y)
    ensures !Ancestor(ss[i].births, x, y) && !Ancestor(ss[i].births, y, x) && Fork(ss[i].births, x, y)
  {
    RunKeepsInv(ss, es, i);
    RootIsRoot(ss[i].births, x);
    RootIsRoot(ss[i].births, y);
    CarriedOutOnce(ss, es, i, x, y);
  }

  // ----- reachable states -----

  ghost predicate Reachable(s: State) {
    exists ss, es :: IsRun(ss, es) && ss[|es|] == s
  }

  lemma ReachStep(s: State, e: Event)
    requires Reachable(s) && Enabled(s, e)
    ensures Reachable(Apply(s, e))
  {
    var ss, es :| IsRun(ss, es) && ss[|es|] == s;
    assert IsRun(ss + [Apply(s, e)], es + [e]);
  }
}
