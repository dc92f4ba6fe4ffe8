/** What can still happen to queued operations and their retries: from any state at all, once a new replica
    comes up. Hence the condition under which a request is carried out once is needed. */
module OperationRetries {
  import opened Wrappers
  import opened Operations
  import opened OperationRuns
  import opened OperationSafety

  /** Some continuation without new submissions leads from `start` to s. */
  ghost predicate LeadsTo(start: State, s: State) {
    exists ss, es :: IsPath(start, ss, es) && ss[|es|] == s
  }

  ghost predicate IsPath(start: State, ss: seq<State>, es: seq<Event>) {
    && |ss| == |es| + 1 && ss[0] == start
    && forall i {:trigger es[i]} | 0 <= i < |es| ::
      Enabled(ss[i], es[i]) && ss[i + 1] == Apply(ss[i], es[i]) && !es[i].Submit?
  }

  lemma Here(s: State)
    ensures LeadsTo(s, s)
  {
    var none: seq<Event> := [];
    assert IsPath(s, [s], none) && [s][|none|] == s;
  }

  lemma Onward(start: State, s: State, e: Event)
    requires LeadsTo(start, s) && Enabled(s, e) && !e.Submit?
    ensures LeadsTo(start, Apply(s, e))
  {
    var ss, es :| IsPath(start, ss, es) && ss[|es|] == s;
    assert IsPath(start, ss + [Apply(s, e)], es + [e]);
  }

  // ----- a new replica -----

  lemma {:induction false} LongName(names: set<string>) returns (name: string)
    ensures forall n | n in names :: |n| < |name|
    decreases |names|
  {
    name := ".";
    if names != {} {
      var n :| n in names;
      name := LongName(names - {n});
      if |name| <= |n| { name := n + "."; }
    }
  }

  /** Worker w is free and its manager has an empty queue; all other workers may be anywhere. */
  ghost predicate Free(start: State, s: State, w: Worker) {
    && LeadsTo(start, s) && w !in s.jobs && w.manager in s.managers
    && s.managers[w.manager].started && s.managers[w.manager].queue == []
  }

  /** A replica may come up at any time; its worker is free. */
  lemma NewReplica(start: State, s: State) returns (t: State, w: Worker)
    requires LeadsTo(start, s)
    ensures Free(start, t, w) && t == s.(managers := t.managers)
  {
    var m := LongName(s.managers.Keys + set v | v in s.jobs :: v.manager);
    w := Worker(m, 0);
    assert m !in s.managers && w !in s.jobs;
    Onward(start, s, NewManager(m, 0));
    var s1 := Apply(s, NewManager(m, 0));
    Onward(start, s1, Start(m));
    t := Apply(s1, Start(m));
  }

  // ----- one operation -----

  ghost predicate Waiting(s: State, id: OpId) { id in s.rows && s.rows[id].status == Queued }

  ghost predicate SameButFor(s: State, t: State, id: OpId) {
    t.births == s.births && (forall x | x in s.rows && x != id :: x in t.rows && t.rows[x] == s.rows[x])
  }

  lemma TakeOne(start: State, s: State, w: Worker, id: OpId) returns (t: State)
    requires Free(start, s, w)
    ensures LeadsTo(start, t) && t == s.(jobs := s.jobs[w := Claiming(id, Now(s, w.manager))])
  {
    Onward(start, s, Enqueue(w.manager, id));
    var s1 := Apply(s, Enqueue(w.manager, id));
    assert s1.managers[w.manager].queue == [id] && [id][1..] == [];
    Onward(start, s1, Take(w));
    t := Apply(s1, Take(w));
    assert t.managers == s.managers;
  }

  /** A free worker takes and claims one queued operation. */
  lemma ClaimOne(start: State, s: State, w: Worker, id: OpId) returns (t: State)
    requires Free(start, s, w) && Waiting(s, id)
    ensures LeadsTo(start, t) && t == s.(rows := t.rows, jobs := s.jobs[w := Preparing(id, Now(s, w.manager))])
    ensures SameButFor(s, t, id) && id in t.rows && t.rows[id] == ClaimRow(s.rows[id], w.manager, Now(s, w.manager))
  {
    var s1 := TakeOne(start, s, w, id);
    Onward(start, s1, Claim(w));
    t := Apply(s1, Claim(w));
  }

  lemma FinishOne(start: State, s: State, w: Worker) returns (t: State)
    requires LeadsTo(start, s) && w in s.jobs && s.jobs[w].Finishing? && s.jobs[w].id in s.rows
    requires w.manager in s.managers && s.managers[w.manager].started && s.managers[w.manager].queue == []
    ensures Free(start, t, w) && t == s.(rows := t.rows, jobs := s.jobs - {w})
    ensures t.rows == s.rows[s.jobs[w].id := CompleteRow(s.rows[s.jobs[w].id], s.jobs[w].outcome, Now(s, w.manager))]
  {
    Onward(start, s, Finish(w));
    t := Apply(s, Finish(w));
  }

  /** The executor is invoked and answers with any outcome its kind allows. */
  lemma RunOne(start: State, s: State, w: Worker, id: OpId, outcome: Outcome) returns (t: State)
    requires Free(start, s, w) && Waiting(s, id) && CanReturn(KindOf(s, id), outcome)
    ensures Free(start, t, w) && SameButFor(s, t, id) && t.ran == s.ran + [id]
    ensures t.deferred == if MayComeAgain(outcome) then s.deferred + {id} else s.deferred
    ensures id in t.rows && t.rows[id].task == s.rows[id].task && (MayComeAgain(outcome) ==> MayRetry(t.rows[id]))
  {
    var s1 := ClaimOne(start, s, w, id);
    Onward(start, s1, Begin(w));
    var s2 := Apply(s1, Begin(w));
    Onward(start, s2, Return(w, outcome));
    t := FinishOne(start, Apply(s2, Return(w, outcome)), w);
  }

  lemma FailOne(start: State, s: State, w: Worker, id: OpId) returns (t: State)
    requires Free(start, s, w) && Waiting(s, id)
    ensures Free(start, t, w) && SameButFor(s, t, id) && t.ran == s.ran && t.deferred == s.deferred
    ensures id in t.rows && MayRetry(t.rows[id]) && t.rows[id].task == s.rows[id].task
  {
    var s1 := ClaimOne(start, s, w, id);
    Onward(start, s1, SetupFails(w, ExecutorUnavailable));
    t := FinishOne(start, Apply(s1, SetupFails(w, ExecutorUnavailable)), w);
  }

  lemma RetryOne(start: State, s: State, w: Worker, p: OpId, id: OpId) returns (t: State)
    requires Free(start, s, w) && id !in s.births && p in s.rows && MayRetry(s.rows[p])
    ensures Free(start, t, w) && Waiting(t, id) && t.ran == s.ran && t.deferred == s.deferred
    ensures t.births == s.births[id := Birth(s.rows[p].task, Some(p), |s.births|, Some(s.rows[p]))]
    ensures t.rows.Keys == s.rows.Keys + {id} && forall x | x in s.rows && x != id :: t.rows[x] == s.rows[x]
    ensures t.rows[id].task == s.rows[p].task
  {
    var r := Unused(s.lookups.Keys);
    Onward(start, s, ReadParent(w.manager, r, p));
    var s1 := Apply(s, ReadParent(w.manager, r, p));
    Onward(start, s1, Retry(w.manager, r, id));
    t := Apply(s1, Retry(w.manager, r, id));
    assert t.rows == s.rows[id := t.rows[id]];
  }

  lemma {:induction false} Unused(numbers: set<nat>) returns (r: nat)
    ensures forall n | n in numbers :: n < r
    decreases |numbers|
  {
    r := 0;
    if numbers != {} {
      var n :| n in numbers;
      var rest := Unused(numbers - {n});
      r := if rest <= n then n + 1 else rest;
      forall m | m in numbers ensures m < r { assert m == n || m in numbers - {n}; }
    }
  }

  // ----- twice -----

  lemma RunPair(start: State, s: State, w: Worker, a: OpId, b: OpId) returns (t: State)
    requires Free(start, s, w) && Waiting(s, a) && Waiting(s, b) && a != b
    ensures LeadsTo(start, t) && t.ran == s.ran + [a, b] && t.deferred == s.deferred && t.births == s.births
  {
    assert AiOutcome(Applied) == Success == PackageOutcome(Done);
    var s1 := RunOne(start, s, w, a, Success);
    t := RunOne(start, s1, w, b, Success);
  }

  /** Any two operations that wait in the queue can both come to be carried out, whatever family they are of. */
  lemma QueuedPairRuns(s: State, a: OpId, b: OpId) returns (t: State)
    requires Waiting(s, a) && Waiting(s, b) && a != b
    ensures LeadsTo(s, t) && t.ran == s.ran + [a, b] && t.deferred == s.deferred && t.births == s.births
  {
    Here(s);
    var s1, w := NewReplica(s, s);
    t := RunPair(s, s1, w, a, b);
  }

  lemma RetryPair(start: State, s: State, w: Worker, p: OpId, b: OpId, c: OpId) returns (t: State)
    requires Free(start, s, w) && p in s.rows && p in s.births && MayRetry(s.rows[p])
    requires b !in s.births && c !in s.births && b != c
    ensures Free(start, t, w) && Waiting(t, b) && Waiting(t, c) && t.ran == s.ran && t.deferred == s.deferred
    ensures t.births.Keys == s.births.Keys + {b, c} && forall x | x in s.births :: t.births[x] == s.births[x]
    ensures t.births[b].parent == t.births[c].parent == Some(p)
  {
    var s1 := RetryOne(start, s, w, p, b);
    t := RetryOne(start, s1, w, p, c);
  }

  /** Wherever a failed operation may be retried, retrying it twice carries it out twice. */
  lemma RetriedTwiceRunsTwice(start: State, s: State, p: OpId) returns (t: State, b: OpId, c: OpId)
    requires LeadsTo(start, s) && p in s.rows && p in s.births && MayRetry(s.rows[p])
    ensures LeadsTo(start, t) && b != c && b !in s.births && c !in s.births
    ensures t.ran == s.ran + [b, c] && t.deferred == s.deferred && t.births.Keys == s.births.Keys + {b, c}
    ensures t.births[b].parent == t.births[c].parent == Some(p)
    ensures forall x | x in s.births :: t.births[x] == s.births[x]
  {
    b := LongName(s.births.Keys);
    c := b + ".";
    assert |c| > |b|;
    var s1, w := NewReplica(start, s);
    var s2 := RetryPair(start, s1, w, p, b, c);
    t := RunPair(start, s2, w, b, c);
  }

  // ----- any number of times -----

  /** Every operation on the path after the first is the retry of the one before. */
  ghost predicate Chain(births: map<OpId, Birth>, path: seq<OpId>) {
    forall j {:trigger path[j]} | 0 < j < |path| :: path[j] in births && births[path[j]].parent == Some(path[j - 1])
  }

  /** The executor of a kind that may ask for a retry can be invoked any number of times along one path. */
  lemma {:induction false} AnyNumberOfAttempts(start: State, s: State, p: OpId, again: Outcome, n: nat)
    returns (t: State, path: seq<OpId>)
    requires LeadsTo(start, s) && p in s.rows && p in s.births && MayRetry(s.rows[p])
    requires MayComeAgain(again) && CanReturn(s.rows[p].task.kind, again)
    ensures LeadsTo(start, t) && |path| == n + 1 && path[0] == p && Chain(t.births, path)
    ensures t.ran == s.ran + path[1..] && path[n] in t.rows && path[n] in t.births && MayRetry(t.rows[path[n]])
    ensures t.rows[path[n]].task == s.rows[p].task
    ensures forall x | x in s.births :: x in t.births && t.births[x] == s.births[x]
    ensures forall x | x in path :: x in t.births
  {
    if n == 0 {
      t, path := s, [p];
    } else {
      t, path := AnyNumberOfAttempts(start, s, p, again, n - 1);
      var id;
      t, id := AnotherAttempt(start, t, path, again);
      assert (path + [id])[1..] == path[1..] + [id];
      path := path + [id];
    }
  }

  lemma AnotherAttempt(start: State, s: State, path: seq<OpId>, again: Outcome) returns (t: State, id: OpId)
    requires LeadsTo(start, s) && path != [] && Chain(s.births, path) && forall x | x in path :: x in s.births
    requires var p := path[|path| - 1]; p in s.rows && MayRetry(s.rows[p]) && CanReturn(s.rows[p].task.kind, again)
    requires MayComeAgain(again)
    ensures LeadsTo(start, t) && Chain(t.births, path + [id]) && t.ran == s.ran + [id]
    ensures id in t.births && id in t.rows && MayRetry(t.rows[id]) && t.rows[id].task == s.rows[path[|path| - 1]].task
    ensures forall x | x in s.births :: x in t.births && t.births[x] == s.births[x]
  {
    var p := path[|path| - 1];
    var s0, w := NewReplica(start, s);
    id := LongName(s.births.Keys + {p});
    assert id !in s.births;
    var s1 := RetryOne(start, s0, w, p, id);
    assert KindOf(s1, id) == s.rows[p].task.kind;
    t := RunOne(start, s1, w, id, again);
    ChainGrows(s.births, t.births, path, id);
  }

  lemma ChainGrows(births: map<OpId, Birth>, births': map<OpId, Birth>, path: seq<OpId>, id: OpId)
    requires path != [] && Chain(births, path) && (forall x | x in births :: x in births' && births'[x] == births[x])
    requires id in births' && births'[id].parent == Some(path[|path| - 1])
    ensures Chain(births', path + [id])
  {
    var longer := path + [id];
    forall j {:trigger longer[j]} | 0 < j < |longer|
      ensures longer[j] in births' && births'[longer[j]].parent == Some(longer[j - 1])
    {
      if j < |path| { assert path[j] in births && longer[j] == path[j] && longer[j - 1] == path[j - 1]; }
    }
  }
}
