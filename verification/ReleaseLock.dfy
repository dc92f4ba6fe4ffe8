/** At most one mutation per Helm release at a time, each with its audit event. */
module ReleaseLock {
  import Text

  const NUL := '\0'

  datatype Release = Release(cluster: string, namespace: string, name: string)

  function Key(r: Release): string { r.cluster + [NUL] + r.namespace + [NUL] + r.name }

  predicate NulFree(r: Release) { NUL !in r.cluster && NUL !in r.namespace }

  /** Different releases have different keys, as long as cluster and namespace hold no NUL. */
  lemma KeyInjective(a: Release, b: Release)
    requires NulFree(a) && NulFree(b)
    ensures Key(a) == Key(b) <==> a == b
  {
    KeyParts(a);
    KeyParts(b);
    Text.JoinSplit(a.name, NUL);
    Text.JoinSplit(b.name, NUL);
    if Key(a) == Key(b) {
      var parts := Text.Split(Key(a), NUL);
      assert parts[0] == a.cluster == b.cluster && parts[1] == a.namespace == b.namespace;
      assert parts[2..] == Text.Split(a.name, NUL) == Text.Split(b.name, NUL);
    }
  }

  lemma KeyParts(r: Release)
    requires NulFree(r)
    ensures Text.Split(Key(r), NUL) == [r.cluster, r.namespace] + Text.Split(r.name, NUL)
  {
    var rest := r.namespace + [NUL] + r.name;
    Text.SplitPrefix(r.namespace, r.name, NUL);
    Text.SplitPrefix(r.cluster, rest, NUL);
    assert Key(r) == r.cluster + [NUL] + rest;
    calc {
      Text.Split(Key(r), NUL);
      [r.cluster] + Text.Split(rest, NUL);
      [r.cluster] + ([r.namespace] + Text.Split(r.name, NUL));
      [r.cluster, r.namespace] + Text.Split(r.name, NUL);
    }
  }

  /** With a NUL the keys of two releases can coincide. */
  lemma KeyCollides()
    ensures Key(Release("a", "b", "c\0d")) == Key(Release("a", "b\0c", "d"))
  {
    assert Key(Release("a", "b", "c\0d")) == "a\0b\0c\0d" == Key(Release("a", "b\0c", "d"));
  }

  /** How the body of a mutation ends. */
  datatype Ending = Succeeded | Failed | Panicked

  datatype Outcome = OutcomeSucceeded | OutcomeFailed

  /** The deferred function sees only the error, which a panic leaves nil. */
  function OutcomeOf(e: Ending): Outcome { if e == Failed then OutcomeFailed else OutcomeSucceeded }

  datatype Stage = InBody | Unwinding(ending: Ending) | Auditing(ending: Ending)

  datatype Call = Call(release: Release, stage: Stage)

  datatype Audit = Audit(call: nat, release: Release, outcome: Outcome)

  datatype State = State(active: set<string>, calls: map<nat, Call>, admitted: map<nat, Release>,
                         endings: map<nat, Ending>, log: seq<Audit>)

  function Init(): State { State({}, map[], map[], map[], []) }

  datatype Event =
    | Enter(c: nat, release: Release)     // check and set under the mutex; refused when the key is active
    | BodyEnds(c: nat, ending: Ending)
    | Unlock(c: nat)
    | WriteAudit(c: nat)

  predicate Enabled(s: State, e: Event) {
    match e
    case Enter(c, _) => c !in s.admitted
    case BodyEnds(c, _) => c in s.calls && s.calls[c].stage.InBody?
    case Unlock(c) => c in s.calls && s.calls[c].stage.Unwinding?
    case WriteAudit(c) => c in s.calls && s.calls[c].stage.Auditing?
  }

  predicate Refused(s: State, e: Event) { e.Enter? && Key(e.release) in s.active }

  function Apply(s: State, e: Event): State
    requires Enabled(s, e)
  {
    match e
    case Enter(c, r) =>
      if Key(r) in s.active then s
      else s.(active := s.active + {Key(r)}, calls := s.calls[c := Call(r, InBody)], admitted := s.admitted[c := r])
    case BodyEnds(c, ending) =>
      s.(calls := s.calls[c := s.calls[c].(stage := Unwinding(ending))], endings := s.endings[c := ending])
    case Unlock(c) =>
      s.(active := s.active - {Key(s.calls[c].release)},
         calls := s.calls[c := s.calls[c].(stage := Auditing(s.calls[c].stage.ending))])
    case WriteAudit(c) =>
      s.(calls := s.calls - {c}, log := s.log + [Audit(c, s.calls[c].release, OutcomeOf(s.calls[c].stage.ending))])
  }

  ghost predicate IsRun(ss: seq<State>, es: seq<Event>) {
    |ss| == |es| + 1 && ss[0] == Init()
    && forall i {:trigger es[i]} | 0 <= i < |es| :: Enabled(ss[i], es[i]) && ss[i + 1] == Apply(ss[i], es[i])
  }

  predicate Holds(s: State, c: nat) { c in s.calls && !s.calls[c].stage.Auditing? }

  predicate HoldsKey(s: State, c: nat, key: string) { Holds(s, c) && Key(s.calls[c].release) == key }

  ghost predicate LockInv(s: State) {
    && (forall k :: k in s.active <==> exists c :: HoldsKey(s, c, k))
    && (forall c, d, k | HoldsKey(s, c, k) && HoldsKey(s, d, k) :: c == d)
  }

  ghost predicate Logged(s: State, c: nat) { exists i :: 0 <= i < |s.log| && s.log[i].call == c }

  ghost predicate CallInv(s: State, c: nat)
    requires c in s.calls
  {
    c in s.admitted && s.calls[c].release == s.admitted[c] && !Logged(s, c)
    && match s.calls[c].stage
       case InBody => c !in s.endings
       case Unwinding(ending) => c in s.endings && s.endings[c] == ending
       case Auditing(ending) => c in s.endings && s.endings[c] == ending
  }

  ghost predicate EntryInv(s: State, i: nat)
    requires i < |s.log|
  {
    var a := s.log[i];
    a.call in s.admitted && a.release == s.admitted[a.call] && a.call in s.endings
    && a.outcome == OutcomeOf(s.endings[a.call])
  }

  ghost predicate AuditInv(s: State) {
    && (forall c | c in s.calls :: CallInv(s, c))
    && (forall i | 0 <= i < |s.log| :: EntryInv(s, i))
    && (forall i, j | 0 <= i < j < |s.log| :: s.log[i].call != s.log[j].call)
    && (forall c | c in s.admitted :: c in s.calls || Logged(s, c))
    && (forall c | c in s.endings :: c in s.admitted)
  }

  /** Only Enter and Unlock change who holds what. */
  lemma HoldsAfter(s: State, e: Event, c: nat, k: string)
    requires Enabled(s, e) && (e.Enter? ==> e.c !in s.calls)
    ensures HoldsKey(Apply(s, e), c, k) <==>
      if e.Enter? && !Refused(s, e) && c == e.c then k == Key(e.release)
      else if e.Unlock? && c == e.c then false
      else HoldsKey(s, c, k)
  {
  }

  lemma StepKeepsLock(s: State, e: Event)
    requires LockInv(s) && Enabled(s, e) && (e.Enter? ==> e.c !in s.calls)
    ensures LockInv(Apply(s, e))
  {
    var t := Apply(s, e);
    forall c, k ensures HoldsKey(t, c, k) <==>
      if e.Enter? && !Refused(s, e) && c == e.c then k == Key(e.release)
      else if e.Unlock? && c == e.c then false
      else HoldsKey(s, c, k)
    {
      HoldsAfter(s, e, c, k);
    }
    forall k ensures k in t.active <==> exists c :: HoldsKey(t, c, k) {
      if e.Enter? && !Refused(s, e) { assert HoldsKey(t, e.c, Key(e.release)); }
      if e.Unlock? { assert HoldsKey(s, e.c, Key(s.calls[e.c].release)); }
      if c :| HoldsKey(s, c, k) { assert HoldsKey(t, c, k) || (e.Unlock? && c == e.c); }
    }
  }

  lemma LoggedStays(s: State, e: Event, c: nat)
    requires Enabled(s, e) && Logged(s, c)
    ensures Logged(Apply(s, e), c)
  {
    var i :| 0 <= i < |s.log| && s.log[i].call == c;
    assert Apply(s, e).log[i] == s.log[i];
  }

  lemma StepKeepsAudit(s: State, e: Event)
    requires AuditInv(s) && Enabled(s, e)
    ensures AuditInv(Apply(s, e))
  {
    var t := Apply(s, e);
    forall c | c in t.calls ensures CallInv(t, c) {
      if c in s.calls { assert CallInv(s, c); }
      if Logged(t, c) {
        var i :| 0 <= i < |t.log| && t.log[i].call == c;
        if i < |s.log| { assert EntryInv(s, i); assert c in s.calls || !Refused(s, e); }
      }
    }
    forall i | 0 <= i < |t.log| ensures EntryInv(t, i) {
      if i < |s.log| { assert EntryInv(s, i); } else { assert CallInv(s, e.c); }
    }
    forall c | c in t.admitted ensures c in t.calls || Logged(t, c) {
      if c in s.admitted && Logged(s, c) { LoggedStays(s, e, c); }
      if e.WriteAudit? && c == e.c { assert t.log[|s.log|].call == c; }
    }
    forall i, j | 0 <= i < j < |t.log| ensures t.log[i].call != t.log[j].call {
      if j == |s.log| { assert CallInv(s, e.c); }
    }
  }

  lemma CalledIsAdmitted(s: State, c: nat)
    requires AuditInv(s)
    ensures c in s.calls ==> c in s.admitted
  {
    if c in s.calls { assert CallInv(s, c); }
  }

  lemma {:induction false} RunKeepsInv(ss: seq<State>, es: seq<Event>, i: nat)
    requires IsRun(ss, es) && i < |ss|
    ensures LockInv(ss[i]) && AuditInv(ss[i])
  {
    if i > 0 {
      RunKeepsInv(ss, es, i - 1);
      assert ss[i] == Apply(ss[i - 1], es[i - 1]);
      CalledIsAdmitted(ss[i - 1], es[i - 1].c);
      StepKeepsLock(ss[i - 1], es[i - 1]);
      StepKeepsAudit(ss[i - 1], es[i - 1]);
    }
  }

  /** At most one body runs per release, and `active` is exactly the set of keys being held. */
  lemma MutualExclusion(ss: seq<State>, es: seq<Event>, i: nat)
    requires IsRun(ss, es) && i < |ss|
    ensures forall c, d | Holds(ss[i], c) && Holds(ss[i], d) && ss[i].calls[c].release == ss[i].calls[d].release ::
      c == d
    ensures forall k :: k in ss[i].active <==> exists c :: HoldsKey(ss[i], c, k)
  {
    RunKeepsInv(ss, es, i);
    forall c, d | Holds(ss[i], c) && Holds(ss[i], d) && ss[i].calls[c].release == ss[i].calls[d].release
      ensures c == d {
      assert HoldsKey(ss[i], c, Key(ss[i].calls[c].release)) && HoldsKey(ss[i], d, Key(ss[i].calls[c].release));
    }
  }

  /** Among NUL-free releases, a call is refused exactly when the same release is being changed. */
  lemma RefusedExactly(ss: seq<State>, es: seq<Event>, i: nat)
    requires IsRun(ss, es) && i < |es| && es[i].Enter? && NulFree(es[i].release)
    requires forall c | c in ss[i].calls :: NulFree(ss[i].calls[c].release)
    ensures Refused(ss[i], es[i]) <==> exists c :: Holds(ss[i], c) && ss[i].calls[c].release == es[i].release
  {
    RunKeepsInv(ss, es, i);
    if Refused(ss[i], es[i]) {
      var c :| HoldsKey(ss[i], c, Key(es[i].release));
      KeyInjective(ss[i].calls[c].release, es[i].release);
    }
    if c :| Holds(ss[i], c) && ss[i].calls[c].release == es[i].release {
      assert HoldsKey(ss[i], c, Key(es[i].release));
    }
  }

  /** Every admitted call that is over has left one audit event: it names the call's release, and
      says failed exactly when the body returned an error. A panic is recorded as success. */
  lemma AuditedOnce(ss: seq<State>, es: seq<Event>, i: nat, c: nat) returns (k: nat)
    requires IsRun(ss, es) && i < |ss| && c in ss[i].admitted && c !in ss[i].calls
    ensures k < |ss[i].log| && ss[i].log[k].call == c && ss[i].log[k].release == ss[i].admitted[c]
    ensures c in ss[i].endings && (ss[i].log[k].outcome == OutcomeFailed <==> ss[i].endings[c] == Failed)
    ensures forall j | 0 <= j < |ss[i].log| && ss[i].log[j].call == c :: j == k
  {
    RunKeepsInv(ss, es, i);
    assert Logged(ss[i], c);
    k :| 0 <= k < |ss[i].log| && ss[i].log[k].call == c;
    assert EntryInv(ss[i], k);
  }

  /** For every release there is a run whose one mutation panics and is recorded as succeeded. */
  lemma PanicRecordedAsSuccess(r: Release) returns (ss: seq<State>, es: seq<Event>)
    ensures IsRun(ss, es) && |es| == 4
    ensures ss[4].endings == map[0 := Panicked] && ss[4].log == [Audit(0, r, OutcomeSucceeded)]
  {
    es := [Enter(0, r), BodyEnds(0, Panicked), Unlock(0), WriteAudit(0)];
    var s0 := Init();
    var s1 := Apply(s0, es[0]);
    var s2 := Apply(s1, es[1]);
    var s3 := Apply(s2, es[2]);
    var s4 := Apply(s3, es[3]);
    ss := [s0, s1, s2, s3, s4];
  }

  /** A call whose body is still running, or whose lock is still held, has not been audited. */
  lemma NotAuditedEarly(ss: seq<State>, es: seq<Event>, i: nat, c: nat)
    requires IsRun(ss, es) && i < |ss| && c in ss[i].calls
    ensures !Logged(ss[i], c)
  {
    RunKeepsInv(ss, es, i);
    assert CallInv(ss[i], c);
  }

  /** The lock as the service keeps it. */
  class ReleaseLocks {
    var active: set<string>
    var audits: seq<(Release, Outcome)>

    constructor ()
      ensures active == {} && audits == []
    {
      active, audits := {}, [];
    }

    method TryEnter(r: Release) returns (admitted: bool)
      modifies this
      ensures admitted <==> Key(r) !in old(active)
      ensures active == old(active) + {Key(r)} && audits == old(audits)
    {
      if Key(r) in active { return false; }
      active := active + {Key(r)};
      admitted := true;
    }

    method Leave(r: Release)
      modifies this
      ensures active == old(active) - {Key(r)} && audits == old(audits)
    {
      active := active - {Key(r)};
    }

    /** One call of mutate, undisturbed. */
    method Mutate(r: Release, ending: Ending) returns (ran: bool)
      modifies this
      ensures ran <==> Key(r) !in old(active)
      ensures active == old(active)
      ensures audits == if ran then old(audits) + [(r, OutcomeOf(ending))] else old(audits)
    {
      ran := TryEnter(r);
      if !ran { return; }
      Leave(r);
      audits := audits + [(r, OutcomeOf(ending))];
    }
  }
}
