/** The heartbeat lease: exactly which delays keep the reaper away from live workers, and what
    the operations table looks like when they do. */
module OperationLease {
  import opened Wrappers
  import opened Operations
  import opened OperationRuns
  import opened OperationSafety

  /** Bounds, in milliseconds, on
      setup: from reading `now` for the claim to starting the executor,
      write: from a heartbeat tick to its committed update (unless the executor returns first),
      finish: from the executor's return (or a setup failure) to the committed final write,
      skew: between the clocks of two managers. */
  datatype Timing = Timing(setup: nat, write: nat, finish: nat, skew: nat)

  function Max(a: int, b: int): int { if a < b then b else a }

  /** The longest time between two ticks whose updates are written. The ticker's channel holds one tick
      and drops those that fire while it is full, so this gap arises when a tick is received late, or when
      the response to the previous write comes late: the tick that fired meanwhile waits in the channel,
      and all that fire before it is received are lost. */
  function Gap(p: Timing): nat {
    HEARTBEAT_INTERVAL * (p.write / HEARTBEAT_INTERVAL + 1)
  }

  function Age(p: Timing): int { Max(p.setup + HEARTBEAT_INTERVAL, Gap(p)) }

  predicate LeaseCovers(p: Timing) {
    Age(p) + p.write + p.finish + p.skew <= STALE_WORKER_AFTER
  }

  predicate JobOnTime(p: Timing, job: Job, now: int) {
    match job
    case Claiming(_, _) => true
    case Preparing(_, readAt) => now <= readAt + p.setup
    case Executing(_, nextTick, None) => now <= nextTick + p.write
    case Executing(_, _, Some(tick)) => now <= tick + p.write
    case Finishing(_, since, _, _) => now <= since + p.finish
  }

  ghost predicate OnTime(p: Timing, s: State) {
    (forall w | w in s.jobs && w.manager in s.managers :: JobOnTime(p, s.jobs[w], Now(s, w.manager)))
    && (forall a, b | a in s.managers && b in s.managers :: s.managers[a].offset <= s.managers[b].offset + p.skew)
  }

  ghost predicate IsTimelyRun(p: Timing, ss: seq<State>, es: seq<Event>) {
    IsRun(ss, es) && forall i | 0 <= i < |ss| :: OnTime(p, ss[i])
  }

  // ----- what must not happen -----

  ghost predicate ReapsLive(s: State, e: Event) {
    Enabled(s, e) && e.Reap? && exists w | w in s.jobs && s.jobs[w].Owns() ::
      s.jobs[w].id in s.rows && IsStale(s.rows[s.jobs[w].id], Now(s, e.m))
  }

  predicate Terminal(row: Row) { row.status == Succeeded || row.status == Failed }

  ghost predicate ChangesTerminal(s: State, e: Event) {
    Enabled(s, e) && exists id | id in s.rows && Terminal(s.rows[id]) ::
      id in Apply(s, e).rows && Apply(s, e).rows[id] != s.rows[id]
  }

  ghost predicate NoLiveWorkerReaped(p: Timing) {
    forall ss, es, i: nat | IsTimelyRun(p, ss, es) && i < |es| :: !ReapsLive(ss[i], es[i])
  }

  ghost predicate TerminalRowsFixed(p: Timing) {
    forall ss, es, i: nat | IsTimelyRun(p, ss, es) && i < |es| :: !ChangesTerminal(ss[i], es[i])
  }

  // ----- the lease suffices -----

  predicate Shape(row: Row) {
    match row.status
    case Queued => row.progress == 0 && row.worker == None && row.heartbeat == None && row.completed == None
    case Running => 5 <= row.progress <= 95 && row.worker.Some? && row.heartbeat.Some? && row.completed == None
    case Succeeded => row.progress == 100 && row.worker == None && row.heartbeat == None && row.completed.Some?
    case Failed => row.progress == 100 && row.worker == None && row.heartbeat == None && row.completed.Some?
  }

  /** How old the row's heartbeat can be, by where its worker stands. */
  predicate Fresh(p: Timing, job: Job, beat: int) {
    match job
    case Claiming(_, _) => true
    case Preparing(_, readAt) => beat == readAt
    case Executing(_, nextTick, None) => nextTick <= beat + Age(p)
    case Executing(_, nextTick, Some(tick)) =>
      tick <= beat + Age(p) && nextTick - HEARTBEAT_INTERVAL <= tick + p.write
      && (nextTick - tick) % HEARTBEAT_INTERVAL == 0
    case Finishing(_, since, _, _) => since <= beat + Age(p) + p.write
  }

  ghost predicate Leased(p: Timing, s: State, w: Worker)
    requires w in s.jobs
  {
    var job := s.jobs[w];
    w.manager in s.managers
    && (job.Owns() ==> job.id in s.rows && LeasedRow(p, s.rows[job.id], w, job))
  }

  predicate LeasedRow(p: Timing, row: Row, w: Worker, job: Job) {
    row.status == Running && row.worker == Some(w.manager) && row.heartbeat.Some? && Fresh(p, job, row.heartbeat.value)
  }

  ghost predicate LeaseInv(p: Timing, s: State) {
    (forall w | w in s.jobs :: Leased(p, s, w)) && (forall id | id in s.rows :: Shape(s.rows[id]))
  }

  lemma NotStale(p: Timing, s: State, w: Worker, m: ManagerId)
    requires LeaseCovers(p) && OnTime(p, s) && w in s.jobs && Leased(p, s, w) && s.jobs[w].Owns() && m in s.managers
    ensures !IsStale(s.rows[s.jobs[w].id], Now(s, m))
  {
    assert JobOnTime(p, s.jobs[w], Now(s, w.manager));
    assert Now(s, m) <= Now(s, w.manager) + p.skew;
  }

  lemma RowStepKeepsShape(p: Timing, s: State, e: Event, id: OpId, row: Row)
    requires LeaseInv(p, s) && Enabled(s, e) && id in s.rows && RowStep(s, e, id, row)
    requires OwnerWrites(s, e, id) ==> s.jobs[e.w].Owns()
    ensures Shape(row)
  {
    assert Shape(s.rows[id]);
    if OwnerWrites(s, e, id) { assert Leased(p, s, e.w); }
  }

  lemma StepKeepsShape(p: Timing, s: State, e: Event, id: OpId)
    requires Inv(s) && LeaseInv(p, s) && Enabled(s, e) && id in Apply(s, e).rows
    ensures Shape(Apply(s, e).rows[id])
  {
    if id in s.rows {
      assert RowInv(s, id);
      RowAfter(s, e, id);
      RowStepKeepsShape(p, s, e, id, Apply(s, e).rows[id]);
    } else {
      AddedRow(s, e, id);
    }
  }

  lemma GapBounds(p: Timing, d: int)
    requires d - HEARTBEAT_INTERVAL <= p.write && d % HEARTBEAT_INTERVAL == 0
    ensures d <= Gap(p)
  {
  }

  lemma RunningStays(p: Timing, s: State, e: Event, id: OpId)
    requires Inv(s) && LeaseInv(p, s) && Enabled(s, e) && id in s.rows && s.rows[id].status == Running
    ensures id in s.births && id in Apply(s, e).rows
  {
    assert Shape(s.rows[id]) && RowInv(s, id);
    if id !in Apply(s, e).rows { OnlyCleanupDeletes(s, e, id); }
  }

  lemma OnlyCleanupDeletes(s: State, e: Event, id: OpId)
    requires Enabled(s, e) && id in s.rows && id !in Apply(s, e).rows
    ensures e.Cleanup? && IsExpired(s.rows[id], Now(s, e.m))
  {
  }

  /** What a job leaves unchanged, no other worker writes for it, and itself only a report. */
  lemma OnlyOwnReport(s: State, e: Event, w: Worker)
    requires Inv(s) && Enabled(s, e) && w in s.jobs && s.jobs[w].Owns()
    requires w in Apply(s, e).jobs && Apply(s, e).jobs[w] == s.jobs[w]
    ensures OwnerWrites(s, e, s.jobs[w].id) && s.jobs[e.w].Owns() ==> e.Report?
  {
    if (e.Report? || e.Beat? || e.Finish?) && e.w in s.jobs && e.w != w { assert NoShare(s, e.w, w); }
  }

  lemma OtherRowStaysLeased(p: Timing, s: State, e: Event, w: Worker, row: Row)
    requires LeaseCovers(p) && LeaseInv(p, s) && OnTime(p, s) && Enabled(s, e)
    requires w in s.jobs && s.jobs[w].Owns() && Leased(p, s, w) && RowStep(s, e, s.jobs[w].id, row)
    requires OwnerWrites(s, e, s.jobs[w].id) ==> e.Report?
    ensures LeasedRow(p, row, w, s.jobs[w])
  {
    if e.Reap? { NotStale(p, s, w, e.m); }
  }

  /** The row of a job that the event does not touch keeps its lease. */
  lemma StepKeepsOtherLease(p: Timing, s: State, e: Event, w: Worker)
    requires LeaseCovers(p) && Inv(s) && LeaseInv(p, s) && OnTime(p, s) && Enabled(s, e)
    requires w in s.jobs && w in Apply(s, e).jobs && Apply(s, e).jobs[w] == s.jobs[w]
    ensures Leased(p, Apply(s, e), w)
  {
    assert Leased(p, s, w);
    var job := s.jobs[w];
    if job.Owns() {
      RunningStays(p, s, e, job.id);
      RowAfter(s, e, job.id);
      OnlyOwnReport(s, e, w);
      OtherRowStaysLeased(p, s, e, w, Apply(s, e).rows[job.id]);
    }
  }

  lemma StepKeepsBeatenLease(p: Timing, s: State, e: Event)
    requires LeaseInv(p, s) && Enabled(s, e) && e.Beat?
    ensures Leased(p, Apply(s, e), e.w)
  {
    assert Leased(p, s, e.w);
    GapBounds(p, s.jobs[e.w].nextTick - s.jobs[e.w].beat.value);
  }

  lemma StepTakesLease(p: Timing, s: State, e: Event, w: Worker)
    requires LeaseInv(p, s) && Enabled(s, e) && w in Apply(s, e).jobs && (e.Take? || e.Claim?) && w == e.w
    ensures Leased(p, Apply(s, e), w)
  {
    if w in s.jobs { assert Leased(p, s, w); }
  }

  /** Where the owner stands after moving on with an unchanged row. */
  lemma FreshMoves(p: Timing, job: Job, now: int, beat: int)
    requires job.Owns() && Fresh(p, job, beat) && JobOnTime(p, job, now)
    ensures job.Preparing? ==> Fresh(p, Executing(job.id, now + HEARTBEAT_INTERVAL, None), beat)
    ensures forall ran, outcome | job.Preparing? || job.Executing? ::
      Fresh(p, Finishing(job.id, now, ran, outcome), beat)
    ensures job.Executing? && job.beat.None? ==>
      Fresh(p, job.(nextTick := job.nextTick + HEARTBEAT_INTERVAL, beat := Some(job.nextTick)), beat)
    ensures job.Executing? && job.beat.Some? && job.nextTick <= now ==>
      Fresh(p, job.(nextTick := job.nextTick + HEARTBEAT_INTERVAL), beat)
  {
  }

  lemma StepMovesLease(p: Timing, s: State, e: Event)
    requires LeaseInv(p, s) && OnTime(p, s) && Enabled(s, e)
    requires e.SetupFails? || e.Begin? || e.Tick? || e.SkipTick? || e.Return?
    ensures Leased(p, Apply(s, e), e.w)
  {
    var job := s.jobs[e.w];
    assert Leased(p, s, e.w) && JobOnTime(p, job, Now(s, e.w.manager));
    FreshMoves(p, job, Now(s, e.w.manager), s.rows[job.id].heartbeat.value);
  }

  lemma StepKeepsOwnLease(p: Timing, s: State, e: Event, w: Worker)
    requires LeaseInv(p, s) && OnTime(p, s) && Enabled(s, e)
    requires w in Apply(s, e).jobs && (w in s.jobs ==> Apply(s, e).jobs[w] != s.jobs[w])
    ensures Leased(p, Apply(s, e), w)
  {
    if e.Beat? { StepKeepsBeatenLease(p, s, e); }
    else if e.Take? || e.Claim? { StepTakesLease(p, s, e, w); }
    else { StepMovesLease(p, s, e); }
  }

  lemma {:induction false} TimelyRunKeepsLease(p: Timing, ss: seq<State>, es: seq<Event>, i: nat)
    requires LeaseCovers(p) && IsTimelyRun(p, ss, es) && i < |ss|
    ensures LeaseInv(p, ss[i])
  {
    if i > 0 {
      var s, e := ss[i - 1], es[i - 1];
      TimelyRunKeepsLease(p, ss, es, i - 1);
      RunKeepsInv(ss, es, i - 1);
      assert ss[i] == Apply(s, e);
      forall w | w in ss[i].jobs ensures Leased(p, ss[i], w) {
        if w in s.jobs && ss[i].jobs[w] == s.jobs[w] {
          StepKeepsOtherLease(p, s, e, w);
        } else {
          StepKeepsOwnLease(p, s, e, w);
        }
      }
      forall id | id in ss[i].rows ensures Shape(ss[i].rows[id]) { StepKeepsShape(p, s, e, id); }
    }
  }

  lemma OwnerSeesRunning(p: Timing, s: State, w: Worker)
    requires LeaseInv(p, s) && w in s.jobs && s.jobs[w].Owns()
    ensures s.jobs[w].id in s.rows && s.rows[s.jobs[w].id].status == Running
  {
    assert Leased(p, s, w);
  }

  lemma LeaseSuffices(p: Timing)
    requires LeaseCovers(p)
    ensures NoLiveWorkerReaped(p) && TerminalRowsFixed(p)
  {
    forall ss, es, i: nat | IsTimelyRun(p, ss, es) && i < |es|
      ensures !ReapsLive(ss[i], es[i]) && !ChangesTerminal(ss[i], es[i])
    {
      var s, e := ss[i], es[i];
      TimelyRunKeepsLease(p, ss, es, i);
      RunKeepsInv(ss, es, i);
      if ReapsLive(s, e) {
        var w :| w in s.jobs && s.jobs[w].Owns() && s.jobs[w].id in s.rows
          && IsStale(s.rows[s.jobs[w].id], Now(s, e.m));
        NotStale(p, s, w, e.m);
      }
      if ChangesTerminal(s, e) {
        var id :| id in s.rows && Terminal(s.rows[id]) && id in Apply(s, e).rows && Apply(s, e).rows[id] != s.rows[id];
        assert RowInv(s, id);
        RowAfter(s, e, id);
        if OwnerWrites(s, e, id) { OwnerSeesRunning(p, s, e.w); }
      }
    }
  }

  // ----- and is needed -----

  ghost predicate TimelyReach(p: Timing, s: State) {
    exists ss, es :: IsTimelyRun(p, ss, es) && ss[|es|] == s
  }

  lemma TimelyStep(p: Timing, s: State, e: Event)
    requires TimelyReach(p, s) && Enabled(s, e) && OnTime(p, Apply(s, e))
    ensures TimelyReach(p, Apply(s, e))
  {
    var ss, es :| IsTimelyRun(p, ss, es) && ss[|es|] == s;
    assert IsTimelyRun(p, ss + [Apply(s, e)], es + [e]);
  }

  lemma TimelyViolation(p: Timing, s: State, e: Event)
    requires TimelyReach(p, s) && Enabled(s, e) && OnTime(p, Apply(s, e))
    ensures ReapsLive(s, e) ==> !NoLiveWorkerReaped(p)
    ensures ChangesTerminal(s, e) ==> !TerminalRowsFixed(p)
  {
    var ss, es :| IsTimelyRun(p, ss, es) && ss[|es|] == s;
    var ss', es' := ss + [Apply(s, e)], es + [e];
    assert IsTimelyRun(p, ss', es');
    assert ss'[|es|] == s && es'[|es|] == e;
  }

  const TASK := Task(1, "helm_release", "install", "release", Json(""))
  const WORKER := Worker("a", 0)

  function Scene(p: Timing, clock: int, row: Row, job: Job, ran: seq<OpId>): State {
    State(clock, map["x" := row], map["a" := Manager(true, [], 0), "b" := Manager(true, [], p.skew)],
          map[WORKER := job], map[], map["x" := Birth(TASK, None, 0, None)], ran, {})
  }

  function Beaten(beat: int): Row { ClaimRow(NewRow(TASK, None, 0), "a", beat) }

  lemma SceneOnTime(p: Timing, clock: int, row: Row, job: Job, ran: seq<OpId>)
    requires JobOnTime(p, job, clock)
    ensures OnTime(p, Scene(p, clock, row, job, ran))
  {
  }

  lemma TimelyTo(p: Timing, s: State, e: Event, t: State)
    requires TimelyReach(p, s) && Enabled(s, e) && Apply(s, e) == t && OnTime(p, t)
    ensures TimelyReach(p, t)
  {
    TimelyStep(p, s, e);
  }

  /** One event in the scene. */
  lemma SceneStep(p: Timing, s: State, e: Event, clock: int, row: Row, job: Job, ran: seq<OpId>)
    requires TimelyReach(p, s) && Enabled(s, e) && Apply(s, e) == Scene(p, clock, row, job, ran)
    requires JobOnTime(p, job, clock)
    ensures TimelyReach(p, Scene(p, clock, row, job, ran))
  {
    SceneOnTime(p, clock, row, job, ran);
    TimelyTo(p, s, e, Scene(p, clock, row, job, ran));
  }

  lemma SceneElapse(p: Timing, clock: int, row: Row, job: Job, ran: seq<OpId>, d: nat)
    requires TimelyReach(p, Scene(p, clock, row, job, ran)) && JobOnTime(p, job, clock + d)
    ensures TimelyReach(p, Scene(p, clock + d, row, job, ran))
  {
    SceneStep(p, Scene(p, clock, row, job, ran), Elapse(d), clock + d, row, job, ran);
  }

  function Prelude(p: Timing, queue: seq<OpId>): State {
    State(0, map["x" := NewRow(TASK, None, 0)], map["a" := Manager(true, queue, 0), "b" := Manager(true, [], p.skew)],
          map[], map[], map["x" := Birth(TASK, None, 0, None)], [], {})
  }

  function Empty(managers: map<ManagerId, Manager>): State {
    State(0, map[], managers, map[], map[], map[], [], {})
  }

  lemma EmptyStep(p: Timing, before: map<ManagerId, Manager>, e: Event, after: map<ManagerId, Manager>)
    requires TimelyReach(p, Empty(before)) && Enabled(Empty(before), e) && Apply(Empty(before), e) == Empty(after)
    requires forall a, b | a in after && b in after :: after[a].offset <= after[b].offset + p.skew
    ensures TimelyReach(p, Empty(after))
  {
    TimelyStep(p, Empty(before), e);
  }

  lemma NothingYet(p: Timing)
    ensures TimelyReach(p, Empty(map[]))
  {
    var none: seq<Event> := [];
    assert IsTimelyRun(p, [Init()], none) && [Init()][|none|] == Init();
  }

  lemma OneManager(p: Timing)
    ensures TimelyReach(p, Empty(map["a" := Manager(true, [], 0)]))
  {
    NothingYet(p);
    EmptyStep(p, map[], NewManager("a", 0), map["a" := Manager(false, [], 0)]);
    EmptyStep(p, map["a" := Manager(false, [], 0)], Start("a"), map["a" := Manager(true, [], 0)]);
  }

  lemma ManagersSet(p: Timing)
    ensures TimelyReach(p, Empty(map["a" := Manager(true, [], 0), "b" := Manager(true, [], p.skew)]))
  {
    OneManager(p);
    var a := Manager(true, [], 0);
    var both := map["a" := a, "b" := Manager(false, [], p.skew)];
    EmptyStep(p, map["a" := a], NewManager("b", p.skew), both);
    EmptyStep(p, both, Start("b"), map["a" := a, "b" := Manager(true, [], p.skew)]);
  }

  lemma SceneSubmitted(p: Timing)
    ensures TimelyReach(p, Prelude(p, []))
  {
    ManagersSet(p);
    var s := Empty(map["a" := Manager(true, [], 0), "b" := Manager(true, [], p.skew)]);
    TimelyStep(p, s, Submit("a", "x", TASK));
    assert Apply(s, Submit("a", "x", TASK)) == Prelude(p, []);
  }

  lemma SceneQueued(p: Timing)
    ensures TimelyReach(p, Prelude(p, ["x"]))
  {
    SceneSubmitted(p);
    var s := Prelude(p, []);
    var t := Apply(s, Enqueue("a", "x"));
    assert s.managers["a"].queue + ["x"] == ["x"];
    assert t.managers == Prelude(p, ["x"]).managers;
    TimelyStep(p, s, Enqueue("a", "x"));
  }

  lemma SceneClaimed(p: Timing)
    ensures TimelyReach(p, Scene(p, 0, Beaten(0), Preparing("x", 0), []))
  {
    SceneQueued(p);
    var queued := NewRow(TASK, None, 0);
    var s := Prelude(p, ["x"]);
    var taken := Scene(p, 0, queued, Claiming("x", 0), []);
    assert s.managers["a"].queue[1..] == [];
    assert Apply(s, Take(WORKER)).managers == taken.managers;
    SceneStep(p, s, Take(WORKER), 0, queued, Claiming("x", 0), []);
    SceneStep(p, taken, Claim(WORKER), 0, Beaten(0), Preparing("x", 0), []);
  }

  function Ticking(nextTick: int, tick: int): Job { Executing("x", nextTick, Some(tick)) }

  lemma SceneNextTick(p: Timing, beat: int, tick: int)
    requires TimelyReach(p, Scene(p, tick, Beaten(beat), Executing("x", tick, None), ["x"]))
    ensures TimelyReach(p, Scene(p, tick, Beaten(beat), Ticking(tick + HEARTBEAT_INTERVAL, tick), ["x"]))
  {
    SceneStep(p, Scene(p, tick, Beaten(beat), Executing("x", tick, None), ["x"]), Tick(WORKER),
              tick, Beaten(beat), Ticking(tick + HEARTBEAT_INTERVAL, tick), ["x"]);
  }

  /** The executor starts `delay` after the claim and its first heartbeat tick fires. */
  lemma SceneTicked(p: Timing, delay: nat)
    requires delay <= p.setup
    ensures var tick := delay + HEARTBEAT_INTERVAL;
      TimelyReach(p, Scene(p, tick, Beaten(0), Ticking(tick + HEARTBEAT_INTERVAL, tick), ["x"]))
  {
    SceneClaimed(p);
    SceneElapse(p, 0, Beaten(0), Preparing("x", 0), [], delay);
    var tick := delay + HEARTBEAT_INTERVAL;
    SceneStep(p, Scene(p, delay, Beaten(0), Preparing("x", 0), []), Begin(WORKER),
              delay, Beaten(0), Executing("x", tick, None), ["x"]);
    SceneElapse(p, delay, Beaten(0), Executing("x", tick, None), ["x"], HEARTBEAT_INTERVAL);
    SceneNextTick(p, 0, tick);
  }

  /** n further ticks are dropped while the first heartbeat is still being written. */
  lemma {:induction false} SceneSkipped(p: Timing, n: nat)
    requires n * HEARTBEAT_INTERVAL <= p.write
    ensures var now := (n + 1) * HEARTBEAT_INTERVAL;
      TimelyReach(p, Scene(p, now, Beaten(0), Ticking(now + HEARTBEAT_INTERVAL, HEARTBEAT_INTERVAL), ["x"]))
  {
    if n == 0 {
      SceneTicked(p, 0);
    } else {
      SceneSkipped(p, n - 1);
      var now := (n + 1) * HEARTBEAT_INTERVAL;
      SceneElapse(p, now - HEARTBEAT_INTERVAL, Beaten(0), Ticking(now, HEARTBEAT_INTERVAL), ["x"], HEARTBEAT_INTERVAL);
      SceneStep(p, Scene(p, now, Beaten(0), Ticking(now, HEARTBEAT_INTERVAL), ["x"]), SkipTick(WORKER),
                now, Beaten(0), Ticking(now + HEARTBEAT_INTERVAL, HEARTBEAT_INTERVAL), ["x"]);
    }
  }

  lemma SceneWritten(p: Timing)
    ensures var job := Executing("x", Gap(p) + HEARTBEAT_INTERVAL, None);
      TimelyReach(p, Scene(p, Gap(p), Beaten(HEARTBEAT_INTERVAL), job, ["x"]))
  {
    SceneSkipped(p, p.write / HEARTBEAT_INTERVAL);
    var now := Gap(p);
    var tick := now + HEARTBEAT_INTERVAL;
    SceneStep(p, Scene(p, now, Beaten(0), Ticking(tick, HEARTBEAT_INTERVAL), ["x"]), Beat(WORKER),
              now, Beaten(HEARTBEAT_INTERVAL), Executing("x", tick, None), ["x"]);
  }

  /** The update is written at last; the next tick fires a full gap after the recorded one. */
  lemma SceneLate(p: Timing)
    ensures var tick := HEARTBEAT_INTERVAL + Gap(p);
      TimelyReach(p, Scene(p, tick, Beaten(HEARTBEAT_INTERVAL), Ticking(tick + HEARTBEAT_INTERVAL, tick), ["x"]))
  {
    var tick := Gap(p) + HEARTBEAT_INTERVAL;
    SceneWritten(p);
    SceneElapse(p, Gap(p), Beaten(HEARTBEAT_INTERVAL), Executing("x", tick, None), ["x"], HEARTBEAT_INTERVAL);
    SceneNextTick(p, HEARTBEAT_INTERVAL, tick);
  }

  lemma SuccessAllowed(kind: string)
    ensures CanReturn(kind, Success)
  {
    assert Success == PackageOutcome(Done) == AiOutcome(Applied);
  }

  /** The executor returns just before that heartbeat is written, and the final write is slow. */
  lemma SceneReturned(p: Timing, tick: int, beat: int)
    requires TimelyReach(p, Scene(p, tick, Beaten(beat), Ticking(tick + HEARTBEAT_INTERVAL, tick), ["x"]))
    ensures var job := Finishing("x", tick + p.write, true, Success);
      TimelyReach(p, Scene(p, tick + p.write + p.finish, Beaten(beat), job, ["x"]))
  {
    SuccessAllowed(TASK.kind);
    var row, back := Beaten(beat), tick + p.write;
    var job := Ticking(tick + HEARTBEAT_INTERVAL, tick);
    var last := Finishing("x", back, true, Success);
    SceneElapse(p, tick, row, job, ["x"], p.write);
    SceneStep(p, Scene(p, back, row, job, ["x"]), Return(WORKER, Success), back, row, last, ["x"]);
    SceneElapse(p, back, row, last, ["x"], p.finish);
  }

  /** The other manager reaps the row meanwhile, and the final write turns failed into succeeded. */
  lemma SceneReaped(p: Timing, tick: int, beat: int)
    requires TimelyReach(p, Scene(p, tick, Beaten(beat), Ticking(tick + HEARTBEAT_INTERVAL, tick), ["x"]))
    requires beat + STALE_WORKER_AFTER < tick + p.write + p.finish + p.skew
    ensures !NoLiveWorkerReaped(p) && !TerminalRowsFixed(p)
  {
    SceneReturned(p, tick, beat);
    var row, last := Beaten(beat), Finishing("x", tick + p.write, true, Success);
    var now := tick + p.write + p.finish;
    var reaped := ReapRow(row, now + p.skew);
    var s := Scene(p, now, row, last, ["x"]);
    ReapInScene(p, now, row, last);
    SceneStep(p, s, Reap("b"), now, reaped, last, ["x"]);
    SceneOnTime(p, now, reaped, last, ["x"]);
    TimelyViolation(p, s, Reap("b"));
    SceneRewritten(p, now, reaped, last);
  }

  lemma ReapInScene(p: Timing, now: int, row: Row, job: Job)
    requires job.Owns() && job.id == "x" && IsStale(row, now + p.skew)
    ensures var s := Scene(p, now, row, job, ["x"]);
      Apply(s, Reap("b")) == Scene(p, now, ReapRow(row, now + p.skew), job, ["x"]) && ReapsLive(s, Reap("b"))
  {
    var s := Scene(p, now, row, job, ["x"]);
    assert Apply(s, Reap("b")).rows == map["x" := ReapRow(row, now + p.skew)];
    assert s.jobs[WORKER].Owns() && IsStale(s.rows["x"], Now(s, "b"));
  }

  lemma SceneRewritten(p: Timing, now: int, row: Row, job: Job)
    requires TimelyReach(p, Scene(p, now, row, job, ["x"])) && row.status == Failed
    requires job.Finishing? && job.id == "x" && job.outcome == Success
    ensures !TerminalRowsFixed(p)
  {
    var s := Scene(p, now, row, job, ["x"]);
    assert Terminal(s.rows["x"]) && Apply(s, Finish(WORKER)).rows["x"].status == Succeeded;
    TimelyViolation(p, s, Finish(WORKER));
  }

  /** No live worker is ever reaped, and no terminal row ever rewritten, exactly when setup, heartbeat
      write, final write and clock skew together fit in the lease. */
  lemma LeaseBound(p: Timing)
    ensures NoLiveWorkerReaped(p) <==> LeaseCovers(p)
    ensures TerminalRowsFixed(p) <==> LeaseCovers(p)
  {
    if LeaseCovers(p) {
      LeaseSuffices(p);
    } else if Age(p) == Gap(p) {
      SceneLate(p);
      SceneReaped(p, HEARTBEAT_INTERVAL + Gap(p), HEARTBEAT_INTERVAL);
    } else {
      SceneTicked(p, p.setup);
      SceneReaped(p, p.setup + HEARTBEAT_INTERVAL, 0);
    }
  }

  /** When a heartbeat is written before the next tick, the delays simply add up to 25 seconds. */
  lemma LeaseIsSum(p: Timing)
    requires p.write < HEARTBEAT_INTERVAL
    ensures LeaseCovers(p) <==> p.setup + p.write + p.finish + p.skew <= 25_000
  {
  }

  /** Bounding setup and finish separately is not enough. */
  lemma SeparateBoundsFail()
    ensures !NoLiveWorkerReaped(Timing(20_000, 0, 20_000, 0))
  {
    LeaseBound(Timing(20_000, 0, 20_000, 0));
  }

  /** Within the lease every row of every run has the shape its status promises. */
  lemma TableShape(p: Timing, ss: seq<State>, es: seq<Event>, i: nat, id: OpId)
    requires LeaseCovers(p) && IsTimelyRun(p, ss, es) && i < |ss| && id in ss[i].rows
    ensures Shape(ss[i].rows[id])
  {
    TimelyRunKeepsLease(p, ss, es, i);
  }
}
