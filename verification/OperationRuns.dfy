/** Runs of any number of managers sharing one operations table. Every database write, queue
    operation and goroutine hand-over is one event, and events of different managers and workers
    interleave freely. A crash is Stop followed by Abandon of that manager's jobs; a restarted
    process is a new manager. */
module OperationRuns {
  import opened Wrappers
  import opened Operations

  const AI_CHANGE := "ai_change"

  // ----- what the executor of approved AI changes can return -----

  datatype AiResult = InvalidInput | NotConfigured | Denied | ToolFailed | Applied

  function AiOutcome(r: AiResult): Outcome {
    match r
    case InvalidInput => Failure("INVALID_OPERATION_INPUT", false)
    case NotConfigured => Failure("AI_CONFIGURATION_INVALID", false)
    case Denied => Failure("PERMISSION_DENIED", false)
    case ToolFailed => Failure("AI_CHANGE_FAILED", false)
    case Applied => Success
  }

  // ----- what the executor of package changes can return -----

  const HELM_RELEASE := "helm_release"

  datatype PackageResult = Malformed | Unsupported | NotPermitted | Rejected | Conflict | NotFound | NotReady
                         | Unreachable | OtherError | Done

  /** Only a conflict may be retried: with a running operation on the release, or with an existing release. */
  function PackageOutcome(r: PackageResult): Outcome {
    match r
    case Malformed => Failure("INVALID_OPERATION_INPUT", false)
    case Unsupported => Failure("UNSUPPORTED_OPERATION", false)
    case NotPermitted => Failure("PERMISSION_DENIED", false)
    case Rejected => Failure("VALUES_OR_RESOURCE_INVALID", false)
    case Conflict => Failure("RELEASE_CONFLICT", true)
    case NotFound => Failure("RELEASE_NOT_FOUND", false)
    case NotReady => Failure("POD_READINESS_TIMEOUT", false)
    case Unreachable => Failure("KUBERNETES_UNAVAILABLE", false)
    case OtherError => Failure("PACKAGE_OPERATION_FAILED", false)
    case Done => Success
  }

  // ----- the state -----

  datatype Worker = Worker(manager: ManagerId, slot: nat)

  /** Where one call of execute stands. Times are readings of the worker's own clock. */
  datatype Job =
    | Claiming(id: OpId, readAt: int)                            // `now` read, claim not yet written
    | Preparing(id: OpId, readAt: int)                           // claim written
    | Executing(id: OpId, nextTick: int, beat: Option<int>)      // executor running, heartbeat ticking
    | Finishing(id: OpId, since: int, ran: bool, outcome: Outcome) // final write not yet made
  {
    predicate Owns() { !Claiming? }
  }

  datatype Manager = Manager(started: bool, queue: seq<OpId>, offset: int)

  /** How an operation came to be; kept for ever, since clean-up may delete its row. */
  datatype Birth = Birth(task: Task, parent: Option<OpId>, order: nat, parentRow: Option<Row>)

  /** A call of Retry between its two statements: the parent has been read, the child not yet created. */
  datatype Read = Read(previous: OpId, row: Row)

  datatype State = State(
    clock: int,
    rows: Rows,
    managers: map<ManagerId, Manager>,
    jobs: map<Worker, Job>,
    lookups: map<nat, Read>,
    births: map<OpId, Birth>,
    ran: seq<OpId>,              // executor invocations, in order
    deferred: set<OpId>)         // those whose executor returned a failure that may be retried

  function Init(): State { State(0, map[], map[], map[], map[], map[], [], {}) }

  datatype Event =
    | Elapse(d: nat)
    | NewManager(m: ManagerId, offset: int)
    | Start(m: ManagerId)
    | Stop(m: ManagerId)
    | Submit(m: ManagerId, id: OpId, task: Task)
    | ReadParent(m: ManagerId, r: nat, previous: OpId)
    | Retry(m: ManagerId, r: nat, id: OpId)
    | Enqueue(m: ManagerId, id: OpId)
    | Take(w: Worker)
    | Claim(w: Worker)
    | SetupFails(w: Worker, cause: SetupCause)
    | Begin(w: Worker)
    | Report(w: Worker, progress: int)
    | Tick(w: Worker)
    | SkipTick(w: Worker)
    | Beat(w: Worker)
    | Return(w: Worker, outcome: Outcome)
    | Finish(w: Worker)
    | Abandon(w: Worker)
    | Reap(m: ManagerId)
    | Cleanup(m: ManagerId)

  predicate Busy(s: State, w: Worker) { w in s.jobs && w.manager in s.managers }

  function Now(s: State, m: ManagerId): int
    requires m in s.managers
  {
    s.clock + s.managers[m].offset
  }

  function KindOf(s: State, id: OpId): string {
    if id in s.births then s.births[id].task.kind else ""
  }

  ghost predicate CanReturn(kind: string, outcome: Outcome) {
    && (kind == AI_CHANGE ==> exists r :: outcome == AiOutcome(r))
    && (kind == HELM_RELEASE ==> exists r :: outcome == PackageOutcome(r))
  }

  predicate MayRetry(row: Row) { row.status == Failed && row.retryable }

  /** After this answer of the executor the operation may be retried. */
  predicate MayComeAgain(outcome: Outcome) { outcome.Failure? && outcome.retryable }

  ghost predicate Enabled(s: State, e: Event) {
    match e
    case Elapse(_) => true
    case NewManager(m, _) => m !in s.managers
    case Start(m) => m in s.managers
    case Stop(m) => m in s.managers
    case Submit(m, id, _) => m in s.managers && id !in s.births
    case ReadParent(m, r, previous) =>
      m in s.managers && r !in s.lookups && previous in s.rows && MayRetry(s.rows[previous])
    case Retry(m, r, id) => m in s.managers && r in s.lookups && id !in s.births
    case Enqueue(m, _) => m in s.managers
    case Take(w) =>
      w !in s.jobs && w.manager in s.managers && |s.managers[w.manager].queue| > 0
    case Claim(w) => Busy(s, w) && s.jobs[w].Claiming?
    case SetupFails(w, _) => Busy(s, w) && s.jobs[w].Preparing?
    case Begin(w) => Busy(s, w) && s.jobs[w].Preparing?
    case Report(w, _) => Busy(s, w) && s.jobs[w].Executing?
    case Tick(w) =>
      Busy(s, w) && s.jobs[w].Executing? && s.jobs[w].beat.None? && s.jobs[w].nextTick <= Now(s, w.manager)
    case SkipTick(w) =>
      Busy(s, w) && s.jobs[w].Executing? && s.jobs[w].beat.Some? && s.jobs[w].nextTick <= Now(s, w.manager)
    case Beat(w) => Busy(s, w) && s.jobs[w].Executing? && s.jobs[w].beat.Some?
    case Return(w, outcome) => Busy(s, w) && s.jobs[w].Executing? && CanReturn(KindOf(s, s.jobs[w].id), outcome)
    case Finish(w) => Busy(s, w) && s.jobs[w].Finishing?
    case Abandon(w) => Busy(s, w)
    case Reap(m) => m in s.managers
    case Cleanup(m) => m in s.managers
  }

  function WithJob(s: State, w: Worker, job: Job): State { s.(jobs := s.jobs[w := job]) }
  function Release(s: State, w: Worker): State { s.(jobs := s.jobs - {w}) }

  function Apply(s: State, e: Event): State
    requires Enabled(s, e)
  {
    match e
    case Elapse(d) => s.(clock := s.clock + d)
    case NewManager(m, offset) => s.(managers := s.managers[m := Manager(false, [], offset)])
    case Start(m) => s.(managers := s.managers[m := s.managers[m].(started := true)])
    case Stop(m) => s.(managers := s.managers[m := s.managers[m].(started := false)])
    case Submit(m, id, task) =>
      s.(rows := s.rows[id := NewRow(task, None, Now(s, m))],
         births := s.births[id := Birth(task, None, |s.births|, None)])
    case ReadParent(m, r, previous) => s.(lookups := s.lookups[r := Read(previous, s.rows[previous])])
    case Retry(m, r, id) =>
      var Read(previous, row) := s.lookups[r];
      s.(rows := s.rows[id := NewRow(row.task, Some(previous), Now(s, m))], lookups := s.lookups - {r},
         births := s.births[id := Birth(row.task, Some(previous), |s.births|, Some(row))])
    case Enqueue(m, id) =>
      var mg := s.managers[m];
      if !mg.started || |mg.queue| >= QUEUE_SIZE then s
      else s.(managers := s.managers[m := mg.(queue := mg.queue + [id])])
    case Take(w) =>
      var mg := s.managers[w.manager];
      WithJob(s, w, Claiming(mg.queue[0], Now(s, w.manager)))
        .(managers := s.managers[w.manager := mg.(queue := mg.queue[1..])])
    case Claim(w) =>
      var job := s.jobs[w];
      if job.id in s.rows && s.rows[job.id].status == Queued
      then WithJob(s, w, Preparing(job.id, job.readAt)).(rows := ClaimIn(s.rows, job.id, w.manager, job.readAt))
      else Release(s, w)
    case SetupFails(w, cause) =>
      WithJob(s, w, Finishing(s.jobs[w].id, Now(s, w.manager), false, SetupOutcome(cause)))
    case Begin(w) =>
      WithJob(s, w, Executing(s.jobs[w].id, Now(s, w.manager) + HEARTBEAT_INTERVAL, None))
        .(ran := s.ran + [s.jobs[w].id])
    case Report(w, progress) => s.(rows := ReportIn(s.rows, s.jobs[w].id, progress))
    case Tick(w) =>
      var job := s.jobs[w];
      WithJob(s, w, job.(nextTick := job.nextTick + HEARTBEAT_INTERVAL, beat := Some(job.nextTick)))
    case SkipTick(w) =>
      WithJob(s, w, s.jobs[w].(nextTick := s.jobs[w].nextTick + HEARTBEAT_INTERVAL))
    case Beat(w) =>
      var job := s.jobs[w];
      WithJob(s, w, job.(beat := None)).(rows := BeatIn(s.rows, job.id, w.manager, job.beat.value))
    case Return(w, outcome) =>
      WithJob(s, w, Finishing(s.jobs[w].id, Now(s, w.manager), true, outcome))
        .(deferred := if MayComeAgain(outcome) then s.deferred + {s.jobs[w].id} else s.deferred)
    case Finish(w) =>
      var job := s.jobs[w];
      Release(s, w).(rows := CompleteIn(s.rows, job.id, job.outcome, Now(s, w.manager)))
    case Abandon(w) => Release(s, w)
    case Reap(m) => s.(rows := ReapAll(s.rows, Now(s, m)))
    case Cleanup(m) => s.(rows := CleanAll(s.rows, Now(s, m)))
  }

  ghost predicate IsRun(ss: seq<State>, es: seq<Event>) {
    |ss| == |es| + 1 && ss[0] == Init()
    && forall i {:trigger es[i]} | 0 <= i < |es| :: Enabled(ss[i], es[i]) && ss[i + 1] == Apply(ss[i], es[i])
  }

  // ----- the invariant of every reachable state -----

  /** The row of id, if it still exists, has been claimed at some time. */
  predicate Left(s: State, id: OpId) {
    id in s.births && (id in s.rows ==> s.rows[id].status != Queued)
  }

  ghost predicate RowInv(s: State, id: OpId)
    requires id in s.rows
  {
    var row := s.rows[id];
    id in s.births && row.task == s.births[id].task && row.parent == s.births[id].parent
    && (row.status == Queued ==> row == NewRow(row.task, row.parent, row.created))
  }

  ghost predicate BirthInv(s: State, id: OpId)
    requires id in s.births
  {
    s.births[id].order < |s.births|
    && (s.births[id].parent.Some? ==> ForestEdge(s, s.births[id].parent.value, id))
  }

  ghost predicate ForestEdge(s: State, p: OpId, id: OpId)
    requires id in s.births
  {
    var b := s.births[id];
    p in s.births && s.births[p].order < b.order && s.births[p].task == b.task
    && b.parentRow.Some? && MayRetry(b.parentRow.value) && b.parentRow.value.task == b.task && Retired(s, p)
  }

  /** No worker owns id any more, or will again, and its executor was not invoked, or returned a failure
      that may be retried. */
  ghost predicate Retired(s: State, id: OpId) {
    Left(s, id) && Unowned(s, id) && (id in s.ran ==> id in s.deferred)
  }

  ghost predicate Unowned(s: State, id: OpId) {
    forall w | w in s.jobs && s.jobs[w].Owns() :: s.jobs[w].id != id
  }

  ghost predicate JobInv(s: State, w: Worker)
    requires w in s.jobs
  {
    var job := s.jobs[w];
    job.Owns() ==>
      && Left(s, job.id)
      && (job.Preparing? ==> job.id !in s.ran)
      && (job.Executing? ==> job.id in s.ran)
      && (job.Finishing? && MayComeAgain(job.outcome) && job.id in s.ran ==> job.id in s.deferred)
  }

  /** What was read of the parent is still so, unless clean-up has deleted it. */
  ghost predicate ReadInv(s: State, r: nat)
    requires r in s.lookups
  {
    var Read(previous, row) := s.lookups[r];
    && MayRetry(row) && Retired(s, previous) && s.births[previous].task == row.task
    && (previous in s.rows ==> s.rows[previous] == row)
  }

  /** Two workers never own the same operation. */
  ghost predicate NoShare(s: State, v: Worker, w: Worker)
    requires v in s.jobs && w in s.jobs
  {
    s.jobs[v].Owns() && s.jobs[w].Owns() ==> s.jobs[v].id != s.jobs[w].id
  }

  ghost predicate RanInv(s: State) {
    && Distinct(s.ran) && (forall id | id in s.ran :: Left(s, id))
    && (forall id | id in s.deferred :: id in s.ran && KindOf(s, id) != AI_CHANGE)
  }

  ghost predicate Inv(s: State) {
    && (forall id | id in s.births :: BirthInv(s, id))
    && RanInv(s)
    && (forall id | id in s.rows :: RowInv(s, id))
    && (forall w | w in s.jobs :: JobInv(s, w))
    && (forall v, w | v in s.jobs && w in s.jobs && v != w :: NoShare(s, v, w))
    && (forall id | id in s.rows && MayRetry(s.rows[id]) :: Retired(s, id))
    && (forall r | r in s.lookups :: ReadInv(s, r))
  }

  /** The event writes to the row of id on behalf of a worker that owns it. */
  predicate OwnerWrites(s: State, e: Event, id: OpId) {
    (e.Report? || e.Beat? || e.Finish?) && e.w in s.jobs && s.jobs[e.w].id == id
  }

  /** What one event can make of an existing row. */
  ghost predicate RowStep(s: State, e: Event, id: OpId, row: Row)
    requires Enabled(s, e) && id in s.rows
  {
    var was := s.rows[id];
    || row == was
    || (e.Claim? && s.jobs[e.w].id == id && was.status == Queued
        && row == ClaimRow(was, e.w.manager, s.jobs[e.w].readAt))
    || (e.Reap? && IsStale(was, Now(s, e.m)) && row == ReapRow(was, Now(s, e.m)))
    || (OwnerWrites(s, e, id) && e.Report? && row == was.(progress := ClampProgress(e.progress)))
    || (OwnerWrites(s, e, id) && e.Beat? && was.status == Running && row == was.(heartbeat := s.jobs[e.w].beat))
    || (OwnerWrites(s, e, id) && e.Finish? && row == CompleteRow(was, s.jobs[e.w].outcome, Now(s, e.w.manager)))
  }

  lemma RowAfter(s: State, e: Event, id: OpId)
    requires Enabled(s, e) && id in s.rows && id in s.births
    ensures id in Apply(s, e).births && Apply(s, e).births[id] == s.births[id]
    ensures id in Apply(s, e).rows ==> RowStep(s, e, id, Apply(s, e).rows[id])
  {
  }

  lemma RowStepKeepsQueued(s: State, e: Event, id: OpId, row: Row)
    requires Inv(s) && Enabled(s, e) && id in s.rows && RowStep(s, e, id, row)
    ensures row.task == s.rows[id].task && row.parent == s.rows[id].parent
    ensures row.status == Queued ==> row == s.rows[id]
  {
    assert RowInv(s, id);
    if OwnerWrites(s, e, id) { assert JobInv(s, e.w); }
  }

  lemma StepKeepsRowInv(s: State, e: Event, id: OpId)
    requires Inv(s) && Enabled(s, e) && id in Apply(s, e).rows
    ensures RowInv(Apply(s, e), id)
  {
    if id in s.rows {
      assert RowInv(s, id);
      RowAfter(s, e, id);
      RowStepKeepsQueued(s, e, id, Apply(s, e).rows[id]);
    } else {
      AddedRow(s, e, id);
    }
  }

  /** New rows are queued, and as they were submitted or read. */
  lemma AddedRow(s: State, e: Event, id: OpId)
    requires Enabled(s, e) && id !in s.rows && id in Apply(s, e).rows
    ensures id in Apply(s, e).births
    ensures var b := Apply(s, e).births[id]; Apply(s, e).rows[id] == NewRow(b.task, b.parent, Now(s, e.m))
  {
  }

  /** Only Begin and Return add to what has run. */
  ghost predicate RanStep(s: State, e: Event, t: State) {
    && (t.ran == s.ran || (e.Begin? && e.w in s.jobs && s.jobs[e.w].Preparing? && t.ran == s.ran + [s.jobs[e.w].id]))
    && (t.deferred == s.deferred
        || (e.Return? && e.w in s.jobs && s.jobs[e.w].Executing? && t.deferred == s.deferred + {s.jobs[e.w].id}
            && KindOf(s, s.jobs[e.w].id) != AI_CHANGE))
    && ((e.Begin? || e.Return?) && e.w in s.jobs ==> e.w in t.jobs && t.jobs[e.w] != s.jobs[e.w])
  }

  lemma RanAfter(s: State, e: Event)
    requires Enabled(s, e)
    ensures RanStep(s, e, Apply(s, e))
  {
  }

  lemma RanFrom(s: State, e: Event, t: State)
    requires RanInv(s) && RanStep(s, e, t) && forall id | Left(s, id) :: Left(t, id) && KindOf(t, id) == KindOf(s, id)
    requires (e.Begin? || e.Return?) && e.w in s.jobs ==> JobInv(s, e.w)
    ensures RanInv(t)
  {
  }

  lemma StepKeepsRan(s: State, e: Event)
    requires Inv(s) && Enabled(s, e)
    ensures RanInv(Apply(s, e))
  {
    RanAfter(s, e);
    forall id | Left(s, id) ensures Left(Apply(s, e), id) && KindOf(Apply(s, e), id) == KindOf(s, id) {
      StepKeepsLeft(s, e, id);
    }
    RanFrom(s, e, Apply(s, e));
  }

  /** No event forgets how an operation came to be, or brings a deleted row back. */
  lemma BornStays(s: State, e: Event, id: OpId)
    requires Enabled(s, e) && id in s.births
    ensures id in Apply(s, e).births && Apply(s, e).births[id] == s.births[id]
    ensures id in Apply(s, e).rows ==> id in s.rows
  {
  }

  lemma StepKeepsLeft(s: State, e: Event, id: OpId)
    requires Inv(s) && Enabled(s, e) && Left(s, id)
    ensures Left(Apply(s, e), id) && KindOf(Apply(s, e), id) == KindOf(s, id)
  {
    var t := Apply(s, e);
    BornStays(s, e, id);
    if id in t.rows {
      RowAfter(s, e, id);
      RowStepKeepsQueued(s, e, id, t.rows[id]);
    }
  }

  lemma OtherJobFrom(s: State, e: Event, t: State, w: Worker)
    requires w in s.jobs && w in t.jobs && t.jobs[w] == s.jobs[w] && s.jobs[w].Owns() && JobInv(s, w)
      && RanStep(s, e, t)
    requires Left(t, s.jobs[w].id) && KindOf(t, s.jobs[w].id) == KindOf(s, s.jobs[w].id)
    requires (e.Begin? || e.Return?) && e.w in s.jobs && e.w != w ==> NoShare(s, e.w, w)
    ensures JobInv(t, w)
  {
  }

  lemma StepKeepsOtherJob(s: State, e: Event, w: Worker)
    requires Inv(s) && Enabled(s, e) && w in s.jobs && w in Apply(s, e).jobs && Apply(s, e).jobs[w] == s.jobs[w]
    ensures JobInv(Apply(s, e), w)
  {
    assert JobInv(s, w);
    if s.jobs[w].Owns() {
      RanAfter(s, e);
      StepKeepsLeft(s, e, s.jobs[w].id);
      OtherJobFrom(s, e, Apply(s, e), w);
    }
  }

  lemma StepKeepsOwnJob(s: State, e: Event, w: Worker)
    requires Inv(s) && Enabled(s, e) && w in Apply(s, e).jobs && (w in s.jobs ==> Apply(s, e).jobs[w] != s.jobs[w])
    ensures JobInv(Apply(s, e), w)
  {
    if w in s.jobs {
      assert JobInv(s, w);
      if s.jobs[w].Owns() { StepKeepsLeft(s, e, s.jobs[w].id); } else { assert RowInv(s, s.jobs[w].id); }
    }
  }

  /** Only Claim, of a queued row, makes a worker an owner. */
  ghost predicate OwnerStep(s: State, e: Event, t: State, w: Worker)
    requires w in t.jobs
  {
    t.jobs[w].Owns() ==>
      && w in s.jobs && s.jobs[w].id == t.jobs[w].id
      && (s.jobs[w].Owns() || (e.Claim? && e.w == w && t.jobs[w].id in s.rows && s.rows[t.jobs[w].id].status == Queued))
  }

  lemma OwnerAfter(s: State, e: Event, w: Worker)
    requires Enabled(s, e) && w in Apply(s, e).jobs
    ensures OwnerStep(s, e, Apply(s, e), w)
  {
  }

  lemma NoShareFrom(s: State, e: Event, t: State, v: Worker, w: Worker)
    requires v in t.jobs && w in t.jobs && v != w && OwnerStep(s, e, t, v) && OwnerStep(s, e, t, w)
    requires v in s.jobs && w in s.jobs ==> NoShare(s, v, w) && JobInv(s, v) && JobInv(s, w)
    ensures NoShare(t, v, w)
  {
  }

  lemma StepKeepsNoShare(s: State, e: Event, v: Worker, w: Worker)
    requires Inv(s) && Enabled(s, e) && v in Apply(s, e).jobs && w in Apply(s, e).jobs && v != w
    ensures NoShare(Apply(s, e), v, w)
  {
    OwnerAfter(s, e, v);
    OwnerAfter(s, e, w);
    NoShareFrom(s, e, Apply(s, e), v, w);
  }

  /** Only a worker that claims id from queued comes to own it. */
  lemma StepKeepsUnowned(s: State, e: Event, id: OpId, w: Worker)
    requires Enabled(s, e) && Left(s, id) && Unowned(s, id) && w in Apply(s, e).jobs && Apply(s, e).jobs[w].Owns()
    ensures Apply(s, e).jobs[w].id != id
  {
    OwnerAfter(s, e, w);
  }

  /** Only a worker that owns id gets its executor invoked, or gets an answer from it. */
  lemma UnownedIsQuiet(s: State, e: Event, id: OpId)
    requires Enabled(s, e) && Unowned(s, id)
    ensures id in Apply(s, e).ran ==> id in s.ran
    ensures id in s.deferred ==> id in Apply(s, e).deferred
  {
    if e.Begin? || e.Return? { assert s.jobs[e.w].Owns(); }
  }

  lemma StepKeepsRetired(s: State, e: Event, id: OpId)
    requires Inv(s) && Enabled(s, e) && Retired(s, id)
    ensures Retired(Apply(s, e), id)
  {
    StepKeepsLeft(s, e, id);
    UnownedIsQuiet(s, e, id);
    forall w | w in Apply(s, e).jobs && Apply(s, e).jobs[w].Owns() ensures Apply(s, e).jobs[w].id != id {
      StepKeepsUnowned(s, e, id, w);
    }
  }

  /** A failed row that no worker owns stays as it is until it is deleted. */
  lemma RetiredRowStays(s: State, e: Event, id: OpId)
    requires Enabled(s, e) && id in s.rows && id in s.births && Unowned(s, id) && s.rows[id].status == Failed
    ensures id in Apply(s, e).rows ==> Apply(s, e).rows[id] == s.rows[id]
  {
    RowAfter(s, e, id);
    if OwnerWrites(s, e, id) { assert s.jobs[e.w].Owns(); }
  }

  lemma StepKeepsRetryInv(s: State, e: Event, id: OpId)
    requires Inv(s) && Enabled(s, e) && id in Apply(s, e).rows && MayRetry(Apply(s, e).rows[id])
    ensures Retired(Apply(s, e), id)
  {
    assert id in s.rows;
    assert RowInv(s, id);
    RowAfter(s, e, id);
    if MayRetry(s.rows[id]) {
      StepKeepsRetired(s, e, id);
    } else {
      FailedForRetry(s, e, id);
    }
  }

  /** A row that becomes failed and retryable was written by its only owner, which lets go of it. */
  lemma FailedForRetry(s: State, e: Event, id: OpId)
    requires Inv(s) && Enabled(s, e) && e.Finish? && OwnerWrites(s, e, id) && MayComeAgain(s.jobs[e.w].outcome)
    ensures Retired(Apply(s, e), id)
  {
    assert JobInv(s, e.w);
    StepKeepsLeft(s, e, id);
    forall v | v in s.jobs && v != e.w && s.jobs[v].Owns() ensures s.jobs[v].id != id { assert NoShare(s, v, e.w); }
  }

  lemma LookupAfter(s: State, e: Event, r: nat)
    requires Enabled(s, e) && r in Apply(s, e).lookups
    ensures if r in s.lookups then Apply(s, e).lookups[r] == s.lookups[r]
            else e.ReadParent? && Apply(s, e) == s.(lookups := s.lookups[r := Read(e.previous, s.rows[e.previous])])
  {
  }

  lemma OldReadStays(s: State, e: Event, r: nat)
    requires Inv(s) && Enabled(s, e) && r in s.lookups && r in Apply(s, e).lookups
    requires Apply(s, e).lookups[r] == s.lookups[r]
    ensures ReadInv(Apply(s, e), r)
  {
    var previous := s.lookups[r].previous;
    assert ReadInv(s, r);
    StepKeepsRetired(s, e, previous);
    BornStays(s, e, previous);
    if previous in s.rows { RetiredRowStays(s, e, previous); }
  }

  lemma StepKeepsReadInv(s: State, e: Event, r: nat)
    requires Inv(s) && Enabled(s, e) && r in Apply(s, e).lookups
    ensures ReadInv(Apply(s, e), r)
  {
    LookupAfter(s, e, r);
    if r in s.lookups { OldReadStays(s, e, r); } else { assert RowInv(s, e.previous); }
  }

  lemma StepKeepsBirthInv(s: State, e: Event, id: OpId)
    requires Inv(s) && Enabled(s, e) && id in Apply(s, e).births
    ensures BirthInv(Apply(s, e), id)
  {
    if id in s.births {
      assert BirthInv(s, id);
      if s.births[id].parent.Some? { StepKeepsRetired(s, e, s.births[id].parent.value); }
    } else if e.Retry? {
      assert ReadInv(s, e.r) && BirthInv(s, s.lookups[e.r].previous);
      StepKeepsRetired(s, e, s.lookups[e.r].previous);
    }
  }

  lemma StepKeepsInv(s: State, e: Event)
    requires Inv(s) && Enabled(s, e)
    ensures Inv(Apply(s, e))
  {
    var t := Apply(s, e);
    forall id | id in t.births ensures BirthInv(t, id) { StepKeepsBirthInv(s, e, id); }
    forall id | id in t.rows ensures RowInv(t, id) { StepKeepsRowInv(s, e, id); }
    forall w | w in t.jobs ensures JobInv(t, w) {
      if w in s.jobs && t.jobs[w] == s.jobs[w] { StepKeepsOtherJob(s, e, w); } else { StepKeepsOwnJob(s, e, w); }
    }
    forall v, w | v in t.jobs && w in t.jobs && v != w ensures NoShare(t, v, w) { StepKeepsNoShare(s, e, v, w); }
    forall id | id in t.rows && MayRetry(t.rows[id]) ensures Retired(t, id) { StepKeepsRetryInv(s, e, id); }
    forall r | r in t.lookups ensures ReadInv(t, r) { StepKeepsReadInv(s, e, r); }
    StepKeepsRan(s, e);
  }
}
