/** The Manager object and its database, method by method, and how fast its dispatcher works off
    a backlog. */
module OperationManager {
  import opened Wrappers
  import opened Operations

  class Database {
    var rows: Rows

    constructor ()
      ensures rows == map[]
    {
      rows := map[];
    }
  }

  datatype RetryError = NotFound | Conflict

  datatype Principal = Principal(user: nat)

  /** What the environment answers during one call of execute. */
  datatype Answers = Answers(loaded: bool, active: bool, registered: bool, decrypted: bool,
                             reports: seq<int>, outcome: Outcome, cancelled: bool)

  predicate Ready(a: Answers) { a.loaded && a.active && a.registered && a.decrypted }

  /** The first check that fails. */
  function Refusal(a: Answers): SetupCause
    requires !Ready(a)
  {
    if !a.loaded then LoadFailed
    else if !a.active then UserNotActive
    else if !a.registered then ExecutorUnavailable
    else DecryptFailed
  }

  // ----- the backlog -----

  function QueuedPart(rows: Rows): Rows {
    map id | id in rows && rows[id].status == Queued :: rows[id]
  }

  function Min(a: int, b: int): int { if a < b then a else b }

  /** The answer to: SELECT id WHERE status = 'queued' ORDER BY created_at ASC LIMIT 256. */
  ghost predicate OldestQueued(rows: Rows, ids: seq<OpId>) {
    var queued := QueuedPart(rows);
    && Distinct(ids)
    && |ids| == Min(QUEUE_SIZE, |queued|)
    && (forall i | 0 <= i < |ids| :: ids[i] in queued)
    && (forall i, j | 0 <= i < j < |ids| :: queued[ids[i]].created <= queued[ids[j]].created)
    && (forall a, b | a in ids && b in queued && b !in ids :: queued[a].created <= queued[b].created)
  }

  predicate RunBy(row: Row, worker: ManagerId) { row.status == Running && row.worker == Some(worker) }

  /** A running row without a heartbeat in the last 30 seconds was failed for good: user, request and
      parent stay, it cannot be retried, and no worker holds it. */
  predicate Interrupted(was: Row, now: int, row: Row) {
    && was.status == Running && (was.heartbeat == None || was.heartbeat.value + 30_000 < now)
    && row.status == Failed && !row.retryable && row.progress == 100 && row.completed == Some(now)
    && row.worker == None && row.heartbeat == None && row.error == "OPERATION_INTERRUPTED"
    && row.task == was.task && row.parent == was.parent && row.created == was.created
  }

  predicate Claimable(rows: Rows, id: OpId) { id in rows && rows[id].status == Queued }

  /** The row was completed with this status; who asked for what, and for which operation, is untouched. */
  predicate EndedAs(was: Row, status: Status, now: int, row: Row) {
    && row.status == status && row.progress == 100 && row.completed == Some(now)
    && row.worker == None && row.heartbeat == None
    && row.task == was.task && row.parent == was.parent && row.created == was.created
  }

  /** y is the number between low and high that is nearest to x. */
  predicate NearestIn(low: int, high: int, x: int, y: int) {
    low <= y <= high && (y == x || (y == low && x < low) || (y == high && high < x))
  }

  function Room(queue: seq<OpId>): nat { if |queue| < QUEUE_SIZE then QUEUE_SIZE - |queue| else 0 }

  class Manager {
    const db: Database
    const workerId: ManagerId
    var queue: seq<OpId>
    var started: bool

    constructor (db: Database, workerId: ManagerId)
      ensures this.db == db && this.workerId == workerId && queue == [] && !started
    {
      this.db, this.workerId, queue, started := db, workerId, [], false;
    }

    method Start(now: int)
      modifies this`started, db
      ensures started && db.rows == if old(started) then old(db.rows) else ReapAll(old(db.rows), now)
    {
      if started { return; }
      started := true;
      RecoverStale(now);
    }

    /** Afterwards every running row has had a heartbeat within the lease; nothing else has changed. */
    method RecoverStale(now: int)
      modifies db
      ensures db.rows.Keys == old(db.rows).Keys
      ensures forall id | id in db.rows && db.rows[id].status == Running ::
        db.rows[id].heartbeat.Some? && now - 30_000 <= db.rows[id].heartbeat.value
      ensures forall id | id in db.rows && db.rows[id] != old(db.rows)[id] ::
        Interrupted(old(db.rows)[id], now, db.rows[id])
      ensures db.rows == ReapAll(old(db.rows), now)
    {
      db.rows := map id | id in db.rows :: ReapRow(db.rows[id], now);
    }

    /** What is gone was completed more than 30 days ago; the rest is as it was. */
    method CleanupCompleted(now: int)
      modifies db
      ensures forall id | id in old(db.rows) ::
        id !in db.rows <==>
        old(db.rows)[id].completed.Some? && old(db.rows)[id].completed.value + 30 * 24 * 60 * 60 * 1000 < now
      ensures forall id | id in db.rows :: id in old(db.rows) && db.rows[id] == old(db.rows)[id]
      ensures db.rows == CleanAll(old(db.rows), now)
    {
      db.rows := map id | id in db.rows && !IsExpired(db.rows[id], now) :: db.rows[id];
    }

    /** A non-blocking send: dropped when the queue is full or the manager is not started. */
    method Enqueue(id: OpId)
      modifies this`queue
      ensures queue == if old(started) && |old(queue)| < QUEUE_SIZE then old(queue) + [id] else old(queue)
    {
      if !started { return; }
      if |queue| < QUEUE_SIZE { queue := queue + [id]; }
    }

    method Submit(id: OpId, task: Task, now: int)
      requires id !in db.rows
      modifies db, this`queue
      ensures db.rows == old(db.rows)[id := NewRow(task, None, now)]
      ensures db.rows[id] == Row(task, None, now, Queued, 0, None, None, false, "", None)
      ensures queue == if started && |old(queue)| < QUEUE_SIZE then old(queue) + [id] else old(queue)
    {
      db.rows := db.rows[id := NewRow(task, None, now)];
      Enqueue(id);
    }

    method Retry(id: OpId, principal: Principal, includeAll: bool, newId: OpId, now: int)
      returns (r: Result<OpId, RetryError>)
      requires newId !in db.rows
      modifies db, this`queue
      ensures r == Err(NotFound) <==>
        id !in old(db.rows) || (!includeAll && old(db.rows)[id].task.user != principal.user)
      ensures r.Err? ==> db.rows == old(db.rows) && queue == old(queue)
      ensures r.Ok? ==> id in old(db.rows) && old(db.rows)[id].status == Failed && old(db.rows)[id].retryable
      ensures r.Ok? ==>
        r.value == newId && db.rows == old(db.rows)[newId := NewRow(old(db.rows)[id].task, Some(id), now)]
      ensures r.Ok? ==>
        db.rows[newId] == Row(old(db.rows)[id].task, Some(id), now, Queued, 0, None, None, false, "", None)
      ensures r.Ok? ==> queue == if started && |old(queue)| < QUEUE_SIZE then old(queue) + [newId] else old(queue)
      ensures r == Err(Conflict) ==>
        id in old(db.rows) && !(old(db.rows)[id].status == Failed && old(db.rows)[id].retryable)
    {
      if id !in db.rows { return Err(NotFound); }
      var previous := db.rows[id];
      if !includeAll && previous.task.user != principal.user { return Err(NotFound); }
      if previous.status != Failed || !previous.retryable { return Err(Conflict); }
      var retry := previous;
      retry := retry.(parent := Some(id), created := now);
      retry := retry.(completed := None, status := Queued, progress := 0);
      retry := retry.(error := "", retryable := false, worker := None, heartbeat := None);
      db.rows := db.rows[newId := retry];
      Enqueue(newId);
      r := Ok(newId);
    }

    /** The guarded update that starts execute. */
    method Claim(id: OpId, now: int) returns (affected: bool)
      modifies db
      ensures affected <==> id in old(db.rows) && old(db.rows)[id].status == Queued
      ensures affected ==>
        id in db.rows && RunBy(db.rows[id], workerId) && db.rows[id].progress == 5 && db.rows[id].heartbeat == Some(now)
      ensures db.rows == ClaimIn(old(db.rows), id, workerId, now)
    {
      affected := id in db.rows && db.rows[id].status == Queued;
      if affected { db.rows := db.rows[id := ClaimRow(db.rows[id], workerId, now)]; }
    }

    method Complete(id: OpId, outcome: Outcome, now: int)
      modifies db
      ensures db.rows == CompleteIn(old(db.rows), id, outcome, now)
    {
      if id in db.rows { db.rows := db.rows[id := CompleteRow(db.rows[id], outcome, now)]; }
    }

    /** Renews the lease of an operation this very worker is running, for 30 seconds; in all other cases,
        and for all other rows and fields, nothing changes. */
    method Heartbeat(id: OpId, now: int)
      modifies db
      ensures db.rows.Keys == old(db.rows).Keys && forall x | x in db.rows && x != id :: db.rows[x] == old(db.rows)[x]
      ensures id in db.rows ==> db.rows[id].(heartbeat := old(db.rows)[id].heartbeat) == old(db.rows)[id]
      ensures id in db.rows && RunBy(old(db.rows)[id], workerId) ==>
        forall t :: IsStale(db.rows[id], t) <==> now + 30_000 < t
      ensures id in db.rows && !RunBy(old(db.rows)[id], workerId) ==> db.rows[id] == old(db.rows)[id]
      ensures db.rows == BeatIn(old(db.rows), id, workerId, now)
    {
      if id in db.rows && db.rows[id].status == Running && db.rows[id].worker == Some(workerId) {
        db.rows := db.rows[id := db.rows[id].(heartbeat := Some(now))];
      }
    }

    /** One undisturbed execution: the executor is invoked exactly when the claim succeeded and every
        check passed, and the row then ends as its answer, or the refusal, says. */
    method Execute(id: OpId, now: int, later: int, a: Answers) returns (invoked: bool)
      modifies db
      ensures invoked <==> Claimable(old(db.rows), id) && a.loaded && a.active && a.registered && a.decrypted
      ensures db.rows.Keys == old(db.rows).Keys
      ensures forall x | x in db.rows && (x != id || !Claimable(old(db.rows), id)) :: db.rows[x] == old(db.rows)[x]
      ensures Claimable(old(db.rows), id) && !invoked ==>
        && EndedAs(old(db.rows)[id], Failed, later, db.rows[id])
        && (db.rows[id].retryable <==> !a.loaded || (a.active && !a.registered))
        && db.rows[id].error == (if !a.loaded then "OPERATION_LOAD_FAILED" else if !a.active then "USER_NOT_ACTIVE"
                                 else if !a.registered then "EXECUTOR_UNAVAILABLE" else "PAYLOAD_DECRYPT_FAILED")
      ensures invoked && !a.cancelled && a.outcome.Success? ==> EndedAs(old(db.rows)[id], Succeeded, later, db.rows[id])
      ensures invoked && !a.cancelled && a.outcome.Failure? ==>
        && EndedAs(old(db.rows)[id], Failed, later, db.rows[id])
        && db.rows[id].retryable == a.outcome.retryable && db.rows[id].error == a.outcome.code
      ensures invoked && a.cancelled ==>
        && db.rows[id].status == Running && db.rows[id].worker == Some(workerId) && db.rows[id].heartbeat == Some(now)
        && (a.reports == [] ==> db.rows[id].progress == 5)
        && (a.reports != [] ==> NearestIn(5, 95, a.reports[|a.reports| - 1], db.rows[id].progress))
    {
      invoked := false;
      var claimed := Claim(id, now);
      if !claimed { return; }
      if !a.loaded { Complete(id, SetupOutcome(LoadFailed), later); return; }
      if !a.active { Complete(id, SetupOutcome(UserNotActive), later); return; }
      if !a.registered { Complete(id, SetupOutcome(ExecutorUnavailable), later); return; }
      if !a.decrypted { Complete(id, SetupOutcome(DecryptFailed), later); return; }
      invoked := true;
      ghost var claimedRows := db.rows;
      for i := 0 to |a.reports|
        invariant db.rows.Keys == claimedRows.Keys
        invariant db.rows == claimedRows[id := claimedRows[id].(progress := db.rows[id].progress)]
        invariant i == 0 ==> db.rows[id].progress == 5
        invariant i > 0 ==> NearestIn(5, 95, a.reports[i - 1], db.rows[id].progress)
      {
        db.rows := ReportIn(db.rows, id, a.reports[i]);
      }
      if a.cancelled { return; }
      Complete(id, a.outcome, later);
    }

    /** One dispatch: `ids` is the query's answer; what does not fit in the queue is dropped. */
    method LoadQueued(ids: seq<OpId>)
      requires OldestQueued(db.rows, ids)
      modifies this`queue
      ensures started ==> queue == old(queue) + ids[..Min(|ids|, Room(old(queue)))]
      ensures started ==> |queue| == |old(queue)| + |ids| || |queue| >= 256
      ensures |queue| <= 256 || queue == old(queue)
      ensures !started ==> queue == old(queue)
    {
      ghost var room := Room(queue);
      for i := 0 to |ids|
        invariant started ==> queue == old(queue) + ids[..Min(i, room)]
        invariant !started ==> queue == old(queue)
      {
        Enqueue(ids[i]);
      }
    }

    /** A worker that empties the queue claims every queued operation in it, once. */
    method Drain(now: int)
      modifies db, this`queue
      ensures queue == [] && Claimed(old(db.rows), old(queue), workerId, now, db.rows)
    {
      ghost var before := db.rows;
      ghost var taken: seq<OpId> := [];
      while queue != []
        invariant old(queue) == taken + queue && Claimed(before, taken, workerId, now, db.rows)
        decreases |queue|
      {
        var id := queue[0];
        queue := queue[1..];
        ghost var rows := db.rows;
        var affected := Claim(id, now);
        ClaimedNext(before, taken, workerId, now, rows, id);
        taken := taken + [id];
      }
      assert old(queue) == taken;
    }

    /** One round of the dispatcher with workers that empty the queue before the next tick. */
    method Round(ids: seq<OpId>, now: int)
      requires started && queue == [] && OldestQueued(db.rows, ids)
      modifies db, this`queue
      ensures queue == [] && OneRound(old(db.rows), ids, db.rows)
    {
      ghost var before := db.rows;
      LoadQueued(ids);
      assert queue == ids;
      Drain(now);
      ClaimedLeavesRest(before, ids, workerId, now, db.rows);
    }
  }

  /** Exactly the queued rows among `ids` have been claimed. */
  ghost predicate Claimed(before: Rows, ids: seq<OpId>, worker: ManagerId, now: int, after: Rows) {
    after.Keys == before.Keys
    && forall id | id in before :: ClaimedRow(before[id], id in ids, worker, now, after, id)
  }

  predicate ClaimedRow(row: Row, picked: bool, worker: ManagerId, now: int, after: Rows, id: OpId) {
    id in after && after[id] == if picked && row.status == Queued then ClaimRow(row, worker, now) else row
  }

  lemma ClaimedNext(before: Rows, ids: seq<OpId>, worker: ManagerId, now: int, after: Rows, id: OpId)
    requires Claimed(before, ids, worker, now, after)
    ensures Claimed(before, ids + [id], worker, now, ClaimIn(after, id, worker, now))
  {
    forall x | x in before
      ensures ClaimedRow(before[x], x in ids + [id], worker, now, ClaimIn(after, id, worker, now), x) {
      assert ClaimedRow(before[x], x in ids, worker, now, after, x);
    }
  }

  lemma ClaimedLeavesRest(before: Rows, ids: seq<OpId>, worker: ManagerId, now: int, after: Rows)
    requires Claimed(before, ids, worker, now, after)
    ensures QueuedPart(after) == QueuedPart(before) - (set id | id in ids)
  {
    forall x | x in before ensures x in QueuedPart(after) <==> x in QueuedPart(before) && x !in ids {
      assert ClaimedRow(before[x], x in ids, worker, now, after, x);
    }
    forall x | x in QueuedPart(after) ensures after[x] == before[x] {
      assert ClaimedRow(before[x], x in ids, worker, now, after, x);
    }
  }

  /** The rows between two dispatches: the ids answered have been claimed, nothing was submitted;
      rows that are not queued may change in any way. */
  ghost predicate OneRound(before: Rows, ids: seq<OpId>, after: Rows) {
    OldestQueued(before, ids) && QueuedPart(after) == QueuedPart(before) - (set id | id in ids)
  }

  ghost predicate Rounds(table: seq<Rows>, picks: seq<seq<OpId>>) {
    |table| == |picks| + 1 && forall i | 0 <= i < |picks| :: OneRound(table[i], picks[i], table[i + 1])
  }

  lemma {:induction false} DistinctSize(ids: seq<OpId>)
    requires Distinct(ids)
    ensures |set id | id in ids| == |ids|
  {
    if ids != [] {
      var front, last := ids[..|ids| - 1], ids[|ids| - 1];
      DistinctSize(front);
      assert (set id | id in ids) == (set id | id in front) + {last};
    }
  }

  lemma RoundShrinks(before: Rows, ids: seq<OpId>, after: Rows)
    requires OneRound(before, ids, after)
    ensures |QueuedPart(after)| == Max0(|QueuedPart(before)| - QUEUE_SIZE)
  {
    var picked := set id | id in ids;
    DistinctSize(ids);
    assert picked <= QueuedPart(before).Keys;
    assert QueuedPart(after).Keys == QueuedPart(before).Keys - picked;
    assert |QueuedPart(after).Keys| == |QueuedPart(before).Keys| - |picked|;
  }

  function Max0(x: int): nat { if x < 0 then 0 else x }

  /** A backlog of n rows shrinks by 256 in each round, so it is gone after exactly ceil(n / 256). */
  lemma {:induction false} BacklogDrains(table: seq<Rows>, picks: seq<seq<OpId>>, k: nat)
    requires Rounds(table, picks) && k < |table|
    ensures |QueuedPart(table[k])| == Max0(|QueuedPart(table[0])| - 256 * k)
    ensures QueuedPart(table[k]) == map[] <==> (|QueuedPart(table[0])| + 255) / 256 <= k
  {
    if k > 0 {
      BacklogDrains(table, picks, k - 1);
      assert OneRound(table[k - 1], picks[k - 1], table[k]);
      RoundShrinks(table[k - 1], picks[k - 1], table[k]);
    }
    assert QueuedPart(table[k]) == map[] <==> |QueuedPart(table[k])| == 0;
  }

  lemma {:induction false} StillQueued(table: seq<Rows>, picks: seq<seq<OpId>>, i: nat, j: nat, id: OpId)
    requires Rounds(table, picks) && i <= j < |table| && id in QueuedPart(table[j])
    ensures id in QueuedPart(table[i]) && table[i][id] == table[j][id]
    ensures forall k | i <= k < j :: id !in picks[k]
  {
    if i < j {
      assert OneRound(table[j - 1], picks[j - 1], table[j]);
      assert QueuedPart(table[j])[id] == QueuedPart(table[j - 1])[id];
      StillQueued(table, picks, i, j - 1, id);
    }
  }

  /** Oldest first: nothing claimed in a later round is older than anything claimed in an earlier one. */
  lemma OldestFirst(table: seq<Rows>, picks: seq<seq<OpId>>, i: nat, j: nat, a: OpId, b: OpId)
    requires Rounds(table, picks) && i < j < |picks| && a in picks[i] && b in picks[j]
    ensures a in table[i] && b in table[j] && table[i][a].created <= table[j][b].created && a != b
  {
    assert OneRound(table[i], picks[i], table[i + 1]) && OneRound(table[j], picks[j], table[j + 1]);
    assert b in QueuedPart(table[j]);
    StillQueued(table, picks, i, j, b);
    assert b !in picks[i];
  }
}
