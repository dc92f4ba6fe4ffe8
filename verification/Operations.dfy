/** The rows of the operations table and the writes that internal/operation/manager.go
    makes to them, each as a function on one row, and the Manager that issues them. */
module Wrappers {
  datatype Option<+T> = None | Some(value: T)
  datatype Result<+T, +E> = Ok(value: T) | Err(error: E)
}

module Operations {
  import opened Wrappers

  type OpId = string
  type ManagerId = string

  // Times are in milliseconds.
  const QUEUE_SIZE := 256
  const HEARTBEAT_INTERVAL := 5_000
  const STALE_WORKER_AFTER := 30_000
  const HISTORY_RETENTION := 30 * 24 * 3_600_000

  datatype Status = Queued | Running | Succeeded | Failed

  /** The operation's input, decoded and decrypted: an approved AI change, a confirmed package change, or any
      other JSON text. Empty fields are left out of the text, an empty set of values too. */
  datatype Payload =
    | Json(text: string)
    | Approved(callId: string, tool: string, arguments: string, cluster: string, clientIp: string,
               correlationId: string)
    | Change(cluster: string, namespace: string, name: string, chart: string, repoUrl: string, version: string,
             repositoryId: nat, uploadId: string, values: Option<string>, createNamespace: bool, wait: bool,
             atomic: bool, timeoutSeconds: int, expectedDigest: string)

  /** What the user asked for; copied unchanged from a failed operation to its retry. */
  datatype Task = Task(user: nat, kind: string, action: string, target: string, payload: Payload)

  datatype Row = Row(
    task: Task,
    parent: Option<OpId>,
    created: int,
    status: Status,
    progress: int,
    worker: Option<ManagerId>,
    heartbeat: Option<int>,
    retryable: bool,
    error: string,
    completed: Option<int>)

  type Rows = map<OpId, Row>

  /** How one execution ends: the final write is chosen from this. */
  datatype Outcome = Success | Failure(code: string, retryable: bool)

  /** Why execute gives up before it calls the executor. */
  datatype SetupCause = LoadFailed | UserNotActive | ExecutorUnavailable | DecryptFailed

  function SetupOutcome(cause: SetupCause): Outcome {
    match cause
    case LoadFailed => Failure("OPERATION_LOAD_FAILED", true)
    case UserNotActive => Failure("USER_NOT_ACTIVE", false)
    case ExecutorUnavailable => Failure("EXECUTOR_UNAVAILABLE", true)
    case DecryptFailed => Failure("PAYLOAD_DECRYPT_FAILED", false)
  }

  function NewRow(task: Task, parent: Option<OpId>, now: int): Row {
    Row(task, parent, now, Queued, 0, None, None, false, "", None)
  }

  function ClaimRow(row: Row, manager: ManagerId, now: int): Row {
    row.(status := Running, progress := 5, worker := Some(manager), heartbeat := Some(now))
  }

  function CompleteRow(row: Row, outcome: Outcome, now: int): Row {
    var done := row.(progress := 100, completed := Some(now), worker := None, heartbeat := None);
    match outcome
    case Success => done.(status := Succeeded)
    case Failure(code, retryable) => done.(status := Failed, retryable := retryable, error := code)
  }

  predicate IsStale(row: Row, now: int) {
    row.status == Running && (row.heartbeat.None? || row.heartbeat.value < now - STALE_WORKER_AFTER)
  }

  function ReapRow(row: Row, now: int): Row {
    if IsStale(row, now) then CompleteRow(row, Failure("OPERATION_INTERRUPTED", false), now) else row
  }

  function ReapAll(rows: Rows, now: int): Rows {
    map id | id in rows :: ReapRow(rows[id], now)
  }

  predicate IsExpired(row: Row, now: int) {
    row.completed.Some? && row.completed.value < now - HISTORY_RETENTION
  }

  function CleanAll(rows: Rows, now: int): Rows {
    map id | id in rows && !IsExpired(rows[id], now) :: rows[id]
  }

  function ClampProgress(progress: int): int {
    if progress < 5 then 5 else if progress > 95 then 95 else progress
  }

  function ClaimIn(rows: Rows, id: OpId, manager: ManagerId, now: int): Rows {
    if id in rows && rows[id].status == Queued then rows[id := ClaimRow(rows[id], manager, now)] else rows
  }

  function ReportIn(rows: Rows, id: OpId, progress: int): Rows {
    if id in rows then rows[id := rows[id].(progress := ClampProgress(progress))] else rows
  }

  function BeatIn(rows: Rows, id: OpId, manager: ManagerId, now: int): Rows {
    if id in rows && rows[id].status == Running && rows[id].worker == Some(manager)
    then rows[id := rows[id].(heartbeat := Some(now))] else rows
  }

  function CompleteIn(rows: Rows, id: OpId, outcome: Outcome, now: int): Rows {
    if id in rows then rows[id := CompleteRow(rows[id], outcome, now)] else rows
  }

  ghost predicate Distinct(ids: seq<OpId>) {
    forall i, j | 0 <= i < j < |ids| :: ids[i] != ids[j]
  }
}
