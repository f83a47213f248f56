/**
 The `jobs` table and the SQL statements that write it.

 One statement is one function from table to table. A statement guarded by
 `WHERE id = ? AND status = ?` changes a row only when its guard predicate holds,
 and `rows_affected() == 1` is that predicate.
 */
module JobTable {
  import opened Common

  datatype Status = Queued | Running | Done | Failed | Cancelled

  predicate IsTerminal(s: Status) { s.Done? || s.Failed? || s.Cancelled? }

  /** What a submit fixes for good: no statement ever rewrites these columns. */
  datatype JobSpec = JobSpec(inputId: int, sourcePromptId: Option<int>, promptText: string,
                             workflow: string, timeoutSeconds: int, seed: int)

  datatype Row = Row(
    spec: JobSpec,
    createdAt: int,
    status: Status,
    startedAt: Option<int>,
    completedAt: Option<int>,
    deletedAt: Option<int>,
    comfyPromptId: Option<string>,
    outputPath: Option<string>,
    thumbPath: Option<string>,
    previewPath: Option<string>,
    errorMessage: Option<string>,
    width: Option<int>,
    height: Option<int>,
    progress: real)

  type Table = map<string, Row>

  predicate HasStatus(t: Table, id: string, s: Status) { id in t && t[id].status == s }

  /** The rows the worker may pick up and `queue_position` counts. */
  predicate LiveQueued(r: Row) { r.status.Queued? && r.deletedAt.None? }

  /** The pair every ordered query over the table sorts by. */
  datatype Key = Key(createdAt: int, id: string)

  function KeyOf(t: Table, id: string): Key
    requires id in t
  {
    Key(t[id].createdAt, id)
  }

  predicate Precedes(a: Key, b: Key) {
    a.createdAt < b.createdAt || (a.createdAt == b.createdAt && StrLess(a.id, b.id))
  }

  /** `… WHERE status = 'queued' AND deleted_at IS NULL ORDER BY created_at ASC, id ASC LIMIT 1`. */
  predicate IsOldestQueued(t: Table, id: string) {
    Claimable(t, id) && forall other :: other in t && LiveQueued(t[other]) ==> !Precedes(KeyOf(t, other), KeyOf(t, id))
  }

  // ---- statements of the submit, cancel, delete and restore handlers ----

  function QueuedRow(spec: JobSpec, now: int): Row {
    Row(spec, now, Queued, None, None, None, None, None, None, None, None, None, None, 0.0)
  }

  function Insert(t: Table, id: string, spec: JobSpec, now: int): Table {
    t[id := QueuedRow(spec, now)]
  }

  /** `UPDATE … SET status = 'cancelled' … AND status = from`. */
  function CancelFrom(t: Table, id: string, from: Status, now: int): Table {
    if HasStatus(t, id, from) then t[id := t[id].(status := Cancelled, completedAt := Some(now))] else t
  }

  predicate Deletable(t: Table, id: string) { id in t && t[id].deletedAt.None? }

  function SoftDelete(t: Table, id: string, now: int): Table {
    if Deletable(t, id) then t[id := t[id].(deletedAt := Some(now))] else t
  }

  predicate Restorable(t: Table, id: string) { id in t && t[id].deletedAt.Some? }

  function Restore(t: Table, id: string): Table {
    if Restorable(t, id) then t[id := t[id].(deletedAt := None)] else t
  }

  // ---- statements of the worker ----

  function ResetRow(r: Row): Row {
    if r.status.Running?
    then r.(status := Queued, startedAt := None, comfyPromptId := None, errorMessage := None, progress := 0.0)
    else r
  }

  function ResetRunning(t: Table): Table { map id | id in t :: ResetRow(t[id]) }

  predicate Claimable(t: Table, id: string) { id in t && LiveQueued(t[id]) }

  function MarkRunning(t: Table, id: string, now: int): Table {
    if Claimable(t, id)
    then t[id := t[id].(status := Running, startedAt := Some(now), progress := 0.0)]
    else t
  }

  /** Not guarded by status: any row with this id is written. */
  function StorePromptId(t: Table, id: string, promptId: string): Table {
    if id in t then t[id := t[id].(comfyPromptId := Some(promptId))] else t
  }

  function WriteProgress(t: Table, id: string, p: real): Table {
    if HasStatus(t, id, Running) then t[id := t[id].(progress := p)] else t
  }

  function MarkDone(t: Table, id: string, output: string, width: Option<int>, height: Option<int>, now: int): Table {
    if HasStatus(t, id, Running)
    then t[id := t[id].(status := Done, outputPath := Some(output), completedAt := Some(now),
                        width := width, height := height, progress := 1.0)]
    else t
  }

  function MarkFailed(t: Table, id: string, message: string, now: int): Table {
    if HasStatus(t, id, Running)
    then t[id := t[id].(status := Failed, errorMessage := Some(message), completedAt := Some(now))]
    else t
  }

  function Requeue(t: Table, id: string): Table {
    if HasStatus(t, id, Running)
    then t[id := t[id].(status := Queued, startedAt := None, comfyPromptId := None, progress := 0.0)]
    else t
  }

  // ---- statements of the rendering task and of purge ----

  datatype Tier = Thumb | Preview

  /** Not guarded by status. */
  function RecordRendition(t: Table, id: string, tier: Tier, path: string): Table {
    if id in t
    then t[id := if tier.Thumb? then t[id].(thumbPath := Some(path)) else t[id].(previewPath := Some(path))]
    else t
  }

  /** Not guarded by `deleted_at`. */
  function HardDelete(t: Table, id: string): Table { t - {id} }
}
