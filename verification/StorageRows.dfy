/** The object-storage control plane's rows, and the transactions that the maintenance workers and the
    API run on them. Each transaction is one atomic function on both tables. */
module StorageRows {
  import opened Options
  import opened Retries

  type ObjectId = nat
  type OpId = nat
  type WorkerId = nat

  /** `stored_objects.status`; `Uploading` is the source's `pending`. */
  datatype Life = Uploading | Ready | Failed | Deleting | Deleted

  datatype Object = Object(status: Life, revision: nat, expiresAt: int)

  datatype Kind = Reconcile | DeleteUpload | Delete
  datatype OpStatus = Pending | Claimed(worker: WorkerId, at: int) | Completed | GivenUp | Cancelled

  datatype Op = Op(
    target: ObjectId,
    kind: Kind,
    revision: nat,
    status: OpStatus,
    attempts: nat,
    availableAt: int,
    completedAt: Option<int>)

  datatype Tables = Tables(objects: map<ObjectId, Object>, ops: map<OpId, Op>)

  /** What `claim_operation` returns: the worker's own copy of the claimed row. */
  datatype Task = Task(id: OpId, target: ObjectId, kind: Kind, revision: nat, attempts: nat, worker: WorkerId)

  predicate Open(s: OpStatus) { s.Pending? || s.Claimed? }

  predicate Holds(t: Tables, task: Task) {
    task.id in t.ops && t.ops[task.id].status.Claimed? && t.ops[task.id].status.worker == task.worker
  }

  function PutOp(t: Tables, id: OpId, op: Op): Tables { t.(ops := t.ops[id := op]) }

  function PutObject(t: Tables, o: ObjectId, row: Object): Tables { t.(objects := t.objects[o := row]) }

  // ------------------------------------------------------------------ the queue

  function ClaimOp(t: Tables, id: OpId, w: WorkerId, now: int): Tables
    requires id in t.ops
  {
    PutOp(t, id, t.ops[id].(status := Claimed(w, now), attempts := t.ops[id].attempts + 1))
  }

  function TaskOf(t: Tables, id: OpId, w: WorkerId): Task
    requires id in t.ops
  {
    Task(id, t.ops[id].target, t.ops[id].kind, t.ops[id].revision, t.ops[id].attempts, w)
  }

  function Recover(t: Tables, claimedBefore: int, now: int): Tables {
    t.(ops := map id | id in t.ops ::
         if t.ops[id].status.Claimed? && t.ops[id].status.at < claimedBefore
         then t.ops[id].(status := Pending, availableAt := now)
         else t.ops[id])
  }

  function FinishOp(t: Tables, task: Task, status: OpStatus, now: int): Tables
    requires Holds(t, task)
  {
    PutOp(t, task.id, t.ops[task.id].(status := status, completedAt := Some(now)))
  }

  /** Back to `pending` without counting the attempt. */
  function Postpone(t: Tables, task: Task, at: int): Tables
    requires Holds(t, task)
  {
    var op := t.ops[task.id];
    PutOp(t, task.id,
        op.(status := Pending, availableAt := at, attempts := if op.attempts > 0 then op.attempts - 1 else 0))
  }

  function ScheduleRetry(t: Tables, task: Task, maxAttempts: nat, now: int): Tables {
    if !Holds(t, task) then t
    else if task.attempts >= maxAttempts then FinishOp(t, task, GivenUp, now)
    else PutOp(t, task.id, t.ops[task.id].(status := Pending, availableAt := now + RetryBackoff(task.attempts)))
  }

  predicate IsOpen(t: Tables, id: OpId, o: ObjectId, kind: Kind) {
    id in t.ops && t.ops[id].target == o && t.ops[id].kind == kind && Open(t.ops[id].status)
  }

  ghost predicate HasOpen(t: Tables, o: ObjectId, kind: Kind) { exists id :: IsOpen(t, id, o, kind) }

  /** `INSERT .. ON CONFLICT DO NOTHING`, and the API's `enqueue_operation`: one open row per kind. */
  ghost function Enqueue(t: Tables, o: ObjectId, kind: Kind, revision: nat, at: int, id: OpId): Tables {
    if HasOpen(t, o, kind) then t else PutOp(t, id, Op(o, kind, revision, Pending, 0, at, None))
  }

  // ------------------------------------------------------------------ staging clean-up

  const CLOCK_GRACE := 5

  /** `terminal_staging_cleanup_at`. */
  function TerminalCleanupAt(expiresAt: int, maxUpload: nat): int { expiresAt + maxUpload + CLOCK_GRACE }

  predicate StagingDone(t: Tables, id: OpId, o: ObjectId) {
    id in t.ops && t.ops[id].target == o && t.ops[id].kind.DeleteUpload? && t.ops[id].status.Completed?
  }

  ghost predicate AnyStagingDone(t: Tables, o: ObjectId) { exists id :: StagingDone(t, id, o) }

  /** `complete_operation`, then the deferred final deletes of the same revision become due. */
  function FinishStaging(t: Tables, task: Task, now: int): Tables
    requires Holds(t, task)
  {
    var t1 := FinishOp(t, task, Completed, now);
    t1.(ops := map id | id in t1.ops ::
          var op := t1.ops[id];
          if op.target == task.target && op.kind.Delete? && op.revision == task.revision && op.status.Pending?
          then op.(availableAt := if op.availableAt <= now then op.availableAt else now)
          else op)
  }

  /** A staging clean-up of this revision that has not completed. */
  predicate StagingUndone(t: Tables, id: OpId, task: Task) {
    id in t.ops && t.ops[id].target == task.target && t.ops[id].kind.DeleteUpload?
    && t.ops[id].revision == task.revision && (Open(t.ops[id].status) || t.ops[id].status.GivenUp?)
  }

  /** When such a clean-up may have come further. */
  function UndoneUntil(op: Op, now: int, retryAfter: nat, staleAfter: nat): int {
    var at := match op.status
      case Pending => op.availableAt
      case Claimed(_, at) => at + staleAfter
      case _ => op.completedAt.GetOr(now) + retryAfter;
    if at > now then at else now + 1
  }

  /** `defer_final_delete_for_staging_cleanup` defers to `at`: the earliest of those times. */
  ghost predicate DefersTo(t: Tables, task: Task, now: int, retryAfter: nat, staleAfter: nat, at: int) {
    && !AnyStagingDone(t, task.target)
    && (exists id :: StagingUndone(t, id, task) && at == UndoneUntil(t.ops[id], now, retryAfter, staleAfter))
    && (forall id | StagingUndone(t, id, task) :: at <= UndoneUntil(t.ops[id], now, retryAfter, staleAfter))
  }

  /** ... and does not defer. */
  ghost predicate GatePasses(t: Tables, task: Task) {
    AnyStagingDone(t, task.target) || forall id :: !StagingUndone(t, id, task)
  }

  // ------------------------------------------------------------------ lifecycle transactions

  function FinishDelete(t: Tables, task: Task, now: int): Tables
    requires Holds(t, task) && task.target in t.objects
  {
    var row := t.objects[task.target];
    var t1 := if row.status.Deleting?
              then PutObject(t, task.target, row.(status := Deleted, revision := row.revision + 1)) else t;
    FinishOp(t1, task, Completed, now)
  }

  /** `reconcile_upload` of an expired upload. */
  ghost function ExpireUpload(t: Tables, task: Task, id: OpId, id': OpId, now: int): Tables
    requires Holds(t, task) && task.target in t.objects && id !in t.ops && id' !in t.ops
  {
    var row := t.objects[task.target];
    var t1 := PutObject(t, task.target, row.(status := Failed, revision := row.revision + 1));
    var t2 := Enqueue(t1, task.target, DeleteUpload, row.revision + 1, row.expiresAt + CLOCK_GRACE, id);
    var t3 := Enqueue(t2, task.target, Delete, row.revision + 1, now, id');
    FinishOp(t3, task, Completed, now)
  }

  function CancelOpen(t: Tables, o: ObjectId, kinds: set<Kind>, now: int): Tables {
    t.(ops := map id | id in t.ops ::
         if t.ops[id].target == o && t.ops[id].kind in kinds && Open(t.ops[id].status)
         then t.ops[id].(status := Cancelled, completedAt := Some(now))
         else t.ops[id])
  }

  const ALL_KINDS: set<Kind> := {Reconcile, DeleteUpload, Delete}

  /** The API's `create_upload`. */
  function CreateUpload(t: Tables, o: ObjectId, expiresAt: int, id: OpId): Tables {
    PutOp(PutObject(t, o, Object(Uploading, 1, expiresAt)), id, Op(o, Reconcile, 1, Pending, 0, expiresAt, None))
  }

  /** The commit of `complete_upload`. */
  ghost function PromoteUpload(t: Tables, o: ObjectId, id: OpId, now: int): Tables
    requires o in t.objects
  {
    var row := t.objects[o];
    var t1 := PutObject(t, o, row.(status := Ready, revision := row.revision + 1));
    Enqueue(CancelOpen(t1, o, {Reconcile}, now), o, DeleteUpload, row.revision + 1, row.expiresAt + CLOCK_GRACE, id)
  }

  /** `fail_upload` (to `Failed`), and `mark_object_deleting_in_transaction`, the parent-deletion trigger
      and the change of the competition mode (to `Deleting`). */
  ghost function Retire(t: Tables, o: ObjectId, status: Life, id: OpId, id': OpId, now: int): Tables
    requires o in t.objects
  {
    var row := t.objects[o];
    var t1 := CancelOpen(PutObject(t, o, row.(status := status, revision := row.revision + 1)), o, ALL_KINDS, now);
    var t2 := Enqueue(t1, o, DeleteUpload, row.revision + 1, row.expiresAt + CLOCK_GRACE, id);
    Enqueue(t2, o, Delete, row.revision + 1, now, id')
  }

  // ------------------------------------------------------------------ safety enqueueing

  /** `enqueue_expired_upload_reconciliation` and `enqueue_missing_deletes`, the rows they want. */
  predicate WantsCleanup(row: Object, kind: Kind, now: int) {
    match kind
    case Reconcile => row.status.Uploading? && row.expiresAt <= now
    case DeleteUpload => !row.status.Uploading?
    case Delete => row.status.Failed? || row.status.Deleting?
  }

  function CleanupDueAt(row: Object, kind: Kind, now: int): int {
    if kind.DeleteUpload? && row.expiresAt + CLOCK_GRACE > now then row.expiresAt + CLOCK_GRACE else now
  }

  /** Already done: at any revision for staging, at this revision otherwise; a reconciliation never is. */
  predicate DoneAlready(t: Tables, id: OpId, o: ObjectId, kind: Kind, revision: nat) {
    id in t.ops && t.ops[id].target == o && t.ops[id].kind == kind && !kind.Reconcile? && t.ops[id].status.Completed?
    && (kind.DeleteUpload? || t.ops[id].revision == revision)
  }

  predicate GivenUpRecently(t: Tables, id: OpId, o: ObjectId, kind: Kind, revision: nat, retryAfter: nat, now: int) {
    id in t.ops && t.ops[id].target == o && t.ops[id].kind == kind && t.ops[id].status.GivenUp?
    && t.ops[id].revision == revision && t.ops[id].completedAt.Some? && t.ops[id].completedAt.value > now - retryAfter
  }

  ghost predicate Missing(t: Tables, o: ObjectId, kind: Kind, retryAfter: nat, now: int) {
    && o in t.objects && WantsCleanup(t.objects[o], kind, now)
    && !HasOpen(t, o, kind)
    && (forall id :: !DoneAlready(t, id, o, kind, t.objects[o].revision))
    && (forall id :: !GivenUpRecently(t, id, o, kind, t.objects[o].revision, retryAfter, now))
  }
}
