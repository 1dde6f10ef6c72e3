/** Object storage maintenance as a transition system: several workers, an API, clients with signed
    upload grants, and an S3 store whose deletions may take effect late and more than once. A worker keeps
    the object's row locked from its read to its commit or rollback, and decides from the copy it read. */
module StorageProtocol {
  import opened Options
  import opened StorageRows

  datatype Key = StagingKey | FinalKey
  type Sent = (ObjectId, Key)

  datatype Pc =
    | Taken                                             // claimed, row not read yet
    | Locked(row: Object)                               // row read and locked: the copy that all decisions use
    | Cleared(row: Object)                              // found fit for its DELETE
    | Deleting(row: Object, key: Key, landed: bool)     // DELETE sent; has one taken effect since?
    | Removed(row: Object, key: Key)                    // the DELETE was answered with success
    | Quiescent(row: Object)                            // and the last possible upload is over
    | Verified(row: Object)                             // and the staging body was seen absent
    | Erring                                            // rolled back, schedule_retry next

  datatype Activity = Idle | Busy(task: Task, pc: Pc)

  /** `maxUpload` is enforced on the body of every PUT; `skew` bounds how late after a grant's expiry the
      store may still accept its signature. */
  datatype Config = Config(maxUpload: nat, skew: nat, retryAfter: nat, staleAfter: nat)

  datatype World = World(
    t: Tables,
    now: int,
    staging: set<ObjectId>,
    final: set<ObjectId>,
    sent: set<Sent>,
    workers: map<WorkerId, Activity>)

  function Doing(w: World, k: WorkerId): Activity {
    if k in w.workers then w.workers[k] else Idle
  }

  function Do(w: World, k: WorkerId, a: Activity): World { w.(workers := w.workers[k := a]) }

  predicate HasRow(pc: Pc) { !pc.Taken? && !pc.Erring? }

  predicate HasLock(a: Activity, o: ObjectId) { a.Busy? && HasRow(a.pc) && a.task.target == o }

  ghost predicate Unlocked(w: World, o: ObjectId) { forall k :: !HasLock(Doing(w, k), o) }

  function KeyFor(kind: Kind): Key { if kind.DeleteUpload? then StagingKey else FinalKey }

  /** The statuses in which each operation sends its DELETE. */
  predicate Deletable(kind: Kind, status: Life) {
    match kind
    case Reconcile => false
    case DeleteUpload => !status.Uploading?
    case Delete => status.Deleting? || status.Failed?
  }

  datatype Label =
    | Claim(k: WorkerId, id: OpId)
    | Begin(k: WorkerId)
    | Refuse(k: WorkerId)
    | Expire(k: WorkerId, id: OpId, id': OpId)
    | NotYet(k: WorkerId)
    | Defer(k: WorkerId, at: int)
    | Clear(k: WorkerId)
    | SendDelete(k: WorkerId)
    | DeleteOk(k: WorkerId)
    | Quiesce(k: WorkerId)
    | SeeAbsent(k: WorkerId)
    | Commit(k: WorkerId)
    | Fail(k: WorkerId)
    | Retry(k: WorkerId, maxAttempts: nat)
    | Crash(k: WorkerId)
    | RecoverClaims(claimedBefore: int)
    | EnqueueMissing(o: ObjectId, kind: Kind, id: OpId)
    | ApiCreate(o: ObjectId, expiresAt: int, id: OpId)
    | ApiPromote(o: ObjectId, id: OpId, committed: bool)
    | ApiFail(o: ObjectId, id: OpId, id': OpId)
    | ApiDelete(o: ObjectId, id: OpId, id': OpId)
    | PutLands(o: ObjectId, begun: int)
    | DeleteLands(o: ObjectId, key: Key)
    | Tick(now: int)

  /** `WHERE id=.. AND revision=.. AND status=..`: the guard of the updates of object rows. */
  predicate Unmoved(t: Tables, o: ObjectId, row: Object) {
    o in t.objects && t.objects[o].revision == row.revision && t.objects[o].status == row.status
  }

  /** Roll back and fail when the claim was lost, or else finish the operation and commit. */
  predicate Settles(w: World, w': World, k: WorkerId, task: Task, status: OpStatus) {
    if Holds(w.t, task) then w' == Do(w.(t := FinishOp(w.t, task, status, w.now)), k, Idle)
    else w' == Do(w, k, Busy(task, Erring))
  }

  /** A step of a worker on its operation. */
  ghost predicate TaskStep(cfg: Config, w: World, w': World, l: Label, k: WorkerId, task: Task, pc: Pc) {
    var t, o := w.t, task.target;
    match l
    case Begin(_) =>
      pc.Taken? && o in t.objects && Unlocked(w, o) && w' == Do(w, k, Busy(task, Locked(t.objects[o])))
    case Fail(_) => w' == Do(w, k, Busy(task, Erring))
    case Retry(_, maxAttempts) =>
      pc.Erring? && w' == Do(w.(t := StorageRows.ScheduleRetry(t, task, maxAttempts, w.now)), k, Idle)
    case Refuse(_) =>
      && pc.Locked?
      && (if pc.row.revision == task.revision && task.kind.Delete? && pc.row.status.Deleted?
          then Settles(w, w', k, task, Completed)
          else
            && (pc.row.revision != task.revision
                || (if task.kind.Reconcile? then !pc.row.status.Uploading? else !Deletable(task.kind, pc.row.status)))
            && Settles(w, w', k, task, Cancelled))
    case NotYet(_) =>
      && pc.Locked? && task.kind.Reconcile? && pc.row.revision == task.revision
      && pc.row.status.Uploading? && pc.row.expiresAt > w.now
      && w' == Do(w.(t := if Holds(t, task) then Postpone(t, task, pc.row.expiresAt) else t), k, Idle)
    case Expire(_, id, id') =>
      && pc.Locked? && task.kind.Reconcile? && pc.row.revision == task.revision
      && pc.row.status.Uploading? && pc.row.expiresAt <= w.now
      && id !in t.ops && id' !in t.ops && id != id'
      && w' == if Holds(t, task) && Unmoved(t, o, pc.row)
               then Do(w.(t := ExpireUpload(t, task, id, id', w.now)), k, Idle)
               else Do(w, k, Busy(task, Erring))
    case Defer(_, at) =>
      && ((pc.Locked? && task.kind.Delete? && pc.row.revision == task.revision && pc.row.status.Deleting?
           && DefersTo(t, task, w.now, cfg.retryAfter, cfg.staleAfter, at))
          || (pc.Removed? && pc.key.StagingKey? && at == TerminalCleanupAt(pc.row.expiresAt, cfg.maxUpload)
              && w.now < at))
      && w' == if Holds(t, task) then Do(w.(t := Postpone(t, task, at)), k, Idle) else Do(w, k, Busy(task, Erring))
    case Clear(_) =>
      && pc.Locked? && pc.row.revision == task.revision && Deletable(task.kind, pc.row.status)
      && (task.kind.Delete? && pc.row.status.Deleting? ==> GatePasses(t, task))
      && w' == Do(w, k, Busy(task, Cleared(pc.row)))
    case SendDelete(_) =>
      && pc.Cleared?
      && w' == Do(w.(sent := w.sent + {(o, KeyFor(task.kind))}),
                  k, Busy(task, Pc.Deleting(pc.row, KeyFor(task.kind), false)))
    case DeleteOk(_) =>
      pc.Deleting? && pc.landed && w' == Do(w, k, Busy(task, Removed(pc.row, pc.key)))
    case Quiesce(_) =>
      && pc.Removed? && pc.key.StagingKey? && w.now >= TerminalCleanupAt(pc.row.expiresAt, cfg.maxUpload)
      && w' == Do(w, k, Busy(task, Quiescent(pc.row)))
    case SeeAbsent(_) => pc.Quiescent? && o !in w.staging && w' == Do(w, k, Busy(task, Verified(pc.row)))
    case Commit(_) =>
      && (pc.Verified? || (pc.Removed? && pc.key.FinalKey?))
      && w' == if !Holds(t, task) then Do(w, k, Busy(task, Erring))
               else if pc.Verified? then Do(w.(t := FinishStaging(t, task, w.now)), k, Idle)
               else if !pc.row.status.Deleting? then Do(w.(t := FinishOp(t, task, Completed, w.now)), k, Idle)
               else if Unmoved(t, o, pc.row) then Do(w.(t := FinishDelete(t, task, w.now)), k, Idle)
               else Do(w, k, Busy(task, Erring))
    case _ => false
  }

  /** After a deletion has taken effect, every DELETE of that key that is being waited for counts as landed. */
  function Landed(a: Activity, o: ObjectId, key: Key): Activity {
    if a.Busy? && a.task.target == o && a.pc.Deleting? && a.pc.key == key
    then Busy(a.task, a.pc.(landed := true)) else a
  }

  function OnTask(l: Label): bool {
    l.Begin? || l.Refuse? || l.Expire? || l.NotYet? || l.Defer? || l.Clear? || l.SendDelete? || l.DeleteOk?
    || l.Quiesce? || l.SeeAbsent? || l.Commit? || l.Fail? || l.Retry?
  }

  ghost predicate Step(cfg: Config, w: World, w': World, l: Label) {
    var t, now := w.t, w.now;
    if OnTask(l) then
      exists k :: l.k == k && Doing(w, k).Busy? && TaskStep(cfg, w, w', l, k, Doing(w, k).task, Doing(w, k).pc)
    else
      match l
      case Claim(k, id) =>
        && Doing(w, k).Idle? && id in t.ops && t.ops[id].status.Pending? && t.ops[id].availableAt <= now
        && w' == Do(w.(t := ClaimOp(t, id, k, now)), k, Busy(TaskOf(ClaimOp(t, id, k, now), id, k), Taken))
      case Crash(k) => w' == Do(w, k, Idle)
      case RecoverClaims(claimedBefore) => w' == w.(t := Recover(t, claimedBefore, now))
      case EnqueueMissing(o, kind, id) =>
        && id !in t.ops && Missing(t, o, kind, cfg.retryAfter, now)
        && w' == w.(t := Enqueue(t, o, kind, t.objects[o].revision, CleanupDueAt(t.objects[o], kind, now), id))
      case ApiCreate(o, expiresAt, id) =>
        o !in t.objects && id !in t.ops && w' == w.(t := CreateUpload(t, o, expiresAt, id))
      case ApiPromote(o, id, committed) =>
        && o in t.objects && Unlocked(w, o) && t.objects[o].status.Uploading? && t.objects[o].expiresAt >= now
        && o in w.staging && id !in t.ops
        && w' == w.(final := w.final + {o}, t := if committed then PromoteUpload(t, o, id, now) else t)
      case ApiFail(o, id, id') =>
        && o in t.objects && Unlocked(w, o) && t.objects[o].status.Uploading?
        && id !in t.ops && id' !in t.ops && id != id'
        && w' == w.(t := Retire(t, o, Failed, id, id', now))
      case ApiDelete(o, id, id') =>
        && o in t.objects && Unlocked(w, o) && !t.objects[o].status.Deleting? && !t.objects[o].status.Deleted?
        && id !in t.ops && id' !in t.ops && id != id'
        && w' == w.(t := Retire(t, o, Life.Deleting, id, id', now))
      case PutLands(o, begun) =>
        && o in t.objects && begun <= t.objects[o].expiresAt + cfg.skew && begun <= now <= begun + cfg.maxUpload
        && w' == w.(staging := w.staging + {o})
      case DeleteLands(o, key) =>
        && (o, key) in w.sent
        && w' == w.(staging := if key.StagingKey? then w.staging - {o} else w.staging,
                    final := if key.FinalKey? then w.final - {o} else w.final,
                    workers := map k | k in w.workers :: Landed(w.workers[k], o, key))
      case Tick(later) => now <= later && w' == w.(now := later)
      case _ => false
  }

  predicate Init(w: World) {
    w.t == Tables(map[], map[]) && w.staging == {} && w.final == {} && w.sent == {} && w.workers == map[]
  }

  ghost predicate IsRun(cfg: Config, run: seq<World>, labels: seq<Label>) {
    && |run| == |labels| + 1
    && Init(run[0])
    && forall n | 0 <= n < |labels| :: Step(cfg, run[n], run[n + 1], labels[n])
  }
}
