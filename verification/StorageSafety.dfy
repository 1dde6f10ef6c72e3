/** What the object-storage control plane keeps over every run: which bodies exist in which state, which
    deletions may still take effect, and what a worker may rely on while it holds a row. */
module StorageSafety {
  import opened Options
  import opened StorageRows
  import opened StorageProtocol

  // ------------------------------------------------------------------ the invariant

  /** A staging clean-up of the object's current revision that was not cancelled, or a completed one of any. */
  predicate CleansStaging(t: Tables, id: OpId, o: ObjectId) {
    && o in t.objects && id in t.ops && t.ops[id].target == o && t.ops[id].kind.DeleteUpload?
    && (t.ops[id].status.Completed? || (t.ops[id].revision == t.objects[o].revision && !t.ops[id].status.Cancelled?))
  }

  ghost predicate CleanupPresent(t: Tables, o: ObjectId) { exists id :: CleansStaging(t, id, o) }

  ghost predicate ObjectOk(w: World, o: ObjectId) {
    o in w.t.objects &&
    match w.t.objects[o].status
    case Uploading => (o, StagingKey) !in w.sent && (o, FinalKey) !in w.sent
    case Ready => o in w.final && (o, FinalKey) !in w.sent
    case Failed => true
    case Deleting => CleanupPresent(w.t, o)
    case Deleted => o !in w.final && AnyStagingDone(w.t, o)
  }

  /** A completed staging clean-up is the end of the staging body, if the skew is below the grace period. */
  predicate OpOk(cfg: Config, w: World, id: OpId) {
    && id in w.t.ops && w.t.ops[id].target in w.t.objects
    && var o := w.t.ops[id].target;
    w.t.ops[id].kind.DeleteUpload? && w.t.ops[id].status.Completed? ==>
      (cfg.skew < CLOCK_GRACE ==> o !in w.staging)
          && w.now >= TerminalCleanupAt(w.t.objects[o].expiresAt, cfg.maxUpload)
  }

  predicate SameOp(t: Tables, task: Task) {
    && task.id in t.ops && t.ops[task.id].target == task.target && t.ops[task.id].kind == task.kind
    && t.ops[task.id].revision == task.revision && task.target in t.objects
  }

  /** The locked row is at the operation's revision and in a status that allows its DELETE. */
  ghost predicate Fenced(t: Tables, task: Task, key: Key) {
    && task.target in t.objects && t.objects[task.target].revision == task.revision
    && Deletable(task.kind, t.objects[task.target].status) && key == KeyFor(task.kind)
    && (t.objects[task.target].status.Deleting? && task.kind.Delete? ==> AnyStagingDone(t, task.target))
  }

  ghost predicate TaskOk(cfg: Config, w: World, task: Task, pc: Pc) {
    && SameOp(w.t, task)
    && (HasRow(pc) ==> w.t.objects[task.target] == pc.row)
    && match pc
       case Cleared(_) => Fenced(w.t, task, KeyFor(task.kind))
       case Deleting(_, key, landed) => Fenced(w.t, task, key) && (key.FinalKey? && landed ==> task.target !in w.final)
       case Removed(_, key) => Fenced(w.t, task, key) && (key.FinalKey? ==> task.target !in w.final)
       case Quiescent(_) =>
         Fenced(w.t, task, StagingKey) && w.now >= TerminalCleanupAt(w.t.objects[task.target].expiresAt, cfg.maxUpload)
       case Verified(_) =>
         Fenced(w.t, task, StagingKey) && w.now >= TerminalCleanupAt(w.t.objects[task.target].expiresAt, cfg.maxUpload)
         && (cfg.skew < CLOCK_GRACE ==> task.target !in w.staging)
       case _ => true
  }

  ghost predicate WorkerOk(cfg: Config, w: World, k: WorkerId) {
    Doing(w, k).Busy? ==> TaskOk(cfg, w, Doing(w, k).task, Doing(w, k).pc)
  }

  predicate OneLock(w: World, j: WorkerId, k: WorkerId) {
    j != k && Doing(w, j).Busy? && HasLock(Doing(w, j), Doing(w, j).task.target) ==>
        !HasLock(Doing(w, k), Doing(w, j).task.target)
  }

  ghost predicate Inv(cfg: Config, w: World) {
    && (forall o | o in w.t.objects :: ObjectOk(w, o))
    && (forall id | id in w.t.ops :: OpOk(cfg, w, id))
    && (forall k :: WorkerOk(cfg, w, k))
    && (forall j, k :: OneLock(w, j, k))
    && (forall o | o in w.staging || o in w.final :: o in w.t.objects)
    && (forall x | x in w.sent :: x.0 in w.t.objects)
  }

  /** What any step may do to an object: identity and expiry are fixed, the revision only grows, and the
      status changes only together with it and never backwards. */
  predicate ObjectOnward(row: Object, row': Object) {
    && row'.expiresAt == row.expiresAt
    && row'.revision >= row.revision
    && (row'.status == row.status ==> row' == row)
    && (row'.status != row.status ==>
          row'.revision == row.revision + 1
          && match row.status
             case Uploading => true
             case Ready => row'.status.Deleting?
             case Failed => row'.status.Deleting?
             case Deleting => row'.status.Deleted?
             case Deleted => false)
  }

  predicate OpOnward(op: Op, op': Op) {
    && op'.target == op.target && op'.kind == op.kind && op'.revision == op.revision
    && (!Open(op.status) ==> op' == op)
  }

  ghost predicate Onward(w: World, w': World) {
    && (forall o | o in w.t.objects :: o in w'.t.objects && ObjectOnward(w.t.objects[o], w'.t.objects[o]))
    && (forall id | id in w.t.ops :: id in w'.t.ops && OpOnward(w.t.ops[id], w'.t.ops[id]))
    && w.sent <= w'.sent && w.now <= w'.now
  }

  // ------------------------------------------------------------------ what is stable

  lemma DoneStays(w: World, w': World, o: ObjectId)
    requires Onward(w, w') && AnyStagingDone(w.t, o)
    ensures AnyStagingDone(w'.t, o)
  {
    var id :| StagingDone(w.t, id, o);
    assert StagingDone(w'.t, id, o);
  }

  /** A step between transactions: only the rows of `o` and the workers in `touched` may change. */
  ghost predicate LocalMove(cfg: Config, w: World, w': World, touched: set<WorkerId>, o: ObjectId) {
    && Onward(w, w')
    && w'.now == w.now && w'.staging == w.staging && w'.sent == w.sent
    && (w'.final == w.final || w'.final == w.final + {o})
    && (forall j | j !in touched :: Doing(w', j) == Doing(w, j))
    && (forall x | x in w'.t.objects && x != o :: x in w.t.objects && w'.t.objects[x] == w.t.objects[x])
    && (SameObject(w, w', o) || forall j | j !in touched :: !HasLock(Doing(w, j), o))
    && (forall id | id in w.t.ops && w'.t.ops[id].status.Cancelled? && !w.t.ops[id].status.Cancelled? ::
        w.t.ops[id].target == o)
    && (forall id | id in w'.t.ops && id !in w.t.ops ::
          w'.t.ops[id].target in w'.t.objects && w'.t.ops[id].status.Pending?)
    && (forall id | id in w'.t.ops && w'.t.ops[id].status.Completed? && w'.t.ops[id].kind.DeleteUpload?
                    && !(id in w.t.ops && w.t.ops[id].status.Completed?) :: OpOk(cfg, w', id))
  }

  predicate SameObject(w: World, w': World, o: ObjectId) {
    && w'.final == w.final
    && (o in w'.t.objects ==> o in w.t.objects && w'.t.objects[o] == w.t.objects[o])
  }

  ghost predicate LocksOnward(w: World, w': World, touched: set<WorkerId>) {
    forall j, x | j in touched && HasLock(Doing(w', j), x) ::
      HasLock(Doing(w, j), x) || forall k | k !in touched :: !HasLock(Doing(w, k), x)
  }

  lemma OtherWorkerOk(cfg: Config, w: World, w': World, touched: set<WorkerId>, o: ObjectId, j: WorkerId)
    requires LocalMove(cfg, w, w', touched, o) && WorkerOk(cfg, w, j) && j !in touched
    ensures WorkerOk(cfg, w', j)
  {
    if Doing(w, j).Busy? {
      var task, pc := Doing(w, j).task, Doing(w, j).pc;
      if HasRow(pc) {
        assert HasLock(Doing(w, j), task.target);
        assert w'.t.objects[task.target] == w.t.objects[task.target];
        if AnyStagingDone(w.t, task.target) { DoneStays(w, w', task.target); }
      }
    }
  }

  lemma OtherObjectOk(cfg: Config, w: World, w': World, touched: set<WorkerId>, o: ObjectId, x: ObjectId)
    requires LocalMove(cfg, w, w', touched, o) && x != o && x in w.t.objects && ObjectOk(w, x)
    ensures ObjectOk(w', x)
  {
    if AnyStagingDone(w.t, x) { DoneStays(w, w', x); }
    if CleanupPresent(w.t, x) {
      var id :| CleansStaging(w.t, id, x);
      assert CleansStaging(w'.t, id, x);
    }
  }

  lemma LocalMoveKeeps(cfg: Config, w: World, w': World, touched: set<WorkerId>, o: ObjectId)
    requires Inv(cfg, w) && LocalMove(cfg, w, w', touched, o) && LocksOnward(w, w', touched)
    requires o in w'.t.objects ==> ObjectOk(w', o)
    requires forall j | j in touched :: WorkerOk(cfg, w', j)
    requires forall i, j | i in touched && j in touched :: i == j
    requires w'.final != w.final ==> o in w.t.objects
    ensures Inv(cfg, w')
  {
    hide ObjectOk, WorkerOk, HasLock;
    forall x | x in w'.t.objects ensures ObjectOk(w', x) {
      if x != o { OtherObjectOk(cfg, w, w', touched, o, x); }
    }
    forall j ensures WorkerOk(cfg, w', j) {
      if j !in touched { OtherWorkerOk(cfg, w, w', touched, o, j); }
    }
    forall id | id in w'.t.ops ensures OpOk(cfg, w', id) {
      if id in w.t.ops { assert OpOk(cfg, w, id); }
    }
    forall j, k ensures OneLock(w', j, k) {
      assert OneLock(w, j, k) && OneLock(w, k, j);
      LocksStayApart(w, w', touched, j, k);
    }
  }

  lemma LocksStayApart(w: World, w': World, touched: set<WorkerId>, j: WorkerId, k: WorkerId)
    requires OneLock(w, j, k) && OneLock(w, k, j) && LocksOnward(w, w', touched)
    requires forall i | i !in touched :: Doing(w', i) == Doing(w, i)
    requires forall i, j | i in touched && j in touched :: i == j
    ensures OneLock(w', j, k)
  {
  }

  // ------------------------------------------------------------------ steps that only move the queue

  /** The worker's own operation row changes, or none does. */
  lemma OwnOpKeeps(cfg: Config, w: World, w': World, k: WorkerId, task: Task, op': Op)
    requires Inv(cfg, w) && Doing(w, k).Busy? && Doing(w, k).task == task && Holds(w.t, task)
    requires w' == Do(w.(t := PutOp(w.t, task.id, op')), k, Idle)
    requires OpOnward(w.t.ops[task.id], op')
    requires op'.status.Cancelled? ==> !NeedsCleanup(w.t, task)
    requires op'.status.Completed? ==> !task.kind.DeleteUpload?
    ensures Inv(cfg, w') && Onward(w, w')
  {
    OwnTask(cfg, w, k);
    ObjectFact(cfg, w, task.target);
    OwnOpIsLocal(cfg, w, w', k, task, op');
    hide LocalMove, ObjectOk, Onward, Inv;
    LocalMoveKeeps(cfg, w, w', {k}, task.target);
  }

  /** The object is being deleted and the operation is a staging clean-up of this very revision. */
  predicate NeedsCleanup(t: Tables, task: Task) {
    task.target in t.objects && t.objects[task.target].status.Deleting? && CleansStaging(t, task.id, task.target)
  }

  lemma OwnOpIsLocal(cfg: Config, w: World, w': World, k: WorkerId, task: Task, op': Op)
    requires Holds(w.t, task) && SameOp(w.t, task) && ObjectOk(w, task.target)
    requires w' == Do(w.(t := PutOp(w.t, task.id, op')), k, Idle)
    requires OpOnward(w.t.ops[task.id], op')
    requires op'.status.Cancelled? ==> !NeedsCleanup(w.t, task)
    requires op'.status.Completed? ==> !task.kind.DeleteUpload?
    ensures LocalMove(cfg, w, w', {k}, task.target) && LocksOnward(w, w', {k}) && Onward(w, w')
    ensures ObjectOk(w', task.target)
  {
    var o := task.target;
    if AnyStagingDone(w.t, o) { DoneStays(w, w', o); }
    if CleanupPresent(w.t, o) && w.t.objects[o].status.Deleting? {
      var id :| CleansStaging(w.t, id, o);
      assert CleansStaging(w'.t, id, o);
    }
  }

  /** Only the worker's own state changes. */
  lemma OwnStateKeeps(cfg: Config, w: World, w': World, k: WorkerId, a: Activity)
    requires Inv(cfg, w) && w' == Do(w, k, a)
    requires a.Busy? ==> Doing(w, k).Busy? && a.task == Doing(w, k).task && TaskOk(cfg, w, a.task, a.pc)
    requires forall x :: HasLock(a, x) ==> HasLock(Doing(w, k), x) || Unlocked(w, x)
    ensures Inv(cfg, w') && Onward(w, w')
  {
    hide ObjectOk;
    var o := if a.Busy? then a.task.target else 0;
    if o in w.t.objects {
      assert ObjectOk(w, o);
      assert ObjectOk(w', o) by { SameTablesObjectOk(w, w', o); }
      assert WorkerOk(cfg, w', k);
      LocalMoveKeeps(cfg, w, w', {k}, o);
    } else {
      LocalMoveKeeps(cfg, w, w', {k}, o);
    }
  }

  lemma SameTablesObjectOk(w: World, w': World, o: ObjectId)
    requires ObjectOk(w, o) && w'.t == w.t && w'.sent == w.sent && w'.final == w.final
    ensures ObjectOk(w', o)
  {
  }

  lemma ObjectFact(cfg: Config, w: World, o: ObjectId)
    requires Inv(cfg, w) && o in w.t.objects
    ensures ObjectOk(w, o)
  {
  }

  lemma OwnTask(cfg: Config, w: World, k: WorkerId)
    requires Inv(cfg, w) && Doing(w, k).Busy?
    ensures TaskOk(cfg, w, Doing(w, k).task, Doing(w, k).pc)
  {
    assert WorkerOk(cfg, w, k);
  }

  lemma BeginKeeps(cfg: Config, w: World, w': World, k: WorkerId, task: Task, pc: Pc)
    requires Inv(cfg, w) && Doing(w, k) == Busy(task, pc) && TaskStep(cfg, w, w', Begin(k), k, task, pc)
    ensures Inv(cfg, w') && Onward(w, w')
  {
    OwnTask(cfg, w, k);
    OwnStateKeeps(cfg, w, w', k, Busy(task, Locked(w.t.objects[task.target])));
  }

  lemma FailKeeps(cfg: Config, w: World, w': World, k: WorkerId, task: Task, pc: Pc)
    requires Inv(cfg, w) && Doing(w, k) == Busy(task, pc) && w' == Do(w, k, Busy(task, Erring))
    ensures Inv(cfg, w') && Onward(w, w')
  {
    OwnTask(cfg, w, k);
    OwnStateKeeps(cfg, w, w', k, Busy(task, Erring));
  }

  lemma RetryKeeps(cfg: Config, w: World, w': World, k: WorkerId, task: Task, pc: Pc, maxAttempts: nat)
    requires Inv(cfg, w) && Doing(w, k) == Busy(task, pc) && TaskStep(cfg, w, w', Retry(k, maxAttempts), k, task, pc)
    ensures Inv(cfg, w') && Onward(w, w')
  {
    if Holds(w.t, task) {
      OwnOpKeeps(cfg, w, w', k, task, w'.t.ops[task.id]);
    } else {
      OwnStateKeeps(cfg, w, w', k, Idle);
    }
  }

  lemma RefuseKeeps(cfg: Config, w: World, w': World, k: WorkerId, task: Task, pc: Pc)
    requires Inv(cfg, w) && Doing(w, k) == Busy(task, pc) && TaskStep(cfg, w, w', Refuse(k), k, task, pc)
    ensures Inv(cfg, w') && Onward(w, w')
  {
    OwnTask(cfg, w, k);
    if Holds(w.t, task) {
      OwnOpKeeps(cfg, w, w', k, task, w'.t.ops[task.id]);
    } else {
      FailKeeps(cfg, w, w', k, task, pc);
    }
  }

  lemma NotYetKeeps(cfg: Config, w: World, w': World, k: WorkerId, task: Task, pc: Pc)
    requires Inv(cfg, w) && Doing(w, k) == Busy(task, pc) && TaskStep(cfg, w, w', NotYet(k), k, task, pc)
    ensures Inv(cfg, w') && Onward(w, w')
  {
    if Holds(w.t, task) {
      OwnOpKeeps(cfg, w, w', k, task, w'.t.ops[task.id]);
    } else {
      OwnStateKeeps(cfg, w, w', k, Idle);
    }
  }

  lemma DeferKeeps(cfg: Config, w: World, w': World, k: WorkerId, task: Task, pc: Pc, at: int)
    requires Inv(cfg, w) && Doing(w, k) == Busy(task, pc) && TaskStep(cfg, w, w', Defer(k, at), k, task, pc)
    ensures Inv(cfg, w') && Onward(w, w')
  {
    if Holds(w.t, task) {
      OwnOpKeeps(cfg, w, w', k, task, w'.t.ops[task.id]);
    } else {
      FailKeeps(cfg, w, w', k, task, pc);
    }
  }

  // ------------------------------------------------------------------ the deletion itself

  /** An object that is being deleted and whose staging clean-up does not hold the final delete back has
      had that clean-up completed. */
  lemma GateMeansDone(t: Tables, task: Task)
    requires task.target in t.objects && t.objects[task.target].revision == task.revision
    requires CleanupPresent(t, task.target) && GatePasses(t, task)
    ensures AnyStagingDone(t, task.target)
  {
    var id :| CleansStaging(t, id, task.target);
    assert StagingDone(t, id, task.target) || StagingUndone(t, id, task);
  }

  lemma ClearKeeps(cfg: Config, w: World, w': World, k: WorkerId, task: Task, pc: Pc)
    requires Inv(cfg, w) && Doing(w, k) == Busy(task, pc) && TaskStep(cfg, w, w', Clear(k), k, task, pc)
    ensures Inv(cfg, w') && Onward(w, w')
  {
    OwnTask(cfg, w, k);
    assert ObjectOk(w, task.target);
    if task.kind.Delete? && pc.row.status.Deleting? { GateMeansDone(w.t, task); }
    assert Fenced(w.t, task, KeyFor(task.kind));
    OwnStateKeeps(cfg, w, w', k, Busy(task, Cleared(pc.row)));
  }

  lemma SendDeleteKeeps(cfg: Config, w: World, w': World, k: WorkerId, task: Task, pc: Pc)
    requires Inv(cfg, w) && Doing(w, k) == Busy(task, pc) && TaskStep(cfg, w, w', SendDelete(k), k, task, pc)
    ensures Inv(cfg, w') && Onward(w, w')
  {
    OwnTask(cfg, w, k);
    var o, key := task.target, KeyFor(task.kind);
    var w1 := Do(w, k, Busy(task, Pc.Deleting(pc.row, key, false)));
    OwnStateKeeps(cfg, w, w1, k, Busy(task, Pc.Deleting(pc.row, key, false)));
    SentGrows(cfg, w1, w', o, key);
  }

  lemma SentGrows(cfg: Config, w: World, w': World, o: ObjectId, key: Key)
    requires Inv(cfg, w) && w' == w.(sent := w.sent + {(o, key)}) && o in w.t.objects
    requires !w.t.objects[o].status.Uploading? && (key.FinalKey? ==> !w.t.objects[o].status.Ready?)
    ensures Inv(cfg, w') && Onward(w, w')
  {
    forall x | x in w'.t.objects ensures ObjectOk(w', x) { assert ObjectOk(w, x); }
    forall id | id in w'.t.ops ensures OpOk(cfg, w', id) { assert OpOk(cfg, w, id); }
    forall j ensures WorkerOk(cfg, w', j) { assert WorkerOk(cfg, w, j); }
    forall i, j ensures OneLock(w', i, j) { assert OneLock(w, i, j); }
  }

  lemma DeleteOkKeeps(cfg: Config, w: World, w': World, k: WorkerId, task: Task, pc: Pc)
    requires Inv(cfg, w) && Doing(w, k) == Busy(task, pc) && TaskStep(cfg, w, w', DeleteOk(k), k, task, pc)
    ensures Inv(cfg, w') && Onward(w, w')
  {
    OwnTask(cfg, w, k);
    OwnStateKeeps(cfg, w, w', k, Busy(task, Removed(pc.row, pc.key)));
  }

  lemma QuiesceKeeps(cfg: Config, w: World, w': World, k: WorkerId, task: Task, pc: Pc)
    requires Inv(cfg, w) && Doing(w, k) == Busy(task, pc) && TaskStep(cfg, w, w', Quiesce(k), k, task, pc)
    ensures Inv(cfg, w') && Onward(w, w')
  {
    OwnTask(cfg, w, k);
    OwnStateKeeps(cfg, w, w', k, Busy(task, Quiescent(pc.row)));
  }

  lemma SeeAbsentKeeps(cfg: Config, w: World, w': World, k: WorkerId, task: Task, pc: Pc)
    requires Inv(cfg, w) && Doing(w, k) == Busy(task, pc) && TaskStep(cfg, w, w', SeeAbsent(k), k, task, pc)
    ensures Inv(cfg, w') && Onward(w, w')
  {
    OwnTask(cfg, w, k);
    OwnStateKeeps(cfg, w, w', k, Busy(task, Verified(pc.row)));
  }

  // ------------------------------------------------------------------ commits

  lemma FinishStagingKeeps(cfg: Config, w: World, w': World, k: WorkerId, task: Task, row: Object)
    requires Inv(cfg, w) && Doing(w, k) == Busy(task, Verified(row)) && Holds(w.t, task)
    requires w' == Do(w.(t := FinishStaging(w.t, task, w.now)), k, Idle)
    ensures Inv(cfg, w') && Onward(w, w')
  {
    OwnTask(cfg, w, k);
    ObjectFact(cfg, w, task.target);
    FinishStagingIsLocal(cfg, w, w', k, task, row);
    hide LocalMove, ObjectOk, Onward, Inv;
    LocalMoveKeeps(cfg, w, w', {k}, task.target);
  }

  lemma FinishStagingIsLocal(cfg: Config, w: World, w': World, k: WorkerId, task: Task, row: Object)
    requires TaskOk(cfg, w, task, Verified(row)) && Holds(w.t, task) && ObjectOk(w, task.target)
    requires w' == Do(w.(t := FinishStaging(w.t, task, w.now)), k, Idle)
    ensures LocalMove(cfg, w, w', {k}, task.target) && LocksOnward(w, w', {k}) && Onward(w, w')
    ensures ObjectOk(w', task.target)
  {
    assert StagingDone(w'.t, task.id, task.target);
    assert CleansStaging(w'.t, task.id, task.target);
  }

  lemma FinishDeleteKeeps(cfg: Config, w: World, w': World, k: WorkerId, task: Task, row: Object)
    requires Inv(cfg, w) && Doing(w, k) == Busy(task, Removed(row, FinalKey)) && Holds(w.t, task)
    requires task.target in w.t.objects
    requires w' == Do(w.(t := FinishDelete(w.t, task, w.now)), k, Idle)
    ensures Inv(cfg, w') && Onward(w, w')
  {
    OwnTask(cfg, w, k);
    ObjectFact(cfg, w, task.target);
    LockIsMine(cfg, w, k, task.target);
    FinishDeleteIsLocal(cfg, w, w', k, task, row);
    hide LocalMove, ObjectOk, Onward, Inv;
    LocalMoveKeeps(cfg, w, w', {k}, task.target);
  }

  lemma LockIsMine(cfg: Config, w: World, k: WorkerId, o: ObjectId)
    requires Inv(cfg, w) && HasLock(Doing(w, k), o)
    ensures forall j | j != k :: !HasLock(Doing(w, j), o)
  {
    forall j | j != k ensures !HasLock(Doing(w, j), o) { assert OneLock(w, k, j); }
  }

  lemma FinishDeleteIsLocal(cfg: Config, w: World, w': World, k: WorkerId, task: Task, row: Object)
    requires TaskOk(cfg, w, task, Removed(row, FinalKey)) && Holds(w.t, task) && ObjectOk(w, task.target)
    requires forall j | j != k :: !HasLock(Doing(w, j), task.target)
    requires w' == Do(w.(t := FinishDelete(w.t, task, w.now)), k, Idle)
    ensures LocalMove(cfg, w, w', {k}, task.target) && LocksOnward(w, w', {k}) && Onward(w, w')
    ensures ObjectOk(w', task.target)
  {
    if AnyStagingDone(w.t, task.target) {
      var id :| StagingDone(w.t, id, task.target);
      assert StagingDone(w'.t, id, task.target);
    }
  }

  lemma CommitKeeps(cfg: Config, w: World, w': World, k: WorkerId, task: Task, pc: Pc)
    requires Inv(cfg, w) && Doing(w, k) == Busy(task, pc) && TaskStep(cfg, w, w', Commit(k), k, task, pc)
    ensures Inv(cfg, w') && Onward(w, w')
  {
    if !Holds(w.t, task) {
      FailKeeps(cfg, w, w', k, task, pc);
    } else if pc.Verified? {
      FinishStagingKeeps(cfg, w, w', k, task, pc.row);
    } else {
      OwnTask(cfg, w, k);
      assert w' == Do(w.(t := FinishDelete(w.t, task, w.now)), k, Idle);
      FinishDeleteKeeps(cfg, w, w', k, task, pc.row);
    }
  }

  // ------------------------------------------------------------------ enqueueing and retiring

  lemma EnqueueFact(t: Tables, o: ObjectId, kind: Kind, revision: nat, at: int, id: OpId)
    requires id !in t.ops
    ensures var t' := Enqueue(t, o, kind, revision, at, id);
            && t'.objects == t.objects
            && (if HasOpen(t, o, kind) then t' == t
                else t'.ops == t.ops[id := Op(o, kind, revision, Pending, 0, at, None)])
  {
  }

  lemma ExpireShape(t: Tables, task: Task, id: OpId, id': OpId, now: int)
    requires SameOp(t, task) && Holds(t, task) && id !in t.ops && id' !in t.ops && id != id'
    ensures var t', row := ExpireUpload(t, task, id, id', now), t.objects[task.target];
            && t'.objects == t.objects[task.target := row.(status := Failed, revision := row.revision + 1)]
            && (forall i | i in t.ops :: i in t'.ops && (i != task.id ==> t'.ops[i] == t.ops[i]))
            && t'.ops[task.id] == t.ops[task.id].(status := Completed, completedAt := Some(now))
            && (forall i | i in t'.ops && i !in t.ops :: t'.ops[i].target == task.target && t'.ops[i].status.Pending?)
  {
    hide Enqueue;
    var o, row := task.target, t.objects[task.target];
    var t1 := PutObject(t, o, row.(status := Failed, revision := row.revision + 1));
    EnqueueFact(t1, o, DeleteUpload, row.revision + 1, row.expiresAt + CLOCK_GRACE, id);
    var t2 := Enqueue(t1, o, DeleteUpload, row.revision + 1, row.expiresAt + CLOCK_GRACE, id);
    EnqueueFact(t2, o, Delete, row.revision + 1, now, id');
  }

  lemma ExpireIsLocal(cfg: Config, w: World, w': World, k: WorkerId, task: Task, id: OpId, id': OpId)
    requires SameOp(w.t, task) && task.kind.Reconcile? && Holds(w.t, task)
    requires w.t.objects[task.target].status.Uploading?
    requires forall j | j != k :: !HasLock(Doing(w, j), task.target)
    requires id !in w.t.ops && id' !in w.t.ops && id != id'
    requires w' == Do(w.(t := ExpireUpload(w.t, task, id, id', w.now)), k, Idle)
    ensures LocalMove(cfg, w, w', {k}, task.target) && LocksOnward(w, w', {k}) && Onward(w, w')
    ensures ObjectOk(w', task.target)
  {
    ExpireShape(w.t, task, id, id', w.now);
    hide ExpireUpload;
  }

  lemma ExpireKeeps(cfg: Config, w: World, w': World, k: WorkerId, task: Task, pc: Pc, id: OpId, id': OpId)
    requires Inv(cfg, w) && Doing(w, k) == Busy(task, pc) && TaskStep(cfg, w, w', Expire(k, id, id'), k, task, pc)
    ensures Inv(cfg, w') && Onward(w, w')
  {
    OwnTask(cfg, w, k);
    if Holds(w.t, task) {
      LockIsMine(cfg, w, k, task.target);
      ExpireIsLocal(cfg, w, w', k, task, id, id');
      hide LocalMove, ObjectOk, Onward, Inv;
      LocalMoveKeeps(cfg, w, w', {k}, task.target);
    } else {
      FailKeeps(cfg, w, w', k, task, pc);
    }
  }

  /** Retiring cancels exactly the object's open operations and leaves two: one clean-up of each body, at the
      new revision. */
  lemma RetireShape(t: Tables, o: ObjectId, status: Life, id: OpId, id': OpId, now: int)
    requires o in t.objects && id !in t.ops && id' !in t.ops && id != id'
    ensures var t', row := Retire(t, o, status, id, id', now), t.objects[o];
            && t'.objects == t.objects[o := row.(status := status, revision := row.revision + 1)]
            && t'.ops.Keys == t.ops.Keys + {id, id'}
            && (forall i | i in t.ops ::
                  t'.ops[i] == if t.ops[i].target == o && Open(t.ops[i].status)
                               then t.ops[i].(status := Cancelled, completedAt := Some(now)) else t.ops[i])
            && t'.ops[id] == Op(o, DeleteUpload, row.revision + 1, Pending, 0, row.expiresAt + CLOCK_GRACE, None)
            && t'.ops[id'] == Op(o, Delete, row.revision + 1, Pending, 0, now, None)
  {
    hide Enqueue;
    var row := t.objects[o];
    var t0 := PutObject(t, o, row.(status := status, revision := row.revision + 1));
    var t1 := CancelOpen(t0, o, ALL_KINDS, now);
    NothingOpen(t0, o, now, DeleteUpload);
    NothingOpen(t0, o, now, Delete);
    forall kind: Kind ensures kind in ALL_KINDS { if kind.Reconcile? || kind.Delete? {} }
    EnqueueFact(t1, o, DeleteUpload, row.revision + 1, row.expiresAt + CLOCK_GRACE, id);
    var t2 := Enqueue(t1, o, DeleteUpload, row.revision + 1, row.expiresAt + CLOCK_GRACE, id);
    assert !HasOpen(t2, o, Delete) by {
      forall i ensures !IsOpen(t2, i, o, Delete) { assert !IsOpen(t1, i, o, Delete); }
    }
    EnqueueFact(t2, o, Delete, row.revision + 1, now, id');
  }

  lemma RetireIsLocal(cfg: Config, w: World, w': World, o: ObjectId, status: Life, id: OpId, id': OpId)
    requires o in w.t.objects && (forall k | k in w.t.ops :: w.t.ops[k].target in w.t.objects)
    requires if status.Failed? then w.t.objects[o].status.Uploading?
             else status.Deleting? && !w.t.objects[o].status.Deleting? && !w.t.objects[o].status.Deleted?
    requires Unlocked(w, o) && id !in w.t.ops && id' !in w.t.ops && id != id'
    requires w' == w.(t := Retire(w.t, o, status, id, id', w.now))
    ensures LocalMove(cfg, w, w', {}, o) && Onward(w, w') && ObjectOk(w', o)
  {
    RetireShape(w.t, o, status, id, id', w.now);
    hide Retire;
    RetireOnward(w, w', o, status, id, id');
    assert ObjectOk(w', o) by { assert CleansStaging(w'.t, id, o); }
    hide Onward, ObjectOk;
  }

  lemma RetireOnward(w: World, w': World, o: ObjectId, status: Life, id: OpId, id': OpId)
    requires o in w.t.objects && id !in w.t.ops && id' !in w.t.ops && id != id'
    requires if status.Failed? then w.t.objects[o].status.Uploading?
             else status.Deleting? && !w.t.objects[o].status.Deleting? && !w.t.objects[o].status.Deleted?
    requires w' == w.(t := Retire(w.t, o, status, id, id', w.now))
    ensures Onward(w, w')
  {
    RetireShape(w.t, o, status, id, id', w.now);
    hide Retire;
  }

  lemma NothingOpen(t: Tables, o: ObjectId, now: int, kind: Kind)
    ensures !HasOpen(CancelOpen(t, o, ALL_KINDS, now), o, kind)
  {
    forall id ensures !IsOpen(CancelOpen(t, o, ALL_KINDS, now), id, o, kind) {
      assert kind in ALL_KINDS;
    }
  }

  lemma RetireKeeps(cfg: Config, w: World, w': World, o: ObjectId, status: Life, id: OpId, id': OpId)
    requires Inv(cfg, w) && o in w.t.objects
    requires if status.Failed? then w.t.objects[o].status.Uploading?
             else status.Deleting? && !w.t.objects[o].status.Deleting? && !w.t.objects[o].status.Deleted?
    requires Unlocked(w, o) && id !in w.t.ops && id' !in w.t.ops && id != id'
    requires w' == w.(t := Retire(w.t, o, status, id, id', w.now))
    ensures Inv(cfg, w') && Onward(w, w')
  {
    forall k | k in w.t.ops ensures w.t.ops[k].target in w.t.objects { assert OpOk(cfg, w, k); }
    RetireIsLocal(cfg, w, w', o, status, id, id');
    hide LocalMove, ObjectOk, Onward, Inv;
    LocalMoveKeeps(cfg, w, w', {}, o);
  }

  lemma PromoteIsLocal(cfg: Config, w: World, w': World, o: ObjectId, id: OpId, committed: bool)
    requires o in w.t.objects && w.t.objects[o].status.Uploading? && ObjectOk(w, o)
    requires forall k | k in w.t.ops :: w.t.ops[k].target in w.t.objects
    requires Unlocked(w, o) && id !in w.t.ops
    requires w' == w.(final := w.final + {o}, t := if committed then PromoteUpload(w.t, o, id, w.now) else w.t)
    ensures LocalMove(cfg, w, w', {}, o) && Onward(w, w') && ObjectOk(w', o)
  {
    if committed {
      hide Enqueue;
      var row := w.t.objects[o];
      var t1 := CancelOpen(PutObject(w.t, o, row.(status := Ready, revision := row.revision + 1)), o, {Reconcile},
          w.now);
      EnqueueFact(t1, o, DeleteUpload, row.revision + 1, row.expiresAt + CLOCK_GRACE, id);
    }
  }

  lemma PromoteKeeps(cfg: Config, w: World, w': World, o: ObjectId, id: OpId, committed: bool)
    requires Inv(cfg, w) && Step(cfg, w, w', ApiPromote(o, id, committed))
    ensures Inv(cfg, w') && Onward(w, w')
  {
    forall k | k in w.t.ops ensures w.t.ops[k].target in w.t.objects { assert OpOk(cfg, w, k); }
    ObjectFact(cfg, w, o);
    PromoteIsLocal(cfg, w, w', o, id, committed);
    hide LocalMove, ObjectOk, Onward, Inv;
    LocalMoveKeeps(cfg, w, w', {}, o);
  }

  lemma CreateKeeps(cfg: Config, w: World, w': World, o: ObjectId, expiresAt: int, id: OpId)
    requires Inv(cfg, w) && Step(cfg, w, w', ApiCreate(o, expiresAt, id))
    ensures Inv(cfg, w') && Onward(w, w')
  {
    forall k ensures !HasLock(Doing(w, k), o) { assert WorkerOk(cfg, w, k); }
    assert (o, StagingKey) !in w.sent && (o, FinalKey) !in w.sent;
    assert ObjectOk(w', o);
    hide ObjectOk, WorkerOk;
    LocalMoveKeeps(cfg, w, w', {}, o);
  }

  /** The queue moves, no object does: claims, recovered claims, missing clean-ups. */
  lemma QueueKeeps(cfg: Config, w: World, w': World, touched: set<WorkerId>)
    requires Inv(cfg, w) && w' == w.(t := w.t.(ops := w'.t.ops), workers := w'.workers)
    requires forall id | id in w.t.ops :: id in w'.t.ops && OpOnward(w.t.ops[id], w'.t.ops[id])
    requires forall id | id in w.t.ops && w'.t.ops[id] != w.t.ops[id] :: Open(w'.t.ops[id].status)
    requires forall id | id in w'.t.ops && id !in w.t.ops :: w'.t.ops[id].target in w.t.objects
               && w'.t.ops[id].status.Pending?
    requires forall j | j !in touched :: Doing(w', j) == Doing(w, j)
    requires forall j | j in touched :: WorkerOk(cfg, w', j) && forall x :: !HasLock(Doing(w', j), x)
    requires forall i, j | i in touched && j in touched :: i == j
    ensures Inv(cfg, w') && Onward(w, w')
  {
    QueueOnward(w, w');
    if o :| o in w.t.objects {
      assert ObjectOk(w', o) by {
        ObjectFact(cfg, w, o);
        QueueObjectOk(w, w', o);
      }
      hide ObjectOk, WorkerOk;
      LocalMoveKeeps(cfg, w, w', touched, o);
    } else {
      hide WorkerOk;
      LocalMoveKeeps(cfg, w, w', touched, 0);
    }
  }

  lemma QueueOnward(w: World, w': World)
    requires w' == w.(t := w.t.(ops := w'.t.ops), workers := w'.workers)
    requires forall id | id in w.t.ops :: id in w'.t.ops && OpOnward(w.t.ops[id], w'.t.ops[id])
    ensures Onward(w, w')
  {
  }

  lemma QueueObjectOk(w: World, w': World, o: ObjectId)
    requires Onward(w, w') && ObjectOk(w, o) && w'.t.objects == w.t.objects && w'.sent == w.sent && w'.final == w.final
    requires forall id | id in w.t.ops && w'.t.ops[id] != w.t.ops[id] :: Open(w'.t.ops[id].status)
    ensures ObjectOk(w', o)
  {
    if AnyStagingDone(w.t, o) { DoneStays(w, w', o); }
    if CleanupPresent(w.t, o) {
      var id :| CleansStaging(w.t, id, o);
      assert CleansStaging(w'.t, id, o);
    }
  }

  lemma ClaimKeeps(cfg: Config, w: World, w': World, k: WorkerId, id: OpId)
    requires Inv(cfg, w) && Step(cfg, w, w', Claim(k, id))
    ensures Inv(cfg, w') && Onward(w, w')
  {
    assert OpOk(cfg, w, id);
    QueueKeeps(cfg, w, w', {k});
  }

  lemma RecoverKeeps(cfg: Config, w: World, w': World, claimedBefore: int)
    requires Inv(cfg, w) && Step(cfg, w, w', RecoverClaims(claimedBefore))
    ensures Inv(cfg, w') && Onward(w, w')
  {
    QueueKeeps(cfg, w, w', {});
  }

  lemma EnqueueMissingKeeps(cfg: Config, w: World, w': World, o: ObjectId, kind: Kind, id: OpId)
    requires Inv(cfg, w) && Step(cfg, w, w', EnqueueMissing(o, kind, id))
    ensures Inv(cfg, w') && Onward(w, w')
  {
    EnqueueFact(w.t, o, kind, w.t.objects[o].revision, CleanupDueAt(w.t.objects[o], kind, w.now), id);
    hide Enqueue, Missing;
    QueueKeeps(cfg, w, w', {});
  }

  // ------------------------------------------------------------------ the store and the clock

  /** The argument of the README: a PUT that began before the grant expired, give or take the clock skew,
      and that lasts no longer than the maximum, cannot land once a staging clean-up may be final. */
  lemma PutLandsInTime(cfg: Config, expiresAt: int, begun: int, now: int)
    requires cfg.skew < CLOCK_GRACE
    requires begun <= expiresAt + cfg.skew && now <= begun + cfg.maxUpload
    ensures now < TerminalCleanupAt(expiresAt, cfg.maxUpload)
  {
  }

  lemma PutKeeps(cfg: Config, w: World, w': World, o: ObjectId, begun: int)
    requires Inv(cfg, w) && Step(cfg, w, w', PutLands(o, begun))
    ensures Inv(cfg, w') && Onward(w, w')
  {
    if cfg.skew < CLOCK_GRACE { PutLandsInTime(cfg, w.t.objects[o].expiresAt, begun, w.now); }
    forall x | x in w'.t.objects ensures ObjectOk(w', x) { assert ObjectOk(w, x); }
    forall id | id in w'.t.ops ensures OpOk(cfg, w', id) { assert OpOk(cfg, w, id); }
    forall j ensures WorkerOk(cfg, w', j) { assert WorkerOk(cfg, w, j); }
    forall i, j ensures OneLock(w', i, j) { assert OneLock(w, i, j); }
  }

  lemma DeleteLandsWorker(cfg: Config, w: World, w': World, o: ObjectId, key: Key, j: WorkerId)
    requires WorkerOk(cfg, w, j) && Step(cfg, w, w', DeleteLands(o, key))
    ensures WorkerOk(cfg, w', j)
    ensures forall x :: HasLock(Doing(w', j), x) == HasLock(Doing(w, j), x)
    ensures Doing(w', j).Busy? == Doing(w, j).Busy? && (Doing(w, j).Busy? ==> Doing(w', j).task == Doing(w, j).task)
  {
  }

  lemma DeleteLandsKeeps(cfg: Config, w: World, w': World, o: ObjectId, key: Key)
    requires Inv(cfg, w) && Step(cfg, w, w', DeleteLands(o, key))
    ensures Inv(cfg, w') && Onward(w, w')
  {
    forall x | x in w'.t.objects ensures ObjectOk(w', x) { assert ObjectOk(w, x); }
    forall id | id in w'.t.ops ensures OpOk(cfg, w', id) { assert OpOk(cfg, w, id); }
    forall j ensures WorkerOk(cfg, w', j) {
      assert WorkerOk(cfg, w, j);
      DeleteLandsWorker(cfg, w, w', o, key, j);
    }
    forall i, j ensures OneLock(w', i, j) {
      assert OneLock(w, i, j) && WorkerOk(cfg, w, i) && WorkerOk(cfg, w, j);
      DeleteLandsWorker(cfg, w, w', o, key, i);
      DeleteLandsWorker(cfg, w, w', o, key, j);
    }
  }

  lemma TickKeeps(cfg: Config, w: World, w': World, now: int)
    requires Inv(cfg, w) && Step(cfg, w, w', Tick(now))
    ensures Inv(cfg, w') && Onward(w, w')
  {
    forall x | x in w'.t.objects ensures ObjectOk(w', x) { assert ObjectOk(w, x); }
    forall id | id in w'.t.ops ensures OpOk(cfg, w', id) { assert OpOk(cfg, w, id); }
    forall j ensures WorkerOk(cfg, w', j) { assert WorkerOk(cfg, w, j); }
    forall i, j ensures OneLock(w', i, j) { assert OneLock(w, i, j); }
  }

  // ------------------------------------------------------------------ all steps

  lemma ActingWorker(cfg: Config, w: World, w': World, l: Label) returns (k: WorkerId)
    requires Step(cfg, w, w', l) && OnTask(l)
    ensures l.k == k && Doing(w, k).Busy? && TaskStep(cfg, w, w', l, k, Doing(w, k).task, Doing(w, k).pc)
  {
    hide TaskStep;
    k :| l.k == k && Doing(w, k).Busy? && TaskStep(cfg, w, w', l, k, Doing(w, k).task, Doing(w, k).pc);
  }

  lemma TaskStepKeeps(cfg: Config, w: World, w': World, l: Label, k: WorkerId, task: Task, pc: Pc)
    requires Inv(cfg, w) && Doing(w, k) == Busy(task, pc) && OnTask(l) && l.k == k
    requires TaskStep(cfg, w, w', l, k, task, pc)
    ensures Inv(cfg, w') && Onward(w, w')
  {
    hide Inv, Onward, TaskStep;
    match l {
      case Begin(_) => BeginKeeps(cfg, w, w', k, task, pc);
      case Refuse(_) => RefuseKeeps(cfg, w, w', k, task, pc);
      case Expire(_, id, id') => ExpireKeeps(cfg, w, w', k, task, pc, id, id');
      case NotYet(_) => NotYetKeeps(cfg, w, w', k, task, pc);
      case Defer(_, at) => DeferKeeps(cfg, w, w', k, task, pc, at);
      case Clear(_) => ClearKeeps(cfg, w, w', k, task, pc);
      case SendDelete(_) => SendDeleteKeeps(cfg, w, w', k, task, pc);
      case DeleteOk(_) => DeleteOkKeeps(cfg, w, w', k, task, pc);
      case Quiesce(_) => QuiesceKeeps(cfg, w, w', k, task, pc);
      case SeeAbsent(_) => SeeAbsentKeeps(cfg, w, w', k, task, pc);
      case Commit(_) => CommitKeeps(cfg, w, w', k, task, pc);
      case Fail(_) => FailStepKeeps(cfg, w, w', k, task, pc);
      case Retry(_, maxAttempts) => RetryKeeps(cfg, w, w', k, task, pc, maxAttempts);
    }
  }

  lemma FailStepKeeps(cfg: Config, w: World, w': World, k: WorkerId, task: Task, pc: Pc)
    requires Inv(cfg, w) && Doing(w, k) == Busy(task, pc) && TaskStep(cfg, w, w', Fail(k), k, task, pc)
    ensures Inv(cfg, w') && Onward(w, w')
  {
    FailKeeps(cfg, w, w', k, task, pc);
  }

  /** Every step keeps the invariant. */
  lemma StepKeeps(cfg: Config, w: World, w': World, l: Label)
    requires Inv(cfg, w) && Step(cfg, w, w', l)
    ensures Inv(cfg, w') && Onward(w, w')
  {
    if OnTask(l) {
      hide Inv, Step, TaskStep, Onward;
      var k := ActingWorker(cfg, w, w', l);
      TaskStepKeeps(cfg, w, w', l, k, Doing(w, k).task, Doing(w, k).pc);
    } else {
      hide Inv, TaskStep, Onward, HasLock;
      match l {
        case Claim(k, id) => ClaimKeeps(cfg, w, w', k, id);
        case Crash(k) => CrashKeeps(cfg, w, w', k);
        case RecoverClaims(before) => RecoverKeeps(cfg, w, w', before);
        case EnqueueMissing(o, kind, id) => EnqueueMissingKeeps(cfg, w, w', o, kind, id);
        case ApiCreate(o, expiresAt, id) => CreateKeeps(cfg, w, w', o, expiresAt, id);
        case ApiPromote(o, id, committed) => PromoteKeeps(cfg, w, w', o, id, committed);
        case ApiFail(o, id, id') => RetireKeeps(cfg, w, w', o, Failed, id, id');
        case ApiDelete(o, id, id') => RetireKeeps(cfg, w, w', o, Life.Deleting, id, id');
        case PutLands(o, begun) => PutKeeps(cfg, w, w', o, begun);
        case DeleteLands(o, key) => DeleteLandsKeeps(cfg, w, w', o, key);
        case Tick(now) => TickKeeps(cfg, w, w', now);
      }
    }
  }

  lemma CrashKeeps(cfg: Config, w: World, w': World, k: WorkerId)
    requires Inv(cfg, w) && w' == Do(w, k, Idle)
    ensures Inv(cfg, w') && Onward(w, w')
  {
    OwnStateKeeps(cfg, w, w', k, Idle);
  }

  lemma InitKeeps(cfg: Config, w: World)
    requires Init(w)
    ensures Inv(cfg, w)
  {
  }

  lemma {:induction false} RunKeeps(cfg: Config, run: seq<World>, labels: seq<Label>, n: nat)
    requires IsRun(cfg, run, labels) && n < |run|
    ensures Inv(cfg, run[n])
  {
    hide Inv, Step, Onward, Init;
    if n == 0 {
      InitKeeps(cfg, run[0]);
    } else {
      RunKeeps(cfg, run, labels, n - 1);
      StepKeeps(cfg, run[n - 1], run[n], labels[n - 1]);
    }
  }
}
