/** One maintenance worker on the object tables and the store: the transactions of `storage.rs`, statement
    by statement, each ending in a commit or a rollback. Deletions in the store are not rolled back. */
module StorageMaintenance {
  import opened Options
  import opened Retries
  import opened StorageRows
  import opened StorageProtocol
  import opened StorageEffects

  /** While its claim is held, the worker's copy still tells the row's kind. */
  predicate CopiedFrom(t: Tables, task: Task) { Holds(t, task) ==> t.ops[task.id].kind == task.kind }

  /** Every claim there is was there before. */
  ghost predicate OnlyClaims(t: Tables, t': Tables) {
    forall id | id in t'.ops && t'.ops[id].status.Claimed? :: id in t.ops && t.ops[id].status == t'.ops[id].status
  }

  class ObjectTables {
    var objects: map<ObjectId, Object>
    var ops: map<OpId, Op>
    /** What `gen_random_uuid()` has not handed out yet. */
    var nextOp: OpId
    var staging: set<ObjectId>
    var final: set<ObjectId>
    /** Whether the store has failed to do or to answer anything, or named another bucket. */
    ghost var trouble: bool

    ghost function View(): Tables reads this { Tables(objects, ops) }

    ghost predicate Valid() reads this { forall id | id in ops :: id < nextOp }

    constructor (t: Tables, nextOp: OpId, staging: set<ObjectId>, final: set<ObjectId>)
      requires forall id | id in t.ops :: id < nextOp
      ensures Valid() && View() == t && this.staging == staging && this.final == final && !trouble
    {
      trouble := false;
      objects, ops, this.nextOp, this.staging, this.final := t.objects, t.ops, nextOp, staging, final;
    }

    // ---------------------------------------------------------------- the store

    /** A DELETE that is not answered may or may not have taken effect. */
    method DeleteBody(key: Key, o: ObjectId) returns (ok: bool)
      modifies this`staging, this`final, this`trouble
      ensures trouble == (old(trouble) || !ok)
      ensures key.StagingKey? ==> final == old(final) && (staging == old(staging) || staging == old(staging) - {o})
      ensures key.FinalKey? ==> staging == old(staging) && (final == old(final) || final == old(final) - {o})
      ensures ok ==> o !in (if key.StagingKey? then staging else final)
    {
      ok := *;
      var applied: bool := *;
      trouble := trouble || !ok;
      if !ok && !applied { return; }
      if key.StagingKey? { staging := staging - {o}; } else { final := final - {o}; }
    }

    // ---------------------------------------------------------------- the queue

    method ClaimOperation(worker: WorkerId, now: int) returns (task: Option<Task>)
      requires Valid()
      modifies this`ops
      ensures Valid()
      ensures task.None? ==>
                ops == old(ops) && forall id | id in ops :: !(ops[id].status.Pending? && ops[id].availableAt <= now)
      ensures task.Some? ==>
                && task.value.id in old(ops) && old(ops)[task.value.id].status.Pending?
                && old(ops)[task.value.id].availableAt <= now
                && View() == ClaimOp(old(View()), task.value.id, worker, now)
                && task.value == TaskOf(View(), task.value.id, worker) && Holds(View(), task.value)
    {
      var due := set id | id in ops && ops[id].status.Pending? && ops[id].availableAt <= now;
      if due == {} {
        forall id | id in ops ensures !(ops[id].status.Pending? && ops[id].availableAt <= now) { assert id !in due; }
        return None;
      }
      var id :| id in due;
      var op := ops[id];
      ops := ops[id := op.(status := Claimed(worker, now), attempts := op.attempts + 1)];
      return Some(Task(id, op.target, op.kind, op.revision, op.attempts + 1, worker));
    }

    /** `recover_stale_claims`. */
    method RecoverStaleClaims(claimedBefore: int, now: int)
      requires Valid()
      modifies this`ops
      ensures Valid() && View() == Recover(old(View()), claimedBefore, now)
      ensures ops.Keys == old(ops).Keys
      ensures forall id | id in ops ::
                var op := old(ops)[id];
                ops[id] == if op.status.Claimed? && op.status.at < claimedBefore
                           then op.(status := Pending, availableAt := now) else op
    {
      ops := map id | id in ops ::
        if ops[id].status.Claimed? && ops[id].status.at < claimedBefore
        then ops[id].(status := Pending, availableAt := now)
        else ops[id];
    }

    /** `complete_operation` and `cancel_operation`: an error when the claim was lost. */
    method FinishOperation(task: Task, status: OpStatus, now: int) returns (ok: bool)
      requires Valid() && !Open(status)
      modifies this`ops
      ensures Valid() && ok == Holds(old(View()), task)
      ensures View() == if ok then FinishOp(old(View()), task, status, now) else old(View())
    {
      if task.id !in ops || !ops[task.id].status.Claimed? || ops[task.id].status.worker != task.worker { return false; }
      ops := ops[task.id := ops[task.id].(status := status, completedAt := Some(now))];
      return true;
    }

    method PostponeOperation(task: Task, at: int) returns (ok: bool)
      requires Valid()
      modifies this`ops
      ensures Valid() && ok == Holds(old(View()), task)
      ensures View() == if ok then Postpone(old(View()), task, at) else old(View())
    {
      if task.id !in ops || !ops[task.id].status.Claimed? || ops[task.id].status.worker != task.worker { return false; }
      var op := ops[task.id];
      var attempts := if op.attempts >= 1 then op.attempts - 1 else 0;
      ops := ops[task.id := op.(status := Pending, availableAt := at, attempts := attempts)];
      return true;
    }

    method ScheduleRetry(task: Task, maxAttempts: nat, now: int)
      requires Valid()
      modifies this`ops
      ensures Valid() && View() == StorageRows.ScheduleRetry(old(View()), task, maxAttempts, now)
    {
      if task.attempts >= maxAttempts {
        var failed := FinishOperation(task, GivenUp, now);
        return;
      }
      if task.id in ops && ops[task.id].status.Claimed? && ops[task.id].status.worker == task.worker {
        ops := ops[task.id := ops[task.id].(status := Pending, availableAt := now + RetryBackoff(task.attempts))];
      }
    }

    /** One `INSERT .. ON CONFLICT DO NOTHING`. */
    method Insert(o: ObjectId, kind: Kind, revision: nat, at: int)
      requires Valid()
      modifies this`ops, this`nextOp
      ensures Valid() && nextOp == old(nextOp) + 1 && objects == old(objects)
      ensures View() == Enqueue(old(View()), o, kind, revision, at, old(nextOp))
    {
      var open := exists id :: id in ops && ops[id].target == o && ops[id].kind == kind && Open(ops[id].status);
      assert open == HasOpen(View(), o, kind) by {
        if open {
          var id :| id in ops && ops[id].target == o && ops[id].kind == kind && Open(ops[id].status);
          assert IsOpen(View(), id, o, kind);
        }
      }
      if !open { ops := ops[nextOp := Op(o, kind, revision, Pending, 0, at, None)]; }
      nextOp := nextOp + 1;
    }

    // ---------------------------------------------------------------- reconcile

    /** `reconcile_upload`. A pending upload whose grant has expired is failed, and both of its bodies get
        a clean-up, in one transaction; an error rolls everything back. */
    method ReconcileUpload(task: Task, now: int) returns (ok: bool)
      requires Valid() && task.kind.Reconcile? && CopiedFrom(View(), task)
      modifies this`objects, this`ops, this`nextOp
      ensures Valid()
      ensures !ok ==> View() == old(View())
      ensures task.target !in old(objects) ==> !ok
      ensures ok && Holds(old(View()), task) ==>
                var row := old(objects)[task.target];
                if row.revision != task.revision || !row.status.Uploading? then
                  View() == FinishOp(old(View()), task, Cancelled, now)
                else if row.expiresAt > now then
                  View() == Postpone(old(View()), task, row.expiresAt)
                else
                  && View() == ExpireUpload(old(View()), task, old(nextOp), old(nextOp) + 1, now)
                  && HasOpen(View(), task.target, DeleteUpload) && HasOpen(View(), task.target, Delete)
      ensures !Holds(old(View()), task) ==> View() == old(View())
      ensures Holds(old(View()), task) && task.target in old(objects) ==>
                && ok
                && var before, row := old(View()), old(objects)[task.target];
                if row.revision != task.revision || !row.status.Uploading? then
                  objects == old(objects) && EndsAs(before, View(), task, Cancelled, now)
                else if now < row.expiresAt then WaitsUntil(before, View(), task, row.expiresAt)
                else UploadFails(before, View(), task, now)
    {
      ghost var before := View();
      if task.target !in objects { return false; }
      var row := objects[task.target];
      if Holds(View(), task) {
        FinishWrites(before, task, Cancelled, now);
        PostponeWrites(before, task, row.expiresAt);
        ExpireWrites(before, task, nextOp, nextOp + 1, now);
      }
      hide UploadFails, ExpireUpload, HasOpen, EndsAs, WaitsUntil;
      if row.revision != task.revision || !row.status.Uploading? {
        ok := FinishOperation(task, Cancelled, now);
        return;
      }
      if row.expiresAt > now {
        var rescheduled := PostponeOperation(task, row.expiresAt);
        return true;
      }
      if task.id !in ops || !ops[task.id].status.Claimed? || ops[task.id].status.worker != task.worker {
        // complete_operation would fail at the end: the transaction rolls back
        return false;
      }
      FailExpiredUpload(task, row, now);
      return true;
    }

    /** The writes of an expired upload: the object, its two clean-ups, the operation. */
    method FailExpiredUpload(task: Task, row: Object, now: int)
      requires Valid() && task.kind.Reconcile? && CopiedFrom(View(), task) && Holds(View(), task)
      requires task.target in objects && row == objects[task.target]
      modifies this`objects, this`ops, this`nextOp
      ensures Valid() && View() == ExpireUpload(old(View()), task, old(nextOp), old(nextOp) + 1, now)
      ensures HasOpen(View(), task.target, DeleteUpload) && HasOpen(View(), task.target, Delete)
    {
      ghost var t, first := View(), nextOp;
      ghost var t1 := PutObject(t, task.target, row.(status := Failed, revision := row.revision + 1));
      ghost var t2 := Enqueue(t1, task.target, DeleteUpload, row.revision + 1, row.expiresAt + CLOCK_GRACE, first);
      ghost var t3 := Enqueue(t2, task.target, Delete, row.revision + 1, now, first + 1);
      objects := objects[task.target := row.(status := Failed, revision := row.revision + 1)];
      for i := 0 to 2
        invariant Valid() && nextOp == first + i
        invariant View() == if i == 0 then t1 else if i == 1 then t2 else t3
      {
        var cleanup := if i == 0 then DeleteUpload else Delete;
        var at := if i == 0 then row.expiresAt + CLOCK_GRACE else now;
        Insert(task.target, cleanup, row.revision + 1, at);
      }
      EnqueueOpens(t1, task.target, DeleteUpload, row.revision + 1, row.expiresAt + CLOCK_GRACE, first);
      EnqueueOpens(t2, task.target, Delete, row.revision + 1, now, first + 1);
      var ok := FinishOperation(task, Completed, now);
      StillOpen(t3, View(), task, DeleteUpload);
      StillOpen(t3, View(), task, Delete);
    }

    // ---------------------------------------------------------------- delete_upload

    /** `delete_upload`. The staging body is deleted at once, but the operation is completed only after the
        last upload is over and the body was seen absent; a rollback does not undo the deletion. */
    method DeleteUploadBody(task: Task, maxUpload: nat, now: int) returns (ok: bool)
      requires Valid() && task.kind.DeleteUpload?
      modifies this`ops, this`staging, this`final, this`trouble
      ensures Valid() && final == old(final) && (staging == old(staging) || staging == old(staging) - {task.target})
      ensures staging != old(staging) ==>
                task.target in objects && objects[task.target].revision == task.revision
                    && !objects[task.target].status.Uploading?
      ensures !ok ==> ops == old(ops)
      ensures ok ==>
                && task.target in objects && Holds(old(View()), task)
                && var row := objects[task.target];
                if row.revision != task.revision || row.status.Uploading? then
                  View() == FinishOp(old(View()), task, Cancelled, now)
                else
                  && task.target !in staging
                  && var last := TerminalCleanupAt(row.expiresAt, maxUpload);
                  View() == if now < last then Postpone(old(View()), task, last)
                      else FinishStaging(old(View()), task, now)
      ensures old(trouble) ==> trouble
      ensures ok ==>
                var row, before := objects[task.target], old(View());
                if row.revision != task.revision || row.status.Uploading? then
                    EndsAs(before, View(), task, Cancelled, now)
                else if now < row.expiresAt + maxUpload + 5 then
                  WaitsUntil(before, View(), task, row.expiresAt + maxUpload + 5)
                else task.target !in staging && StagingEnds(before, View(), task, now)
      ensures !ok && !trouble ==>
                task.target !in objects || !Holds(old(View()), task) || task.target in staging
    {
      ghost var before := View();
      if Holds(before, task) {
        FinishWrites(before, task, Cancelled, now);
        FinishStagingWrites(before, task, now);
        if task.target in objects {
          PostponeWrites(before, task, TerminalCleanupAt(objects[task.target].expiresAt, maxUpload));
        }
      }
      hide StagingEnds, WaitsUntil, EndsAs, Postpone;
      if task.target !in objects { return false; }
      var row := objects[task.target];
      if row.revision != task.revision || row.status.Uploading? {
        ok := FinishOperation(task, Cancelled, now);
        return;
      }
      var wrongBucket: bool := *;
      trouble := trouble || wrongBucket;
      if wrongBucket { return false; }
      var deleted := DeleteBody(StagingKey, task.target);
      if !deleted { return false; }
      var last := TerminalCleanupAt(row.expiresAt, maxUpload);
      if now < last {
        ok := PostponeOperation(task, last);
        return;
      }
      var answered: bool := *;
      trouble := trouble || !answered;
      if !answered || task.target in staging { return false; }
      ok := FinishOperation(task, Completed, now);
      if !ok { return; }
      ops := map id | id in ops ::
        if ops[id].target == task.target && ops[id].kind.Delete? && ops[id].revision == task.revision
            && ops[id].status.Pending?
        then ops[id].(availableAt := if ops[id].availableAt <= now then ops[id].availableAt else now)
        else ops[id];
    }

    // ---------------------------------------------------------------- delete

    /** `defer_final_delete_for_staging_cleanup`, its query: when the earliest unfinished staging clean-up of
        this revision may have come further, unless one has been completed at any revision. */
    method StagingCleanupRetryAt(task: Task, retryAfter: nat, staleAfter: nat, now: int) returns (at: Option<int>)
      ensures at.None? <==> GatePasses(View(), task)
      ensures at.Some? ==> DefersTo(View(), task, now, retryAfter, staleAfter, at.value)
      ensures at.Some? <==>
                && (forall id | id in ops && ops[id].target == task.target && ops[id].kind.DeleteUpload? ::
                      !ops[id].status.Completed?)
                && exists id :: id in ops && ops[id].target == task.target && ops[id].kind.DeleteUpload?
                                && ops[id].revision == task.revision && !ops[id].status.Completed?
                                && !ops[id].status.Cancelled?
    {
      GateColumns(View(), task);
      var done := exists id ::
          id in ops && ops[id].target == task.target && ops[id].kind.DeleteUpload? && ops[id].status.Completed?;
      if done {
        ghost var id :| id in ops && ops[id].target == task.target && ops[id].kind.DeleteUpload?
            && ops[id].status.Completed?;
        assert StagingDone(View(), id, task.target);
        return None;
      }
      assert !AnyStagingDone(View(), task.target);
      at := None;
      var rest := ops.Keys;
      while rest != {}
        invariant rest <= ops.Keys
        invariant at.None? ==> forall id | id in ops && id !in rest :: !StagingUndone(View(), id, task)
        invariant at.Some? ==>
                    && (exists id ::
                          StagingUndone(View(), id, task)
                          && at.value == UndoneUntil(ops[id], now, retryAfter, staleAfter))
                    && (forall id | id !in rest && StagingUndone(View(), id, task) ::
                          at.value <= UndoneUntil(ops[id], now, retryAfter, staleAfter))
      {
        var id :| id in rest;
        rest := rest - {id};
        var op := ops[id];
        if op.target == task.target && op.kind.DeleteUpload? && op.revision == task.revision
           && (Open(op.status) || op.status.GivenUp?) {
          assert StagingUndone(View(), id, task);
          var until := UndoneUntil(op, now, retryAfter, staleAfter);
          if at.None? || until < at.value { at := Some(until); }
        }
      }
    }

    /** `delete_object`. The final body is deleted only for an object that has failed or is being deleted,
        at the operation's revision; it is `deleted` only after that, and for an object being deleted only
        once its staging clean-up is no longer outstanding. */
    method DeleteObject(task: Task, retryAfter: nat, staleAfter: nat, now: int) returns (ok: bool)
      requires Valid() && task.kind.Delete?
      modifies this`objects, this`ops, this`staging, this`final, this`trouble
      ensures Valid() && staging == old(staging) && (final == old(final) || final == old(final) - {task.target})
      ensures final != old(final) ==>
                && task.target in old(objects) && old(objects)[task.target].revision == task.revision
                && Deletable(Delete, old(objects)[task.target].status)
                && (old(objects)[task.target].status.Deleting? ==> GatePasses(old(View()), task))
      ensures !ok ==> View() == old(View())
      ensures ok ==>
                && task.target in old(objects) && Holds(old(View()), task)
                && var row := old(objects)[task.target];
                if row.revision == task.revision && row.status.Deleted? then
                  View() == FinishOp(old(View()), task, Completed, now)
                else if row.revision != task.revision || !Deletable(Delete, row.status) then
                  View() == FinishOp(old(View()), task, Cancelled, now)
                else if row.status.Deleting? && !GatePasses(old(View()), task) then
                  exists at :: DefersTo(old(View()), task, now, retryAfter, staleAfter, at)
                      && View() == Postpone(old(View()), task, at)
                else
                  task.target !in final && View() == FinishDelete(old(View()), task, now)
      ensures old(trouble) ==> trouble
      ensures ok ==>
                var row, before := old(objects)[task.target], old(View());
                if row.revision == task.revision && row.status.Deleted? then
                  objects == old(objects) && EndsAs(before, View(), task, Completed, now)
                else if row.revision != task.revision || row.status.Uploading? || row.status.Ready? then
                  objects == old(objects) && EndsAs(before, View(), task, Cancelled, now)
                else if row.status.Deleting? && !GatePasses(before, task) then
                  exists at :: now < at && WaitsUntil(before, View(), task, at)
                else
                  task.target !in final && DeleteEnds(before, View(), task, now)
      ensures !ok && !trouble ==> task.target !in old(objects) || !Holds(old(View()), task)
    {
      ghost var before := View();
      if Holds(before, task) {
        FinishWrites(before, task, Cancelled, now);
        FinishWrites(before, task, Completed, now);
        if task.target in objects { FinishDeleteWrites(before, task, now); }
      }
      hide DeleteEnds, EndsAs, WaitsUntil;
      if task.target !in objects { return false; }
      var row := objects[task.target];
      if row.revision != task.revision {
        ok := FinishOperation(task, Cancelled, now);
        return;
      }
      if row.status.Deleted? {
        ok := FinishOperation(task, Completed, now);
        return;
      }
      if !row.status.Deleting? && !row.status.Failed? {
        ok := FinishOperation(task, Cancelled, now);
        return;
      }
      var wrongBucket: bool := *;
      trouble := trouble || wrongBucket;
      if wrongBucket { return false; }
      if row.status.Deleting? {
        var at := StagingCleanupRetryAt(task, retryAfter, staleAfter, now);
        if at.Some? {
          if Holds(before, task) {
            PostponeWrites(before, task, at.value);
            DeferredLater(before, task, now, retryAfter, staleAfter, at.value);
          }
          ok := PostponeOperation(task, at.value);
          return;
        }
      }
      var deleted := DeleteBody(FinalKey, task.target);
      if !deleted { return false; }
      ok := FinishOperation(task, Completed, now);
      if !ok { return; }
      if row.status.Deleting? {
        objects := objects[task.target := row.(status := Deleted, revision := row.revision + 1)];
      }
    }

    // ---------------------------------------------------------------- the loop

    method ExecuteOperation(task: Task, cfg: Config, now: int) returns (ok: bool)
      requires Valid() && CopiedFrom(View(), task)
      modifies this
      ensures Valid() && (!ok ==> View() == old(View()))
      ensures ok && Holds(old(View()), task) ==> task.id in ops && !ops[task.id].status.Claimed?
      ensures OnlyClaims(old(View()), View())
    {
      match task.kind {
        case Reconcile => ok := ReconcileUpload(task, now);
        case DeleteUpload => ok := DeleteUploadBody(task, cfg.maxUpload, now);
        case Delete => ok := DeleteObject(task, cfg.retryAfter, cfg.staleAfter, now);
      }
    }

    /** `process_available_operations`: at most 128 operations, and none that the cycle claims is left claimed; a cycle
        that ends before them, and was not told to, leaves no operation that is due. */
    method ProcessAvailableOperations(worker: WorkerId, cfg: Config, maxAttempts: nat,
                                      now: int) returns (claimed: set<OpId>, turns: nat, stopped: bool)
      requires Valid()
      modifies this
      ensures Valid() && |claimed| <= turns <= 128
      ensures !stopped && turns < 128 ==> forall id | id in ops :: ops[id].status.Pending? ==> now < ops[id].availableAt
      ensures OnlyClaims(old(View()), View())
    {
      claimed, turns, stopped := {}, 0, false;
      for i := 0 to 128
        invariant Valid() && |claimed| <= i && turns == i && !stopped && OnlyClaims(old(View()), View())
      {
        stopped := *;
        if stopped { return; }
        var task := ClaimOperation(worker, now);
        if task.None? { return; }
        var ok := ExecuteOperation(task.value, cfg, now);
        if !ok { ScheduleRetry(task.value, maxAttempts, now); }
        assert task.value.id in ops && !ops[task.value.id].status.Claimed?;
        claimed, turns := claimed + {task.value.id}, turns + 1;
      }
    }
  }

  lemma DeferredLater(t: Tables, task: Task, now: int, retryAfter: nat, staleAfter: nat, at: int)
    requires DefersTo(t, task, now, retryAfter, staleAfter, at)
    ensures now < at
  {
    var id :| StagingUndone(t, id, task) && at == UndoneUntil(t.ops[id], now, retryAfter, staleAfter);
    UndoneColumns(t.ops[id], now, retryAfter, staleAfter);
  }

  /** The gate, column by column: no staging clean-up of the object is completed, and one of this revision is neither
      that nor cancelled. */
  lemma GateColumns(t: Tables, task: Task)
    ensures !GatePasses(t, task) <==>
              && (forall id | id in t.ops && t.ops[id].target == task.target && t.ops[id].kind.DeleteUpload? ::
                    !t.ops[id].status.Completed?)
              && exists id :: id in t.ops && t.ops[id].target == task.target && t.ops[id].kind.DeleteUpload?
                              && t.ops[id].revision == task.revision && !t.ops[id].status.Completed?
                              && !t.ops[id].status.Cancelled?
  {
    if !GatePasses(t, task) {
      forall id | id in t.ops && t.ops[id].target == task.target && t.ops[id].kind.DeleteUpload?
        ensures !t.ops[id].status.Completed?
      {
        assert !StagingDone(t, id, task.target);
      }
      var id :| StagingUndone(t, id, task);
      assert id in t.ops;
    }
    if GatePasses(t, task) {
      if id :| StagingDone(t, id, task.target) {
        assert t.ops[id].status.Completed?;
      } else {
        forall id | id in t.ops && t.ops[id].target == task.target && t.ops[id].kind.DeleteUpload?
                    && t.ops[id].revision == task.revision
          ensures t.ops[id].status.Completed? || t.ops[id].status.Cancelled?
        {
          assert !StagingUndone(t, id, task);
        }
      }
    }
  }

  lemma EnqueueOpens(t: Tables, o: ObjectId, kind: Kind, revision: nat, at: int, id: OpId)
    requires id !in t.ops
    ensures var t' := Enqueue(t, o, kind, revision, at, id);
            && HasOpen(t', o, kind) && t'.objects == t.objects
            && (forall k | k in t.ops :: k in t'.ops && t'.ops[k] == t.ops[k])
            && (forall other | HasOpen(t, o, other) :: HasOpen(t', o, other))
  {
    var t' := Enqueue(t, o, kind, revision, at, id);
    if !HasOpen(t, o, kind) { assert IsOpen(t', id, o, kind); }
    forall other | HasOpen(t, o, other) ensures HasOpen(t', o, other) {
      var k :| IsOpen(t, k, o, other);
      assert IsOpen(t', k, o, other);
    }
  }

  lemma StillOpen(t: Tables, t': Tables, task: Task, kind: Kind)
    requires HasOpen(t, task.target, kind) && task.id in t.ops && t.ops[task.id].kind != kind
    requires task.id in t'.ops && t'.ops == t.ops[task.id := t'.ops[task.id]]
    ensures HasOpen(t', task.target, kind)
  {
    var id :| IsOpen(t, id, task.target, kind);
    assert IsOpen(t', id, task.target, kind);
  }
}
