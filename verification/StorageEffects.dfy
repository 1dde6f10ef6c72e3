/** What the transactions on the object tables do, read off the stored columns. */
module StorageEffects {
  import opened Options
  import opened Retries
  import opened StorageRows

  /** Only the task's own operation is written, and it ends with this status, now. */
  predicate EndsAs(t: Tables, t': Tables, task: Task, status: OpStatus, now: int) {
    && task.id in t.ops
    && t'.ops == t.ops[task.id := t.ops[task.id].(status := status, completedAt := Some(now))]
  }

  /** The task's operation waits again, the attempt not counted, and nothing else is written. */
  predicate WaitsUntil(t: Tables, t': Tables, task: Task, at: int) {
    && task.id in t.ops && t'.objects == t.objects
    && t'.ops == t.ops[task.id := t.ops[task.id].(
                   status := Pending, availableAt := at,
                   attempts := if t.ops[task.id].attempts == 0 then 0 else t.ops[task.id].attempts - 1)]
  }

  lemma PostponeWrites(t: Tables, task: Task, at: int)
    requires Holds(t, task)
    ensures WaitsUntil(t, Postpone(t, task, at), task, at)
  {
  }

  lemma FinishWrites(t: Tables, task: Task, status: OpStatus, now: int)
    requires Holds(t, task)
    ensures FinishOp(t, task, status, now).objects == t.objects
    ensures EndsAs(t, FinishOp(t, task, status, now), task, status, now)
  {
  }

  lemma ClaimWrites(t: Tables, id: OpId, w: WorkerId, now: int)
    requires id in t.ops
    ensures var t', op := ClaimOp(t, id, w, now), t.ops[id];
            && t'.objects == t.objects
            && t'.ops == t.ops[id := op.(status := Claimed(w, now), attempts := op.attempts + 1)]
            && TaskOf(t', id, w) == Task(id, op.target, op.kind, op.revision, op.attempts + 1, w)
  {
  }

  lemma RetryWrites(t: Tables, task: Task, maxAttempts: nat, now: int)
    ensures var t' := ScheduleRetry(t, task, maxAttempts, now);
            && t'.objects == t.objects
            && if !Holds(t, task) then t' == t
               else if task.attempts < maxAttempts then
                 t'.ops == t.ops[task.id := t.ops[task.id].(
                             status := Pending, availableAt := now + RetryBackoff(task.attempts))]
               else EndsAs(t, t', task, GivenUp, now)
  {
  }

  /** The end of the clean-up makes the deferred deletes of its revision due, and touches no other operation. */
  predicate StagingEnds(t: Tables, t': Tables, task: Task, now: int) {
    && task.id in t.ops && t'.objects == t.objects && t'.ops.Keys == t.ops.Keys
    && t'.ops[task.id] == t.ops[task.id].(status := Completed, completedAt := Some(now))
    && forall id | id in t.ops && id != task.id ::
         var op := t.ops[id];
         if op.target == task.target && op.kind.Delete? && op.revision == task.revision && op.status.Pending?
            && now < op.availableAt
         then t'.ops[id] == op.(availableAt := now)
         else t'.ops[id] == op
  }

  lemma FinishStagingWrites(t: Tables, task: Task, now: int)
    requires Holds(t, task)
    ensures StagingEnds(t, FinishStaging(t, task, now), task, now)
  {
  }

  /** An object that was being deleted is deleted, at the next revision and with its expiry; one that has failed stays
      as it is. */
  predicate DeleteEnds(t: Tables, t': Tables, task: Task, now: int) {
    && EndsAs(t, t', task, Completed, now) && task.target in t.objects
    && var row := t.objects[task.target];
    t'.objects == if row.status.Deleting?
                  then t.objects[task.target := Object(Deleted, row.revision + 1, row.expiresAt)] else t.objects
  }

  lemma FinishDeleteWrites(t: Tables, task: Task, now: int)
    requires Holds(t, task) && task.target in t.objects
    ensures DeleteEnds(t, FinishDelete(t, task, now), task, now)
  {
  }

  /** A clean-up of this kind is queued for this revision, unless one is open: then nothing is inserted. */
  ghost predicate Queued(t: Tables, t': Tables, o: ObjectId, kind: Kind, revision: nat, at: int) {
    if exists id :: id in t.ops && t.ops[id].target == o && t.ops[id].kind == kind
                    && (t.ops[id].status.Pending? || t.ops[id].status.Claimed?)
    then forall id | id in t'.ops && id !in t.ops :: t'.ops[id].target != o || t'.ops[id].kind != kind
    else exists id :: id in t'.ops && id !in t.ops && t'.ops[id] == Op(o, kind, revision, Pending, 0, at, None)
  }

  /** The upload has failed at the next revision, both of its bodies get a clean-up, the staging body's five seconds
      after the grant has expired, and the reconciliation is done. */
  ghost predicate UploadFails(t: Tables, t': Tables, task: Task, now: int) {
    && task.id in t.ops && task.target in t.objects
    && var row := t.objects[task.target];
    && t'.objects == t.objects[task.target := Object(Failed, row.revision + 1, row.expiresAt)]
    && t.ops.Keys <= t'.ops.Keys
    && t'.ops[task.id] == t.ops[task.id].(status := Completed, completedAt := Some(now))
    && (forall id | id in t.ops && id != task.id :: t'.ops[id] == t.ops[id])
    && (forall id | id in t'.ops && id !in t.ops :: t'.ops[id].target == task.target && !t'.ops[id].kind.Reconcile?)
    && Queued(t, t', task.target, DeleteUpload, row.revision + 1, row.expiresAt + 5)
    && Queued(t, t', task.target, Delete, row.revision + 1, now)
  }

  lemma OpenExactly(t: Tables, o: ObjectId, kind: Kind)
    ensures HasOpen(t, o, kind) <==>
              exists id :: id in t.ops && t.ops[id].target == o && t.ops[id].kind == kind
                           && (t.ops[id].status.Pending? || t.ops[id].status.Claimed?)
  {
    if HasOpen(t, o, kind) {
      var id :| IsOpen(t, id, o, kind);
      assert id in t.ops;
    }
    if exists id :: id in t.ops && t.ops[id].target == o && t.ops[id].kind == kind
                    && (t.ops[id].status.Pending? || t.ops[id].status.Claimed?)
    {
      var id :| id in t.ops && t.ops[id].target == o && t.ops[id].kind == kind
                && (t.ops[id].status.Pending? || t.ops[id].status.Claimed?);
      assert IsOpen(t, id, o, kind);
    }
  }

  lemma QueuedBy(t: Tables, t': Tables, o: ObjectId, kind: Kind, revision: nat, at: int, id: OpId)
    requires id !in t.ops
    requires if HasOpen(t, o, kind)
             then forall k | k in t'.ops && k !in t.ops :: t'.ops[k].target != o || t'.ops[k].kind != kind
             else id in t'.ops && t'.ops[id] == Op(o, kind, revision, Pending, 0, at, None)
    ensures Queued(t, t', o, kind, revision, at)
  {
    OpenExactly(t, o, kind);
    hide HasOpen;
  }

  /** The operations after a failed upload, row by row. */
  lemma ExpiredOps(t: Tables, task: Task, id: OpId, id': OpId, now: int)
    requires Holds(t, task) && task.target in t.objects && id !in t.ops && id' !in t.ops && id != id'
    ensures var o, row, t' := task.target, t.objects[task.target], ExpireUpload(t, task, id, id', now);
            var staging, final :=
              Op(o, DeleteUpload, row.revision + 1, Pending, 0, row.expiresAt + 5, None),
              Op(o, Delete, row.revision + 1, Pending, 0, now, None);
            var ops := if HasOpen(t, o, DeleteUpload) then t.ops else t.ops[id := staging];
            var ops' := if HasOpen(t, o, Delete) then ops else ops[id' := final];
            && t'.objects == t.objects[o := Object(Failed, row.revision + 1, row.expiresAt)]
            && t'.ops == ops'[task.id := t.ops[task.id].(status := Completed, completedAt := Some(now))]
  {
    var o, row := task.target, t.objects[task.target];
    var t1 := PutObject(t, o, row.(status := Failed, revision := row.revision + 1));
    var t2 := Enqueue(t1, o, DeleteUpload, row.revision + 1, row.expiresAt + CLOCK_GRACE, id);
    SameOpen(t, t1, o, DeleteUpload);
    SameOpen(t, t1, o, Delete);
    OneMoreOpen(t1, t2, o, id);
    hide HasOpen;
  }

  lemma ExpireWrites(t: Tables, task: Task, id: OpId, id': OpId, now: int)
    requires Holds(t, task) && task.target in t.objects && id !in t.ops && id' !in t.ops && id != id'
    ensures UploadFails(t, ExpireUpload(t, task, id, id', now), task, now)
  {
    var o, row, t' := task.target, t.objects[task.target], ExpireUpload(t, task, id, id', now);
    ExpiredOps(t, task, id, id', now);
    hide HasOpen, Queued, ExpireUpload;
    assert Queued(t, t', o, DeleteUpload, row.revision + 1, row.expiresAt + 5) by {
      QueuedBy(t, t', o, DeleteUpload, row.revision + 1, row.expiresAt + 5, id);
    }
    assert Queued(t, t', o, Delete, row.revision + 1, now) by {
      QueuedBy(t, t', o, Delete, row.revision + 1, now, id');
    }
  }

  lemma SameOpen(t: Tables, t': Tables, o: ObjectId, kind: Kind)
    requires t'.ops == t.ops
    ensures HasOpen(t', o, kind) <==> HasOpen(t, o, kind)
  {
    if HasOpen(t, o, kind) {
      var k :| IsOpen(t, k, o, kind);
      assert IsOpen(t', k, o, kind);
    }
    if HasOpen(t', o, kind) {
      var k :| IsOpen(t', k, o, kind);
      assert IsOpen(t, k, o, kind);
    }
  }

  /** A staging clean-up more changes nothing for the deletes. */
  lemma OneMoreOpen(t: Tables, t': Tables, o: ObjectId, id: OpId)
    requires id !in t.ops
               && (t' == t || (id in t'.ops && t'.ops == t.ops[id := t'.ops[id]] && t'.ops[id].kind.DeleteUpload?))
    ensures HasOpen(t', o, Delete) <==> HasOpen(t, o, Delete)
  {
    if HasOpen(t, o, Delete) {
      var k :| IsOpen(t, k, o, Delete);
      assert IsOpen(t', k, o, Delete);
    }
    if HasOpen(t', o, Delete) {
      var k :| IsOpen(t', k, o, Delete);
      assert IsOpen(t, k, o, Delete);
    }
  }

  /** When an unfinished staging clean-up may have come further: when it is due, when its claim is stale, or when it
      is tried again after it was given up; in a second at the earliest. */
  lemma UndoneColumns(op: Op, now: int, retryAfter: nat, staleAfter: nat)
    ensures var at := UndoneUntil(op, now, retryAfter, staleAfter);
            && now + 1 <= at
            && (op.status.Pending? ==> at == if op.availableAt > now then op.availableAt else now + 1)
            && (op.status.Claimed? ==>
                  at == if op.status.at + staleAfter > now then op.status.at + staleAfter else now + 1)
            && (op.status.GivenUp? && op.completedAt.Some? ==>
                  at == if op.completedAt.value + retryAfter > now then op.completedAt.value + retryAfter else now + 1)
            && (op.status.GivenUp? && op.completedAt.None? ==>
                  at == if retryAfter > 0 then now + retryAfter else now + 1)
  {
  }

  /** A pending upload comes with its reconciliation, due when its grant expires. */
  lemma UploadCreated(t: Tables, o: ObjectId, expiresAt: int, id: OpId)
    ensures var t' := CreateUpload(t, o, expiresAt, id);
            && t'.objects == t.objects[o := Object(Uploading, 1, expiresAt)]
            && t'.ops == t.ops[id := Op(o, Reconcile, 1, Pending, 0, expiresAt, None)]
  {
  }

  /** A promoted upload is ready at the next revision, is reconciled no more, and gets a staging clean-up. */
  lemma UploadPromoted(t: Tables, o: ObjectId, id: OpId, now: int)
    requires o in t.objects && id !in t.ops
    ensures var t', row := PromoteUpload(t, o, id, now), t.objects[o];
            && t'.objects == t.objects[o := Object(Ready, row.revision + 1, row.expiresAt)]
            && (forall k | k in t.ops ::
                  k in t'.ops
                  && var op := t.ops[k];
                  t'.ops[k] == if op.target == o && op.kind.Reconcile? && (op.status.Pending? || op.status.Claimed?)
                               then op.(status := Cancelled, completedAt := Some(now)) else op)
            && Queued(t, t', o, DeleteUpload, row.revision + 1, row.expiresAt + 5)
  {
    var row := t.objects[o];
    var t1 := CancelOpen(PutObject(t, o, row.(status := Ready, revision := row.revision + 1)), o, {Reconcile}, now);
    OpenExactly(t, o, DeleteUpload);
    assert HasOpen(t1, o, DeleteUpload) <==> HasOpen(t, o, DeleteUpload) by {
      if HasOpen(t, o, DeleteUpload) {
        var k :| IsOpen(t, k, o, DeleteUpload);
        assert IsOpen(t1, k, o, DeleteUpload);
      }
      if HasOpen(t1, o, DeleteUpload) {
        var k :| IsOpen(t1, k, o, DeleteUpload);
        assert IsOpen(t, k, o, DeleteUpload);
      }
    }
    hide HasOpen;
    var t' := PromoteUpload(t, o, id, now);
    if !HasOpen(t, o, DeleteUpload) {
      assert t'.ops[id] == Op(o, DeleteUpload, row.revision + 1, Pending, 0, row.expiresAt + 5, None);
    }
  }

  /** What the safety passes look for: an expired upload, a body in staging, or the final body of an object that has
      failed or is being deleted, whose clean-up is neither open, done, nor given up within the retry window. */
  ghost predicate Wanted(t: Tables, o: ObjectId, kind: Kind, retryAfter: nat, now: int) {
    && o in t.objects
    && var row := t.objects[o];
    && (kind.Reconcile? ==> row.status.Uploading? && row.expiresAt <= now)
    && (kind.DeleteUpload? ==> !row.status.Uploading?)
    && (kind.Delete? ==> row.status.Failed? || row.status.Deleting?)
    && (forall id | id in t.ops && t.ops[id].target == o && t.ops[id].kind == kind ::
          && !t.ops[id].status.Pending? && !t.ops[id].status.Claimed?
          && (t.ops[id].status.Completed? ==> kind.Reconcile? || (kind.Delete? && t.ops[id].revision != row.revision))
          && (t.ops[id].status.GivenUp? && t.ops[id].revision == row.revision && t.ops[id].completedAt.Some? ==>
                t.ops[id].completedAt.value <= now - retryAfter))
  }

  lemma MissingExactly(t: Tables, o: ObjectId, kind: Kind, retryAfter: nat, now: int)
    ensures Missing(t, o, kind, retryAfter, now) <==> Wanted(t, o, kind, retryAfter, now)
    ensures o in t.objects ==>
              CleanupDueAt(t.objects[o], kind, now)
              == if kind.DeleteUpload? && t.objects[o].expiresAt + 5 > now then t.objects[o].expiresAt + 5 else now
  {
    OpenExactly(t, o, kind);
    if Missing(t, o, kind, retryAfter, now) {
      forall id | id in t.ops && t.ops[id].target == o && t.ops[id].kind == kind
        ensures t.ops[id].status.Completed? ==>
                  kind.Reconcile? || (kind.Delete? && t.ops[id].revision != t.objects[o].revision)
        ensures t.ops[id].status.GivenUp? && t.ops[id].revision == t.objects[o].revision
                  && t.ops[id].completedAt.Some? ==>
                  t.ops[id].completedAt.value <= now - retryAfter
      {
        assert !DoneAlready(t, id, o, kind, t.objects[o].revision)
               && !GivenUpRecently(t, id, o, kind, t.objects[o].revision, retryAfter, now);
      }
    }
  }
}
