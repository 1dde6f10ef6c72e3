/** What is always possible in the object-storage control plane: where a maintenance worker waits for the outside, that
    it is stuck nowhere else, and that no DELETE is ever known to be over. */
module StorageProgress {
  import opened Options
  import opened StorageRows
  import opened StorageProtocol
  import opened StorageSafety

  /** The worker can take a step on its operation, other than to roll back. */
  ghost predicate CanMove(cfg: Config, w: World, k: WorkerId) {
    exists l, w' :: OnTask(l) && l.k == k && !l.Fail? && Step(cfg, w, w', l)
  }

  lemma Moves(cfg: Config, w: World, w': World, l: Label, k: WorkerId)
    requires Doing(w, k).Busy? && OnTask(l) && l.k == k && !l.Fail?
    requires TaskStep(cfg, w, w', l, k, Doing(w, k).task, Doing(w, k).pc)
    ensures CanMove(cfg, w, k)
  {
    hide TaskStep;
    assert Step(cfg, w, w', l);
  }

  /** The row is locked by somebody else, the DELETE has not taken effect, or the staging body is there still. */
  ghost predicate Waits(w: World, k: WorkerId, task: Task, pc: Pc) {
    match pc
    case Taken => !Unlocked(w, task.target)
    case Deleting(_, _, landed) => !landed
    case Quiescent(_) => task.target in w.staging
    case _ => false
  }

  lemma WaitingHolds(cfg: Config, w: World, k: WorkerId)
    requires Doing(w, k).Busy? && Waits(w, k, Doing(w, k).task, Doing(w, k).pc)
    ensures !CanMove(cfg, w, k)
  {
    hide Unlocked, GatePasses, DefersTo, ExpireUpload, FinishStaging, FinishDelete;
  }

  /** The steps of a working worker end only there. */
  lemma NeverStuck(cfg: Config, w: World, k: WorkerId)
    requires Inv(cfg, w) && Doing(w, k).Busy?
    ensures CanMove(cfg, w, k) <==> !Waits(w, k, Doing(w, k).task, Doing(w, k).pc)
  {
    var task, pc := Doing(w, k).task, Doing(w, k).pc;
    assert WorkerOk(cfg, w, k);
    hide Inv, CanMove;
    if Waits(w, k, task, pc) {
      WaitingHolds(cfg, w, k);
    } else if pc.Locked? {
      LockedMoves(cfg, w, k);
    } else {
      OtherwiseMoves(cfg, w, k);
    }
  }

  lemma LockedMoves(cfg: Config, w: World, k: WorkerId)
    requires Doing(w, k).Busy? && Doing(w, k).pc.Locked? && TaskOk(cfg, w, Doing(w, k).task, Doing(w, k).pc)
    ensures CanMove(cfg, w, k)
  {
    var task, row, t := Doing(w, k).task, Doing(w, k).pc.row, w.t;
    hide CanMove, GatePasses, DefersTo, ExpireUpload;
    if row.revision != task.revision || (task.kind.Delete? && row.status.Deleted?)
       || (if task.kind.Reconcile? then !row.status.Uploading? else !Deletable(task.kind, row.status))
    {
      var status :=
        if row.revision == task.revision && task.kind.Delete? && row.status.Deleted? then Completed else Cancelled;
      var w' := if Holds(t, task) then Do(w.(t := FinishOp(t, task, status, w.now)), k, Idle)
                else Do(w, k, Busy(task, Erring));
      Moves(cfg, w, w', Refuse(k), k);
    } else if task.kind.Reconcile? {
      ReconcilingMoves(cfg, w, k);
    } else {
      DeletingMoves(cfg, w, k);
    }
  }

  lemma ReconcilingMoves(cfg: Config, w: World, k: WorkerId)
    requires Doing(w, k).Busy? && Doing(w, k).pc.Locked? && TaskOk(cfg, w, Doing(w, k).task, Doing(w, k).pc)
    requires var task, row := Doing(w, k).task, Doing(w, k).pc.row;
             task.kind.Reconcile? && row.revision == task.revision && row.status.Uploading?
    ensures CanMove(cfg, w, k)
  {
    var task, row, t := Doing(w, k).task, Doing(w, k).pc.row, w.t;
    hide CanMove, ExpireUpload;
    if row.expiresAt > w.now {
      var t' := if Holds(t, task) then Postpone(t, task, row.expiresAt) else t;
      Moves(cfg, w, Do(w.(t := t'), k, Idle), NotYet(k), k);
    } else {
      var id := OneBeyond(t.ops.Keys);
      assert id !in t.ops && id + 1 !in t.ops;
      var w' := if Holds(t, task) && Unmoved(t, task.target, row)
                then Do(w.(t := ExpireUpload(t, task, id, id + 1, w.now)), k, Idle)
                else Do(w, k, Busy(task, Erring));
      Moves(cfg, w, w', Expire(k, id, id + 1), k);
    }
  }

  /** A delete that the gate stops is deferred to some time. */
  lemma DeletingMoves(cfg: Config, w: World, k: WorkerId)
    requires Doing(w, k).Busy? && Doing(w, k).pc.Locked?
    requires var task, row := Doing(w, k).task, Doing(w, k).pc.row;
             row.revision == task.revision && Deletable(task.kind, row.status)
    ensures CanMove(cfg, w, k)
  {
    var task, row, t := Doing(w, k).task, Doing(w, k).pc.row, w.t;
    hide CanMove;
    if task.kind.Delete? && row.status.Deleting? && !GatePasses(t, task) {
      var at := EarliestTime(t, task, w.now, cfg.retryAfter, cfg.staleAfter);
      hide GatePasses, DefersTo;
      var w' := if Holds(t, task) then Do(w.(t := Postpone(t, task, at)), k, Idle) else Do(w, k, Busy(task, Erring));
      Moves(cfg, w, w', Defer(k, at), k);
    } else {
      hide GatePasses;
      Moves(cfg, w, Do(w, k, Busy(task, Cleared(row))), Clear(k), k);
    }
  }

  lemma EarliestTime(t: Tables, task: Task, now: int, retryAfter: nat, staleAfter: nat) returns (at: int)
    requires !GatePasses(t, task)
    ensures DefersTo(t, task, now, retryAfter, staleAfter, at)
  {
    var undone := set id | id in t.ops && StagingUndone(t, id, task);
    var some :| StagingUndone(t, some, task);
    assert some in undone;
    var first := EarliestOf(t, undone, now, retryAfter, staleAfter);
    at := UndoneUntil(t.ops[first], now, retryAfter, staleAfter);
    forall id | StagingUndone(t, id, task) ensures at <= UndoneUntil(t.ops[id], now, retryAfter, staleAfter) {
      assert id in undone;
    }
  }

  lemma EarliestOf(t: Tables, ids: set<OpId>, now: int, retryAfter: nat, staleAfter: nat) returns (first: OpId)
    requires ids != {} && ids <= t.ops.Keys
    ensures first in ids
    ensures forall id | id in ids ::
              UndoneUntil(t.ops[first], now, retryAfter, staleAfter)
              <= UndoneUntil(t.ops[id], now, retryAfter, staleAfter)
  {
    first :| first in ids;
    var rest := ids - {first};
    hide UndoneUntil;
    if rest != {} {
      var other := EarliestOf(t, rest, now, retryAfter, staleAfter);
      var at, at' := UndoneUntil(t.ops[first], now, retryAfter, staleAfter),
                     UndoneUntil(t.ops[other], now, retryAfter, staleAfter);
      assert forall id | id in ids :: id == first || id in rest;
      if at' < at { first := other; }
    } else {
      assert ids == {first};
    }
  }

  lemma OtherwiseMoves(cfg: Config, w: World, k: WorkerId)
    requires Doing(w, k).Busy? && !Doing(w, k).pc.Locked? && TaskOk(cfg, w, Doing(w, k).task, Doing(w, k).pc)
    requires !Waits(w, k, Doing(w, k).task, Doing(w, k).pc)
    ensures CanMove(cfg, w, k)
  {
    var task, pc, t := Doing(w, k).task, Doing(w, k).pc, w.t;
    hide CanMove, Unlocked, GatePasses, DefersTo;
    match pc {
      case Taken => Moves(cfg, w, Do(w, k, Busy(task, Locked(t.objects[task.target]))), Begin(k), k);
      case Cleared(row) =>
        Moves(cfg, w, Do(w.(sent := w.sent + {(task.target, KeyFor(task.kind))}),
                         k, Busy(task, Pc.Deleting(row, KeyFor(task.kind), false))), SendDelete(k), k);
      case Deleting(row, key, _) => Moves(cfg, w, Do(w, k, Busy(task, Removed(row, key))), DeleteOk(k), k);
      case Quiescent(row) => Moves(cfg, w, Do(w, k, Busy(task, Verified(row))), SeeAbsent(k), k);
      case Erring => Moves(cfg, w, Do(w.(t := ScheduleRetry(t, task, 0, w.now)), k, Idle), Retry(k, 0), k);
      case _ => RemovedMoves(cfg, w, k);
    }
  }

  lemma RemovedMoves(cfg: Config, w: World, k: WorkerId)
    requires Doing(w, k).Busy? && TaskOk(cfg, w, Doing(w, k).task, Doing(w, k).pc)
    requires Doing(w, k).pc.Removed? || Doing(w, k).pc.Verified?
    ensures CanMove(cfg, w, k)
  {
    var task, pc, t := Doing(w, k).task, Doing(w, k).pc, w.t;
    var at := TerminalCleanupAt(pc.row.expiresAt, cfg.maxUpload);
    hide CanMove, GatePasses, DefersTo, FinishStaging, FinishDelete;
    if pc.Removed? && pc.key.StagingKey? {
      if w.now < at {
        var w' := if Holds(t, task) then Do(w.(t := Postpone(t, task, at)), k, Idle) else Do(w, k, Busy(task, Erring));
        Moves(cfg, w, w', Defer(k, at), k);
      } else {
        Moves(cfg, w, Do(w, k, Busy(task, Quiescent(pc.row))), Quiesce(k), k);
      }
    } else {
      var w' :=
        if !Holds(t, task) then Do(w, k, Busy(task, Erring))
        else if pc.Verified? then Do(w.(t := FinishStaging(t, task, w.now)), k, Idle)
        else if !pc.row.status.Deleting? then Do(w.(t := FinishOp(t, task, Completed, w.now)), k, Idle)
        else if Unmoved(t, task.target, pc.row) then Do(w.(t := FinishDelete(t, task, w.now)), k, Idle)
        else Do(w, k, Busy(task, Erring));
      Moves(cfg, w, w', Commit(k), k);
    }
  }

  // ------------------------------------------------------------------ what nobody is safe from

  /** A DELETE that was ever sent may take effect now, and again later. */
  lemma AnyDeleteMayLand(cfg: Config, w: World, o: ObjectId, key: Key) returns (w': World)
    requires (o, key) in w.sent
    ensures Step(cfg, w, w', DeleteLands(o, key)) && w'.t == w.t && w'.sent == w.sent && w'.now == w.now
    ensures w'.staging == (if key.StagingKey? then w.staging - {o} else w.staging)
    ensures w'.final == (if key.FinalKey? then w.final - {o} else w.final)
    ensures forall k | Doing(w, k).Busy? && Doing(w, k).task.target == o && Doing(w, k).pc.Deleting?
                       && Doing(w, k).pc.key == key :: Doing(w', k).Busy? && Doing(w', k).pc.Deleting?
                                                       && Doing(w', k).pc.landed
  {
    w' := w.(staging := if key.StagingKey? then w.staging - {o} else w.staging,
             final := if key.FinalKey? then w.final - {o} else w.final,
             workers := map k | k in w.workers :: Landed(w.workers[k], o, key));
    hide TaskStep;
  }

  /** An upload that was begun while the store accepts its grant lands at any moment within its time, whatever has
      become of the object; a worker may crash anywhere, and its claims may be recovered at any time. */
  lemma AnyUploadMayLand(cfg: Config, w: World, o: ObjectId, begun: int, k: WorkerId, claimedBefore: int)
    requires o in w.t.objects && begun <= w.t.objects[o].expiresAt + cfg.skew && begun <= w.now <= begun + cfg.maxUpload
    ensures Step(cfg, w, w.(staging := w.staging + {o}), PutLands(o, begun))
    ensures Step(cfg, w, Do(w, k, Idle), Crash(k))
    ensures Step(cfg, w, w.(t := Recover(w.t, claimedBefore, w.now)), RecoverClaims(claimedBefore))
  {
    hide TaskStep;
  }
}
