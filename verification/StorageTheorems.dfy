/** What object storage guarantees over whole runs, with several workers, crashes, deferrals, lost claims
    and deletions that take effect late; and why the grace period may not be shorter than the clock skew. */
module StorageTheorems {
  import opened Options
  import opened StorageRows
  import opened StorageProtocol
  import opened StorageSafety
  import opened StorageEffects
  import opened Retries

  lemma RunStep(cfg: Config, run: seq<World>, labels: seq<Label>, n: nat)
    requires IsRun(cfg, run, labels) && n < |labels|
    ensures Inv(cfg, run[n]) && Inv(cfg, run[n + 1]) && Step(cfg, run[n], run[n + 1], labels[n])
    ensures Onward(run[n], run[n + 1])
  {
    hide Inv, Step, Onward;
    RunKeeps(cfg, run, labels, n);
    StepKeeps(cfg, run[n], run[n + 1], labels[n]);
  }

  lemma OpOnwardFact(w: World, w': World, id: OpId)
    requires Onward(w, w') && id in w.t.ops
    ensures id in w'.t.ops && OpOnward(w.t.ops[id], w'.t.ops[id])
  {
  }

  lemma ObjectOnwardFact(w: World, w': World, o: ObjectId)
    requires Onward(w, w') && o in w.t.objects
    ensures o in w'.t.objects && ObjectOnward(w.t.objects[o], w'.t.objects[o])
  {
  }

  /** A finished operation keeps its outcome. */
  lemma {:induction false} OutcomeIsFinal(cfg: Config, run: seq<World>, labels: seq<Label>, n: nat, m: nat, id: OpId)
    requires IsRun(cfg, run, labels) && n <= m < |run|
    requires id in run[n].t.ops && !Open(run[n].t.ops[id].status)
    ensures id in run[m].t.ops && run[m].t.ops[id] == run[n].t.ops[id]
    decreases m - n
  {
    hide Inv, Step, Onward;
    if n < m {
      RunStep(cfg, run, labels, n);
      OpOnwardFact(run[n], run[n + 1], id);
      OutcomeIsFinal(cfg, run, labels, n + 1, m, id);
    }
  }

  /** Once a staging clean-up is completed, the object's staging body is absent forever, whatever slow
      PUTs, repeated deletions, crashes and other workers do. */
  lemma StagingStaysGone(cfg: Config, run: seq<World>, labels: seq<Label>, n: nat, m: nat, id: OpId, o: ObjectId)
    requires IsRun(cfg, run, labels) && cfg.skew < CLOCK_GRACE && n <= m < |run|
    requires StagingDone(run[n].t, id, o)
    ensures o !in run[m].staging
  {
    hide Step, Onward, ObjectOk, WorkerOk;
    OutcomeIsFinal(cfg, run, labels, n, m, id);
    RunKeeps(cfg, run, labels, m);
    assert OpOk(cfg, run[m], id);
  }

  /** Every DELETE, first or repeated, is sent by a worker that alone holds the object's row and whose copy of
      it, read and judged in earlier steps, is still the stored row: at the operation's revision and in a
      status that permits this DELETE, the staging body's once the upload is over, the final body's once
      the object has failed or is being deleted. */
  lemma DeletesAreFenced(cfg: Config, run: seq<World>, labels: seq<Label>, n: nat)
    requires IsRun(cfg, run, labels) && n < |labels| && labels[n].SendDelete?
    ensures var k := labels[n].k;
            var a := Doing(run[n], k);
            && a.Busy? && a.pc.Cleared?
            && HasLock(a, a.task.target) && (forall j | j != k :: !HasLock(Doing(run[n], j), a.task.target))
            && a.task.target in run[n].t.objects && run[n].t.objects[a.task.target] == a.pc.row
            && a.pc.row.revision == a.task.revision
            && run[n + 1].sent == run[n].sent + {(a.task.target, KeyFor(a.task.kind))}
            && (if a.task.kind.DeleteUpload? then !a.pc.row.status.Uploading?
                else a.task.kind.Delete? && (a.pc.row.status.Failed? || a.pc.row.status.Deleting?))
  {
    RunStep(cfg, run, labels, n);
    var w := run[n];
    hide Step, Onward, OpOk, ObjectOk, Inv;
    var k := ActingWorker(cfg, w, run[n + 1], labels[n]);
    OwnTask(cfg, w, k);
    LockIsMine(cfg, w, k, Doing(w, k).task.target);
  }

  /** ... and nothing else sends one. */
  lemma OnlyLabelledDeletes(cfg: Config, run: seq<World>, labels: seq<Label>, n: nat)
    requires IsRun(cfg, run, labels) && n < |labels| && !labels[n].SendDelete?
    ensures run[n + 1].sent == run[n].sent
  {
    var w, w', l := run[n], run[n + 1], labels[n];
    assert Step(cfg, w, w', l);
    if OnTask(l) {
      hide Step;
      var k := ActingWorker(cfg, w, w', l);
      OnlySendDeleteSends(cfg, w, w', l, k, Doing(w, k).task, Doing(w, k).pc);
    } else {
      hide TaskStep;
      BackgroundSendsNothing(cfg, w, w', l);
    }
  }

  /** While a worker holds a row, its copy is the stored row, in every reachable world: no branch that
      it takes from the copy could have gone otherwise. */
  lemma HeldRowIsCurrent(cfg: Config, run: seq<World>, labels: seq<Label>, n: nat, k: WorkerId)
    requires IsRun(cfg, run, labels) && n < |run| && Doing(run[n], k).Busy? && HasRow(Doing(run[n], k).pc)
    ensures var a := Doing(run[n], k);
            a.task.target in run[n].t.objects && run[n].t.objects[a.task.target] == a.pc.row
  {
    RunKeeps(cfg, run, labels, n);
    hide Inv, ObjectOk, OpOk;
    OwnTask(cfg, run[n], k);
  }

  lemma OnlySendDeleteSends(cfg: Config, w: World, w': World, l: Label, k: WorkerId, task: Task, pc: Pc)
    requires TaskStep(cfg, w, w', l, k, task, pc)
    ensures l.SendDelete? || w'.sent == w.sent
  {
  }

  lemma BackgroundSendsNothing(cfg: Config, w: World, w': World, l: Label)
    requires Step(cfg, w, w', l) && !OnTask(l)
    ensures w'.sent == w.sent
  {
  }

  /** A ready object has its final body, and no DELETE of it has ever been sent, so none can be late. */
  lemma ReadyKeepsItsBody(cfg: Config, run: seq<World>, labels: seq<Label>, n: nat, o: ObjectId)
    requires IsRun(cfg, run, labels) && n < |run|
    requires o in run[n].t.objects && run[n].t.objects[o].status.Ready?
    ensures o in run[n].final && (o, FinalKey) !in run[n].sent
  {
    hide Step, OpOk, WorkerOk;
    RunKeeps(cfg, run, labels, n);
    assert ObjectOk(run[n], o);
  }

  lemma {:induction false} DeletedRowStays(cfg: Config, run: seq<World>, labels: seq<Label>, n: nat, m: nat,
                                           o: ObjectId)
    requires IsRun(cfg, run, labels) && n <= m < |run|
    requires o in run[n].t.objects && run[n].t.objects[o].status.Deleted?
    ensures o in run[m].t.objects && run[m].t.objects[o] == run[n].t.objects[o]
    decreases m - n
  {
    hide Inv, Step, Onward;
    if n < m {
      RunStep(cfg, run, labels, n);
      ObjectOnwardFact(run[n], run[n + 1], o);
      DeletedRowStays(cfg, run, labels, n + 1, m, o);
    }
  }

  /** `deleted` is final, and nothing is left behind: from then on the final body never exists, nor, when the
      skew is below the grace period, the staging body, even when workers crashed between their DELETE and
      their commit on the way there. */
  lemma DeletedLeavesNothing(cfg: Config, run: seq<World>, labels: seq<Label>, n: nat, m: nat, o: ObjectId)
    requires IsRun(cfg, run, labels) && n <= m < |run|
    requires o in run[n].t.objects && run[n].t.objects[o].status.Deleted?
    ensures o in run[m].t.objects && run[m].t.objects[o] == run[n].t.objects[o]
    ensures o !in run[m].final && (cfg.skew < CLOCK_GRACE ==> o !in run[m].staging)
  {
    hide Step, Onward, OpOk, WorkerOk;
    DeletedRowStays(cfg, run, labels, n, m, o);
    RunKeeps(cfg, run, labels, m);
    assert ObjectOk(run[m], o);
    var id :| StagingDone(run[m].t, id, o);
    if cfg.skew < CLOCK_GRACE { StagingStaysGone(cfg, run, labels, m, m, id, o); }
  }

  /** A final DELETE of an object that is being deleted is only ever sent after the staging body's
      clean-up has been completed. */
  lemma StagingIsCleanedFirst(cfg: Config, run: seq<World>, labels: seq<Label>, n: nat)
    requires IsRun(cfg, run, labels) && n < |labels| && labels[n].SendDelete?
    requires var a := Doing(run[n], labels[n].k);
             a.Busy? && a.task.kind.Delete? && a.task.target in run[n].t.objects
             && run[n].t.objects[a.task.target].status.Deleting?
    ensures AnyStagingDone(run[n].t, Doing(run[n], labels[n].k).task.target)
    ensures cfg.skew < CLOCK_GRACE ==> Doing(run[n], labels[n].k).task.target !in run[n].staging
  {
    DeletesAreFenced(cfg, run, labels, n);
    RunKeeps(cfg, run, labels, n);
    var w, k := run[n], labels[n].k;
    hide Inv, ObjectOk, OpOk;
    OwnTask(cfg, w, k);
    var id :| StagingDone(w.t, id, Doing(w, k).task.target);
    if cfg.skew < CLOCK_GRACE { StagingStaysGone(cfg, run, labels, n, n, id, Doing(w, k).task.target); }
  }

  // ------------------------------------------------------------------ a completed delete has deleted

  /** The commit of a worker that holds its claim, whose final DELETE of an object being deleted was answered: the row
      is deleted at the next revision, and the operation is completed. */
  lemma CommittedDeleteDeletes(cfg: Config, run: seq<World>, labels: seq<Label>, n: nat)
    requires IsRun(cfg, run, labels) && n < |labels| && labels[n].Commit? && Doing(run[n], labels[n].k).Busy?
    requires var a := Doing(run[n], labels[n].k);
             a.pc.Removed? && a.pc.key.FinalKey? && Holds(run[n].t, a.task)
    ensures var task, t, t' := Doing(run[n], labels[n].k).task, run[n].t, run[n + 1].t;
            && task.target in t.objects && task.target in t'.objects && task.target !in run[n + 1].final
            && var row := t.objects[task.target];
            && (row.status.Deleting? ==> t'.objects[task.target] == Object(Deleted, row.revision + 1, row.expiresAt))
            && (!row.status.Deleting? ==> row.status.Failed? && t'.objects[task.target] == row)
            && task.id in t'.ops && t'.ops[task.id].status.Completed?
  {
    RunStep(cfg, run, labels, n);
    var w := run[n];
    hide Step, Onward, OpOk, ObjectOk, Inv;
    var k := ActingWorker(cfg, w, run[n + 1], labels[n]);
    OwnTask(cfg, w, k);
    FinishDeleteWrites(w.t, Doing(w, k).task, w.now);
  }

  /** No operation is ahead of its object, and no completed delete is for an object that is being deleted still at
      its revision. */
  ghost predicate DeletesEnd(t: Tables) {
    forall id | id in t.ops ::
      && t.ops[id].target in t.objects && t.ops[id].revision <= t.objects[t.ops[id].target].revision
      && (t.ops[id].kind.Delete? && t.ops[id].status.Completed? ==>
            !(t.objects[t.ops[id].target].status.Deleting?
                && t.objects[t.ops[id].target].revision == t.ops[id].revision))
  }

  /** What a step adds to the queue, and which deletes it completes. */
  ghost predicate QueueFits(w: World, w': World) {
    && (forall id | id in w'.t.ops && id !in w.t.ops ::
          w'.t.ops[id].status.Pending? && w'.t.ops[id].target in w'.t.objects
          && w'.t.ops[id].revision <= w'.t.objects[w'.t.ops[id].target].revision)
    && (forall id | id in w'.t.ops && id in w.t.ops && w'.t.ops[id].status.Completed? && !w.t.ops[id].status.Completed?
                    && w'.t.ops[id].kind.Delete? && w'.t.ops[id].target in w'.t.objects ::
          !w'.t.objects[w'.t.ops[id].target].status.Deleting?)
  }

  lemma DeletesEndOnward(w: World, w': World)
    requires DeletesEnd(w.t) && Onward(w, w') && QueueFits(w, w')
    ensures DeletesEnd(w'.t)
  {
    forall id | id in w'.t.ops
      ensures w'.t.ops[id].target in w'.t.objects
      ensures w'.t.ops[id].revision <= w'.t.objects[w'.t.ops[id].target].revision
      ensures w'.t.ops[id].kind.Delete? && w'.t.ops[id].status.Completed? ==>
                !(w'.t.objects[w'.t.ops[id].target].status.Deleting?
                  && w'.t.objects[w'.t.ops[id].target].revision == w'.t.ops[id].revision)
    {
      if id in w.t.ops {
        OpOnwardFact(w, w', id);
        ObjectOnwardFact(w, w', w.t.ops[id].target);
      }
    }
  }

  lemma ExpireQueueFits(cfg: Config, w: World, w': World, k: WorkerId, task: Task, pc: Pc, id: OpId, id': OpId)
    requires TaskStep(cfg, w, w', Expire(k, id, id'), k, task, pc) && TaskOk(cfg, w, task, pc)
    ensures QueueFits(w, w')
  {
    if Holds(w.t, task) && Unmoved(w.t, task.target, pc.row) { ExpireShape(w.t, task, id, id', w.now); }
    hide ExpireUpload;
  }

  lemma CommitQueueFits(cfg: Config, w: World, w': World, k: WorkerId, task: Task, pc: Pc)
    requires TaskStep(cfg, w, w', Commit(k), k, task, pc) && TaskOk(cfg, w, task, pc)
    ensures QueueFits(w, w')
  {
    if Holds(w.t, task) {
      FinishStagingWrites(w.t, task, w.now);
      FinishDeleteWrites(w.t, task, w.now);
      hide FinishStaging, FinishDelete;
    }
  }

  lemma FrameQueueFits(cfg: Config, w: World, w': World, l: Label, k: WorkerId, task: Task, pc: Pc)
    requires TaskStep(cfg, w, w', l, k, task, pc) && TaskOk(cfg, w, task, pc) && OnTask(l) && l.k == k
    ensures QueueFits(w, w')
  {
    if l.Expire? {
      hide TaskStep, QueueFits;
      ExpireQueueFits(cfg, w, w', k, task, pc, l.id, l.id');
    } else if l.Commit? {
      hide TaskStep, QueueFits;
      CommitQueueFits(cfg, w, w', k, task, pc);
    } else {
      hide DefersTo, GatePasses, Unlocked, TerminalCleanupAt, RetryBackoff, KeyFor, HasLock;
    }
  }

  lemma BackgroundQueueFits(cfg: Config, w: World, w': World, l: Label)
    requires Step(cfg, w, w', l) && !OnTask(l) && (forall id | id in w.t.ops :: w.t.ops[id].target in w.t.objects)
    ensures QueueFits(w, w')
  {
    hide Inv, TaskStep, Retire, PromoteUpload, Enqueue, Missing, HasLock;
    match l {
      case ApiFail(o, id, id') => RetireShape(w.t, o, Failed, id, id', w.now);
      case ApiDelete(o, id, id') => RetireShape(w.t, o, Life.Deleting, id, id', w.now);
      case ApiPromote(o, id, committed) => PromotionFits(w, w', o, id, committed);
      case EnqueueMissing(o, kind, id) =>
        MissingExactly(w.t, o, kind, cfg.retryAfter, w.now);
        EnqueueFact(w.t, o, kind, w.t.objects[o].revision, CleanupDueAt(w.t.objects[o], kind, w.now), id);
      case _ =>
    }
  }

  lemma PromotionFits(w: World, w': World, o: ObjectId, id: OpId, committed: bool)
    requires o in w.t.objects && id !in w.t.ops
    requires w' == w.(final := w.final + {o}, t := if committed then PromoteUpload(w.t, o, id, w.now) else w.t)
    ensures QueueFits(w, w')
  {
    if committed {
      hide Enqueue;
      var row := w.t.objects[o];
      var t1 := CancelOpen(PutObject(w.t, o, row.(status := Ready, revision := row.revision + 1)), o, {Reconcile},
          w.now);
      EnqueueFact(t1, o, DeleteUpload, row.revision + 1, row.expiresAt + CLOCK_GRACE, id);
    }
  }

  /** In every run: once a delete is completed, its object is not left being deleted at the delete's revision. */
  lemma {:induction false} CompletedDeletesEnd(cfg: Config, run: seq<World>, labels: seq<Label>, n: nat)
    requires IsRun(cfg, run, labels) && n < |run|
    ensures DeletesEnd(run[n].t)
  {
    hide Inv, Step, Onward, QueueFits, TaskStep;
    if n > 0 {
      var w, w', l := run[n - 1], run[n], labels[n - 1];
      CompletedDeletesEnd(cfg, run, labels, n - 1);
      RunStep(cfg, run, labels, n - 1);
      if OnTask(l) {
        hide DeletesEnd;
        var k := ActingWorker(cfg, w, w', l);
        OwnTask(cfg, w, k);
        hide TaskOk;
        FrameQueueFits(cfg, w, w', l, k, Doing(w, k).task, Doing(w, k).pc);
      } else {
        BackgroundQueueFits(cfg, w, w', l);
        hide DeletesEnd;
      }
      DeletesEndOnward(w, w');
    }
  }

  // ------------------------------------------------------------------ the grace period is needed

  ghost predicate Reachable(cfg: Config, w: World) {
    exists run, labels :: IsRun(cfg, run, labels) && run[|labels|] == w
  }

  lemma ExtendRun(cfg: Config, run: seq<World>, labels: seq<Label>, w: World, l: Label)
    requires IsRun(cfg, run, labels) && Step(cfg, run[|labels|], w, l)
    ensures IsRun(cfg, run + [w], labels + [l])
  {
    hide Step;
    var longer, more := run + [w], labels + [l];
    forall n | 0 <= n < |more| ensures Step(cfg, longer[n], longer[n + 1], more[n]) {
      if n < |labels| { assert Step(cfg, run[n], run[n + 1], labels[n]); }
    }
  }

  lemma ReachStep(cfg: Config, w: World, w': World, l: Label)
    requires Reachable(cfg, w) && Step(cfg, w, w', l)
    ensures Reachable(cfg, w')
  {
    hide Step;
    var run, labels :| IsRun(cfg, run, labels) && run[|labels|] == w;
    ExtendRun(cfg, run, labels, w', l);
    assert (run + [w'])[|labels + [l]|] == w';
  }

  lemma ReachTaskStep(cfg: Config, w: World, w': World, l: Label, task: Task, pc: Pc)
    requires Reachable(cfg, w) && OnTask(l) && l.k == 0 && Doing(w, 0) == Busy(task, pc)
    requires TaskStep(cfg, w, w', l, 0, task, pc)
    ensures Reachable(cfg, w')
  {
    hide TaskStep, Reachable;
    ReachStep(cfg, w, w', l);
  }

  const CLEANUP := Task(1, 0, DeleteUpload, 2, 1, 0)
  const FAILED := Object(Failed, 2, 0)

  /** An upload that failed at once, with its staging clean-up claimed at the terminal time. */
  predicate CleaningUp(cfg: Config, w: World, pc: Pc) {
    && w.t.objects == map[0 := FAILED]
    && Holds(w.t, CLEANUP) && w.t.ops[1] == Op(0, DeleteUpload, 2, Claimed(0, w.now), 1, CLOCK_GRACE, None)
    && w.now == TerminalCleanupAt(0, cfg.maxUpload) && w.staging == {}
    && w.workers == map[0 := Busy(CLEANUP, pc)]
  }

  lemma ReachUploading(cfg: Config) returns (w: World)
    ensures Reachable(cfg, w) && w == World(CreateUpload(Tables(map[], map[]), 0, 0, 0), 0, {}, {}, {}, map[])
  {
    hide Reachable, TaskStep;
    var w0 := World(Tables(map[], map[]), 0, {}, {}, {}, map[]);
    ReachEmpty(cfg, w0);
    w := w0.(t := CreateUpload(w0.t, 0, 0, 0));
    assert Step(cfg, w0, w, ApiCreate(0, 0, 0));
    ReachStep(cfg, w0, w, ApiCreate(0, 0, 0));
  }

  lemma ReachFailed(cfg: Config) returns (w: World)
    ensures Reachable(cfg, w) && w.t.objects == map[0 := FAILED] && w.staging == {} && w.workers == map[]
    ensures 1 in w.t.ops && w.t.ops[1] == Op(0, DeleteUpload, 2, Pending, 0, CLOCK_GRACE, None)
    ensures w.now == TerminalCleanupAt(0, cfg.maxUpload)
  {
    hide Reachable, TaskStep, Retire;
    var w1 := ReachUploading(cfg);
    var w2 := w1.(t := Retire(w1.t, 0, Failed, 1, 2, 0));
    assert Step(cfg, w1, w2, ApiFail(0, 1, 2));
    ReachStep(cfg, w1, w2, ApiFail(0, 1, 2));
    w := w2.(now := TerminalCleanupAt(0, cfg.maxUpload));
    assert Step(cfg, w2, w, Tick(w.now));
    ReachStep(cfg, w2, w, Tick(w.now));
    FailedQueue(w1.t);
  }

  lemma FailedQueue(t: Tables)
    requires t == CreateUpload(Tables(map[], map[]), 0, 0, 0)
    ensures var t' := Retire(t, 0, Failed, 1, 2, 0);
            && t'.objects == map[0 := FAILED]
            && 1 in t'.ops && t'.ops[1] == Op(0, DeleteUpload, 2, Pending, 0, CLOCK_GRACE, None)
  {
    hide Enqueue;
    var row := t.objects[0];
    var t0 := PutObject(t, 0, row.(status := Failed, revision := 2));
    var t1 := CancelOpen(t0, 0, ALL_KINDS, 0);
    NothingOpen(t0, 0, 0, DeleteUpload);
    EnqueueFact(t1, 0, DeleteUpload, 2, CLOCK_GRACE, 1);
    var t2 := Enqueue(t1, 0, DeleteUpload, 2, CLOCK_GRACE, 1);
    EnqueueFact(t2, 0, Delete, 2, 0, 2);
  }

  lemma ReachEmpty(cfg: Config, w: World)
    requires Init(w)
    ensures Reachable(cfg, w)
  {
    var labels: seq<Label> := [];
    assert IsRun(cfg, [w], labels);
    assert [w][|labels|] == w;
  }

  lemma ReachDeleting(cfg: Config) returns (w: World)
    ensures Reachable(cfg, w) && CleaningUp(cfg, w, Pc.Deleting(FAILED, StagingKey, false)) && (0, StagingKey) in w.sent
  {
    hide Reachable;
    var w0 := ReachFailed(cfg);
    var w1 := Do(w0.(t := ClaimOp(w0.t, 1, 0, w0.now)), 0, Busy(CLEANUP, Taken));
    assert Step(cfg, w0, w1, Claim(0, 1));
    ReachStep(cfg, w0, w1, Claim(0, 1));
    var w2 := Do(w1, 0, Busy(CLEANUP, Locked(FAILED)));
    ReachTaskStep(cfg, w1, w2, Begin(0), CLEANUP, Taken);
    var w3 := Do(w2, 0, Busy(CLEANUP, Cleared(FAILED)));
    ReachTaskStep(cfg, w2, w3, Clear(0), CLEANUP, Locked(FAILED));
    w := Do(w3.(sent := w3.sent + {(0, StagingKey)}), 0, Busy(CLEANUP, Pc.Deleting(FAILED, StagingKey, false)));
    ReachTaskStep(cfg, w3, w, SendDelete(0), CLEANUP, Cleared(FAILED));
  }

  lemma ReachLanded(cfg: Config) returns (w: World)
    ensures Reachable(cfg, w) && CleaningUp(cfg, w, Pc.Deleting(FAILED, StagingKey, true))
  {
    hide Reachable, TaskStep;
    var w0 := ReachDeleting(cfg);
    w := w0.(workers := map[0 := Busy(CLEANUP, Pc.Deleting(FAILED, StagingKey, true))]);
    assert w.workers == map k | k in w0.workers :: Landed(w0.workers[k], 0, StagingKey);
    assert Step(cfg, w0, w, DeleteLands(0, StagingKey));
    ReachStep(cfg, w0, w, DeleteLands(0, StagingKey));
  }

  lemma ReachVerified(cfg: Config) returns (w: World)
    ensures Reachable(cfg, w) && CleaningUp(cfg, w, Verified(FAILED))
  {
    hide Reachable;
    var w1 := ReachLanded(cfg);
    var w2 := Do(w1, 0, Busy(CLEANUP, Removed(FAILED, StagingKey)));
    ReachTaskStep(cfg, w1, w2, DeleteOk(0), CLEANUP, Pc.Deleting(FAILED, StagingKey, true));
    var w3 := Do(w2, 0, Busy(CLEANUP, Quiescent(FAILED)));
    ReachTaskStep(cfg, w2, w3, Quiesce(0), CLEANUP, Removed(FAILED, StagingKey));
    w := Do(w3, 0, Busy(CLEANUP, Verified(FAILED)));
    ReachTaskStep(cfg, w3, w, SeeAbsent(0), CLEANUP, Quiescent(FAILED));
  }

  /** With a skew of the whole grace period or more, a PUT begun that late lands when the staging
      clean-up has just been completed, and the body is back. */
  lemma LateUploadComesBack(cfg: Config) returns (run: seq<World>, labels: seq<Label>, n: nat)
    requires cfg.skew >= CLOCK_GRACE
    ensures IsRun(cfg, run, labels) && n + 1 < |run|
    ensures StagingDone(run[n].t, 1, 0) && 0 in run[n + 1].staging
  {
    hide Step, TaskStep;
    var w0 := ReachVerified(cfg);
    run, labels :| IsRun(cfg, run, labels) && run[|labels|] == w0;
    var w1 := Do(w0.(t := FinishStaging(w0.t, CLEANUP, w0.now)), 0, Idle);
    CommitStep(cfg, w0, w1);
    ExtendRun(cfg, run, labels, w1, Commit(0));
    run, labels := run + [w1], labels + [Commit(0)];
    n := |labels|;
    var w2 := w1.(staging := {0});
    PutStep(cfg, w1, w2);
    ExtendRun(cfg, run, labels, w2, PutLands(0, CLOCK_GRACE));
    run, labels := run + [w2], labels + [PutLands(0, CLOCK_GRACE)];
  }

  lemma CommitStep(cfg: Config, w: World, w': World)
    requires CleaningUp(cfg, w, Verified(FAILED)) && w' == Do(w.(t := FinishStaging(w.t, CLEANUP, w.now)), 0, Idle)
    ensures Step(cfg, w, w', Commit(0)) && StagingDone(w'.t, 1, 0)
    ensures w'.t.objects == w.t.objects && w'.staging == {} && w'.now == w.now
  {
    assert Doing(w, 0) == Busy(CLEANUP, Verified(FAILED));
    assert TaskStep(cfg, w, w', Commit(0), 0, Doing(w, 0).task, Doing(w, 0).pc);
  }

  lemma PutStep(cfg: Config, w: World, w': World)
    requires cfg.skew >= CLOCK_GRACE && w.t.objects == map[0 := FAILED]
    requires w.staging == {} && w.now == TerminalCleanupAt(0, cfg.maxUpload) && w' == w.(staging := {0})
    ensures Step(cfg, w, w', PutLands(0, CLOCK_GRACE))
  {
  }

  /** A completed staging clean-up is final in every run. */
  ghost predicate CleanupIsFinal(cfg: Config) {
    forall run: seq<World>, labels: seq<Label>, n: nat, m: nat, id: OpId, o: ObjectId |
      IsRun(cfg, run, labels) && n <= m < |run| && StagingDone(run[n].t, id, o) :: o !in run[m].staging
  }

  /** ... exactly when the store's clock runs late by less than the grace period. */
  lemma CleanupIsFinalExactlyWithinGrace(cfg: Config)
    ensures CleanupIsFinal(cfg) <==> cfg.skew < CLOCK_GRACE
  {
    hide IsRun;
    if cfg.skew < CLOCK_GRACE {
      forall run: seq<World>, labels: seq<Label>, n: nat, m: nat, id: OpId, o: ObjectId
        | IsRun(cfg, run, labels) && n <= m < |run| && StagingDone(run[n].t, id, o)
        ensures o !in run[m].staging
      {
        StagingStaysGone(cfg, run, labels, n, m, id, o);
      }
    } else {
      var run, labels, n := LateUploadComesBack(cfg);
      StillDone(cfg, run, labels, n);
    }
  }

  lemma StillDone(cfg: Config, run: seq<World>, labels: seq<Label>, n: nat)
    requires IsRun(cfg, run, labels) && n + 1 < |run| && StagingDone(run[n].t, 1, 0) && 0 in run[n + 1].staging
    ensures !CleanupIsFinal(cfg)
  {
    hide IsRun;
    assert 0 <= n <= n + 1 < |run| && StagingDone(run[n].t, 1, 0);
  }
}
