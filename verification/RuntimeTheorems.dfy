/** What the runtime control plane guarantees over whole runs, with crashes, recovered claims, zombie
    controllers and SSH requests that arrive arbitrarily late. */
module RuntimeTheorems {
  import opened Options
  import opened RuntimeRows
  import opened RuntimeDatabase
  import opened RemoteHelper
  import opened RuntimeProtocol
  import opened RuntimeInvariant
  import opened RuntimeSteps
  import opened RuntimeSafety
  import Journal

  lemma RunStep(run: seq<World>, labels: seq<Label>, n: nat)
    requires IsRun(run, labels) && n < |labels|
    ensures Inv(run[n]) && Inv(run[n + 1]) && Step(run[n], run[n + 1], labels[n]) && Onward(run[n], run[n + 1])
  {
    hide Inv, Step, Onward;
    RunKeeps(run, labels, n);
    StepKeeps(run[n], run[n + 1], labels[n]);
  }

  lemma RowOnward(w: World, w': World, i: InstanceId)
    requires Onward(w, w') && i in w.db.instances
    ensures i in w'.db.instances && RowEvolves(w.db.instances[i], w'.db.instances[i])
    ensures forall s :: Fenced(HostOf(w, s, i)) ==> Fenced(HostOf(w', s, i))
  {
  }

  // ------------------------------------------------------------------ one host per instance

  lemma {:induction false} SentStays(run: seq<World>, labels: seq<Label>, n: nat, m: nat, q: Request)
    requires IsRun(run, labels) && n <= m < |run| && q in run[n].sent
    ensures q in run[m].sent
    decreases m - n
  {
    hide Inv, Step, Grows;
    if n < m {
      RunStep(run, labels, n);
      SentStays(run, labels, n + 1, m, q);
    }
  }

  /** Over a whole run, every remote call for one instance goes to one host, by whichever controller,
      command or generation it is made; and that host is the stored placement from then on. */
  lemma OneHostPerInstance(run: seq<World>, labels: seq<Label>, n: nat, m: nat, q: Request, r: Request)
    requires IsRun(run, labels) && n <= m < |run|
    requires q in run[n].sent && r in run[m].sent && q.instance == r.instance
    ensures q.server == r.server
    ensures PlacedOn(run[m].db, q.instance, q.server)
  {
    hide Step, DbInv, WithinPeak, TokensOk, ActivityOk, LogFits;
    SentStays(run, labels, n, m, q);
    RunKeeps(run, labels, m);
    assert RequestOk(run[m], q) && RequestOk(run[m], r);
  }

  /** The placement is committed before the first call: a worker about to contact a host for an
      instance finds that host in the stored row, however old its snapshot is. */
  lemma PlacementPrecedesTheCall(run: seq<World>, labels: seq<Label>, n: nat)
    requires IsRun(run, labels) && n < |labels| && labels[n].Send?
    ensures var k := labels[n].k;
            && Doing(run[n], k).Working? && Doing(run[n], k).frame.pc.Sending?
            && var f := Doing(run[n], k).frame;
            && PlacedOn(run[n].db, f.job.instance, f.pc.server) && f.snapshot.Some?
            && JobRequest(k, f.job, f.pc.op, f.pc.server, f.snapshot.value) in run[n + 1].sent
  {
    hide DbInv, WithinPeak, TokensOk, LogFits, RequestOk, Onward;
    RunStep(run, labels, n);
    var k := ActingController(run[n], run[n + 1], labels[n]);
    WorkingFrameOk(run[n], k);
  }

  // ------------------------------------------------------------------ released slots stay quiet

  /** Inactive, and either never placed or fenced on its host. */
  predicate Quiet(w: World, i: InstanceId) {
    && i in w.db.instances && !w.db.instances[i].active
    && (w.db.instances[i].server.Some? ==> Fenced(HostOf(w, w.db.instances[i].server.value, i)))
  }

  lemma QuietStays(w: World, w': World, i: InstanceId)
    requires Onward(w, w') && Quiet(w, i)
    ensures Quiet(w', i)
  {
    hide Grows;
    RowOnward(w, w', i);
  }

  lemma QuietRunsNothing(w: World, i: InstanceId, s: ServerId)
    requires Inv(w) && Quiet(w, i)
    ensures !HostOf(w, s, i).container
  {
    hide DbInv, WithinPeak, TokensOk, ActivityOk, LogFits, RequestOk, ReplyOk;
    assert HostOk(w, s, i);
  }

  /** The commit of `finish_inspection`. */
  predicate CommitsInspection(w: World, l: Label) {
    l.Commit? && Doing(w, l.k).Working? && Doing(w, l.k).frame.pc.Answered?
        && Doing(w, l.k).frame.pc.op.InspectInstance?
  }

  predicate Deactivates(w: World, w': World, i: InstanceId) {
    i in w.db.instances && w.db.instances[i].active && i in w'.db.instances && !w'.db.instances[i].active
  }

  /** `finish_termination` without a host: the instance was never placed. */
  lemma LocalReleaseIsQuiet(w: World, w': World, k: ControllerId, f: Frame, i: InstanceId)
    requires Inv(w) && Doing(w, k) == Working(f) && FrameStep(w, w', FinishLocal(k), k, f) && Deactivates(w, w', i)
    ensures Quiet(w', i)
  {
    hide DbInv, WithinPeak, TokensOk, LogFits, RequestOk, Evolves;
    WorkingFrameOk(w, k);
    FinishTerminationKeeps(w.db, f.job, f.snapshot.value.expiresAt, w.now);
  }

  /** `reject_start` and `expire_unstarted_instance`: still `requested`, hence never placed. */
  lemma RejectionIsQuiet(w: World, w': World, k: ControllerId, f: Frame, i: InstanceId)
    requires Inv(w) && Doing(w, k) == Working(f) && FrameStep(w, w', RejectTx(k), k, f) && Deactivates(w, w', i)
    ensures Quiet(w', i)
  {
    hide DbInv, WithinPeak, TokensOk, LogFits, RequestOk, Evolves;
    WorkingFrameOk(w, k);
    RejectStartKeeps(w.db, f.job, f.pc.observed, w.now);
  }

  /** `finish_termination` after a confirmed stop, and the other commits, which deactivate nothing. */
  lemma CommitReleaseIsQuiet(w: World, w': World, k: ControllerId, f: Frame, newId: CommandId, i: InstanceId)
    requires Inv(w) && Doing(w, k) == Working(f) && FrameStep(w, w', Commit(k, newId), k, f) && Deactivates(w, w', i)
    requires !f.pc.op.InspectInstance?
    ensures Quiet(w', i)
  {
    hide DbInv, WithinPeak, TokensOk, LogFits, RequestOk, Evolves, SnapshotFits;
    WorkingFrameOk(w, k);
    var effective := f.pc.result.expiresAt.GetOr(f.snapshot.value.desiredExpiresAt);
    match f.pc.op {
      case EnsureInstance => FinishStartKeeps(w.db, f.job, f.pc.server, effective, w.now);
      case StopInstance => FinishTerminationKeeps(w.db, f.job, f.snapshot.value.expiresAt, w.now);
      case UpdateDeadline => FinishExtensionKeeps(w.db, f.job, effective, w.now);
    }
  }

  lemma RetryReleasesNothing(w: World, w': World, k: ControllerId, f: Frame, maxAttempts: nat, newId: CommandId,
                             i: InstanceId)
    requires FrameStep(w, w', Retry(k, maxAttempts, newId), k, f)
    ensures !Deactivates(w, w', i)
  {
    hide ScheduleRetry;
    RetryDeactivatesNothing(w.db, f.job, maxAttempts, newId, w.now);
  }

  lemma OtherFrameStepsReleaseNothing(w: World, w': World, l: Label, k: ControllerId, f: Frame, i: InstanceId)
    requires FrameStep(w, w', l, k, f) && !l.FinishLocal? && !l.RejectTx? && !l.Commit? && !l.Retry?
    ensures !Deactivates(w, w', i)
  {
    hide ScheduleRetry, Conclude, RejectStart, FinishTermination, GateOpen, Dispatch, JournalEntry, Selectable;
  }

  lemma FrameReleaseIsQuiet(w: World, w': World, l: Label, k: ControllerId, f: Frame, i: InstanceId)
    requires Inv(w) && Doing(w, k) == Working(f) && OnCommand(l) && l.k == k && FrameStep(w, w', l, k, f)
    requires Deactivates(w, w', i) && !CommitsInspection(w, l)
    ensures Quiet(w', i)
  {
    hide Inv, FrameStep, Deactivates, Quiet;
    match l {
      case FinishLocal(_) => LocalReleaseIsQuiet(w, w', k, f, i);
      case RejectTx(_) => RejectionIsQuiet(w, w', k, f, i);
      case Commit(_, newId) =>
        AnsweredAtCommit(w, w', k, f, newId);
        CommitReleaseIsQuiet(w, w', k, f, newId, i);
      case Retry(_, maxAttempts, newId) => RetryReleasesNothing(w, w', k, f, maxAttempts, newId, i);
      case _ => OtherFrameStepsReleaseNothing(w, w', l, k, f, i);
    }
  }

  lemma RetryDeactivatesNothing(db: Db, job: Job, maxAttempts: nat, newId: CommandId, now: int)
    ensures var db' := ScheduleRetry(db, job, maxAttempts, newId, now);
            forall i | i in db.instances :: i in db'.instances && db'.instances[i].active == db.instances[i].active
  {
  }

  /** Every release of a slot, except by an inspection, leaves the instance quiet. */
  lemma ReleaseIsQuiet(w: World, w': World, l: Label, i: InstanceId)
    requires Inv(w) && Step(w, w', l) && Deactivates(w, w', i) && !CommitsInspection(w, l)
    ensures Quiet(w', i)
  {
    if OnCommand(l) {
      hide Inv, Step, FrameStep, CommitsInspection, Deactivates, Quiet;
      var k := ActingController(w, w', l);
      FrameReleaseIsQuiet(w, w', l, k, Doing(w, k).frame, i);
    } else {
      hide Inv, FrameStep, Acts, Quiet;
    }
  }

  lemma {:induction false} QuietForever(run: seq<World>, labels: seq<Label>, n: nat, m: nat, i: InstanceId)
    requires IsRun(run, labels) && n <= m < |run| && Quiet(run[n], i)
    ensures Quiet(run[m], i)
    decreases m - n
  {
    hide Inv, Step, Onward, Quiet;
    if n < m {
      RunStep(run, labels, n);
      QuietStays(run[n], run[n + 1], i);
      QuietForever(run, labels, n + 1, m, i);
    }
  }

  /** Once `finish_termination`, `reject_start` or `expire_unstarted_instance` has made an instance
      inactive, no host runs a workload for it, then or ever after. */
  lemma ReleasedSlotsStayEmpty(run: seq<World>, labels: seq<Label>, n: nat, m: nat, i: InstanceId, s: ServerId)
    requires IsRun(run, labels) && n < m < |run|
    requires Deactivates(run[n], run[n + 1], i) && !CommitsInspection(run[n], labels[n])
    ensures !HostOf(run[m], s, i).container
  {
    hide Inv, Step, Onward, Quiet, Deactivates, CommitsInspection;
    RunStep(run, labels, n);
    ReleaseIsQuiet(run[n], run[n + 1], labels[n], i);
    QuietForever(run, labels, n + 1, m, i);
    RunKeeps(run, labels, m);
    QuietRunsNothing(run[m], i, s);
  }

  // ------------------------------------------------------------------ claim fencing

  /** A worker that has lost its claim changes no row, whatever it does next on its command. */
  lemma LostClaimWritesNothing(w: World, w': World, l: Label)
    requires Step(w, w', l) && OnCommand(l) && Doing(w, l.k).Working? && !HoldsClaim(w.db, Doing(w, l.k).frame.job)
    ensures w'.db == w.db
  {
    hide Step, FrameStep;
    var k := ActingController(w, w', l);
    if l.Commit? {
      LostClaimCommitsNothing(w, w', k, Doing(w, k).frame, l.newId);
    } else {
      LostClaimLeavesRows(w, w', l, k, Doing(w, k).frame);
    }
  }

  lemma LostClaimCommitsNothing(w: World, w': World, k: ControllerId, f: Frame, newId: CommandId)
    requires FrameStep(w, w', Commit(k, newId), k, f) && !HoldsClaim(w.db, f.job)
    ensures w'.db == w.db
  {
  }

  lemma LostClaimLeavesRows(w: World, w': World, l: Label, k: ControllerId, f: Frame)
    requires FrameStep(w, w', l, k, f) && !HoldsClaim(w.db, f.job) && !l.Commit?
    ensures w'.db == w.db
  {
    hide GateOpen, Dispatch, JournalEntry, Selectable, Conclude;
  }

  lemma {:induction false} LostClaimStaysLost(run: seq<World>, labels: seq<Label>, n: nat, m: nat, job: Job)
    requires IsRun(run, labels) && n <= m < |run|
    requires JobFits(run[n], job) && !HoldsClaim(run[n].db, job)
    ensures JobFits(run[m], job) && !HoldsClaim(run[m].db, job)
    decreases m - n
  {
    hide Inv, Step, Grows, JobFits;
    if n < m {
      RunStep(run, labels, n);
      var actor :| Grows(run[n], run[n + 1], actor);
      ClaimsFade(run[n], run[n + 1], actor, job);
      LostClaimStaysLost(run, labels, n + 1, m, job);
    }
  }

  /** Once a worker's claim has been recovered, nothing that worker does for that command ever reaches
      the tables again. */
  lemma OldClaimantIsPowerless(run: seq<World>, labels: seq<Label>, n: nat, m: nat, k: ControllerId)
    requires IsRun(run, labels) && n <= m < |labels|
    requires Doing(run[n], k).Working? && !HoldsClaim(run[n].db, Doing(run[n], k).frame.job)
    requires OnCommand(labels[m]) && labels[m].k == k
    requires Doing(run[m], k).Working? && Doing(run[m], k).frame.job == Doing(run[n], k).frame.job
    ensures run[m + 1].db == run[m].db
  {
    hide Inv, Step, Onward, FrameOk;
    RunKeeps(run, labels, n);
    WorkingFrameOk(run[n], k);
    assert JobFits(run[n], Doing(run[n], k).frame.job) by { ActorFact(run[n], k, Doing(run[n], k).frame); }
    LostClaimStaysLost(run, labels, n, m, Doing(run[n], k).frame.job);
    RunStep(run, labels, m);
    LostClaimWritesNothing(run[m], run[m + 1], labels[m]);
  }

  lemma CommandOnward(w: World, w': World, c: CommandId)
    requires Onward(w, w') && c in w.db.commands
    ensures c in w'.db.commands && CommandEvolves(w.db.commands[c], w'.db.commands[c])
  {
  }

  /** A finished command row never changes again: it is finished once, with one outcome. */
  lemma {:induction false} FinishedForever(run: seq<World>, labels: seq<Label>, n: nat, m: nat, c: CommandId)
    requires IsRun(run, labels) && n <= m < |run| && c in run[n].db.commands && Finished(run[n].db.commands[c].status)
    ensures c in run[m].db.commands && run[m].db.commands[c] == run[n].db.commands[c]
    decreases m - n
  {
    hide Inv, Step, Onward;
    if n < m {
      RunStep(run, labels, n);
      CommandOnward(run[n], run[n + 1], c);
      FinishedForever(run, labels, n + 1, m, c);
    }
  }

  /** Although the snapshot was read outside any transaction: while its token is current, the placement
      it names is the stored one at the moment the worker acts on it. */
  lemma SnapshotPlacementIsCurrent(run: seq<World>, labels: seq<Label>, n: nat, k: ControllerId)
    requires IsRun(run, labels) && n < |run| && Doing(run[n], k).Working?
    requires var f := Doing(run[n], k).frame;
             SameGeneration(f) && HoldsClaim(run[n].db, f.job) && (f.job.kind.Start? ==> BeforePlacement(f.pc))
    ensures var f := Doing(run[n], k).frame;
            f.job.instance in run[n].db.instances
            && run[n].db.instances[f.job.instance].server == f.snapshot.value.server
  {
    hide Inv, PcFits;
    RunKeeps(run, labels, n);
    WorkingFrameOk(run[n], k);
  }

  // ------------------------------------------------------------------ capacity

  /** Administrators may add hosts, and raise or keep a capacity. */
  predicate NeverLowered(run: seq<World>, labels: seq<Label>)
    requires |run| == |labels| + 1
  {
    forall n | 0 <= n < |labels| :: KeepsCapacity(run[n], labels[n])
  }

  predicate KeepsCapacity(w: World, l: Label) {
    l.ApiServer? && l.s in w.db.servers ==> w.db.servers[l.s].capacity <= l.capacity
  }

  predicate AtPeak(w: World) { forall s | s in w.db.servers :: w.db.servers[s].capacity == w.db.servers[s].peak }

  lemma AtPeakStays(w: World, w': World, l: Label)
    requires Step(w, w', l) && AtPeak(w) && KeepsCapacity(w, l)
    ensures AtPeak(w')
  {
    if OnCommand(l) {
      hide Step, FrameStep;
      var k := ActingController(w, w', l);
      FrameLeavesServers(w, w', l, k, Doing(w, k).frame);
    } else {
      hide FrameStep, HelperStep, HostStep, WantsInspection, DatabaseFinished;
    }
  }

  lemma FrameLeavesServers(w: World, w': World, l: Label, k: ControllerId, f: Frame)
    requires FrameStep(w, w', l, k, f)
    ensures w'.db.servers == w.db.servers
  {
    hide GateOpen, Dispatch, JournalEntry, Selectable, ScheduleRetry, Conclude;
    if l.Retry? { RetryLeavesServers(w.db, f.job, l.maxAttempts, l.newId, w.now); }
    if l.Commit? && f.pc.Answered? && f.snapshot.Some? { ConcludeLeavesServers(w.db, f, l.newId, w.now); }
  }

  lemma ConcludeLeavesServers(db: Db, f: Frame, newId: CommandId, now: int)
    requires f.pc.Answered? && f.snapshot.Some?
    ensures Conclude(db, f, newId, now).1.servers == db.servers
  {
  }

  lemma {:induction false} AtPeakThroughout(run: seq<World>, labels: seq<Label>, n: nat)
    requires IsRun(run, labels) && NeverLowered(run, labels) && n < |run|
    ensures AtPeak(run[n])
  {
    hide Step, KeepsCapacity;
    if n > 0 {
      AtPeakThroughout(run, labels, n - 1);
      AtPeakStays(run[n - 1], run[n], labels[n - 1]);
    }
  }

  /** In every reachable world a host carries no more active instances than the largest capacity it has
      had; hence, when no capacity is lowered, no more than its capacity. */
  lemma CapacityIsRespected(run: seq<World>, labels: seq<Label>, n: nat, s: ServerId)
    requires IsRun(run, labels) && n < |run| && s in run[n].db.servers
    ensures |ActiveOn(run[n].db, s)| <= run[n].db.servers[s].peak
    ensures NeverLowered(run, labels) ==> |ActiveOn(run[n].db, s)| <= run[n].db.servers[s].capacity
  {
    hide Step, DbInv, TokensOk, ActivityOk, LogFits, RequestOk, ReplyOk, HostOk;
    RunKeeps(run, labels, n);
    if NeverLowered(run, labels) { AtPeakThroughout(run, labels, n); }
  }

  // ------------------------------------------------------------------ write-ahead

  /** When an operation goes out to a host, the sender's journal replays an unacknowledged intent for
      that instance and command, with the operation, generation and host. */
  lemma IntentPrecedesTheCall(run: seq<World>, labels: seq<Label>, n: nat)
    requires IsRun(run, labels) && n < |labels| && labels[n].Send?
    ensures var k := labels[n].k;
            && Doing(run[n], k).Working? && Doing(run[n], k).frame.pc.Sending?
            && LoggedIntent(LogOf(run[n], k), Doing(run[n], k).frame.job, Doing(run[n], k).frame.pc.op,
                            Doing(run[n], k).frame.pc.server)
  {
    hide DbInv, WithinPeak, TokensOk, LogFits, RequestOk, Onward, LoggedIntent;
    RunStep(run, labels, n);
    var k := ActingController(run[n], run[n + 1], labels[n]);
    WorkingFrameOk(run[n], k);
  }

  /** The record survives crashes, compactions and everything else, for as long as the claim it was
      sent under is current: until the command is finished or handed to another claimant. */
  lemma RecordOutlivesTheSender(run: seq<World>, labels: seq<Label>, n: nat, m: nat, q: Request)
    requires IsRun(run, labels) && n <= m < |run| && q in run[n].sent && q.origin.ByJob?
    requires HoldsClaim(run[m].db, q.origin.job)
    ensures Logged(LogOf(run[m], q.origin.controller), q.origin.job, q.server)
  {
    hide Step, DbInv, WithinPeak, TokensOk, ActivityOk, LogFits, Logged;
    SentStays(run, labels, n, m, q);
    RunKeeps(run, labels, m);
    assert RequestOk(run[m], q);
  }

  // ------------------------------------------------------------------ no orphans

  /** A start that fails for good on its still-current active instance commits, in the same step, an
      open terminate command at a higher generation. */
  lemma FailedStartIsCleanedUp(run: seq<World>, labels: seq<Label>, n: nat)
    requires IsRun(run, labels) && n < |labels| && labels[n].Retry?
    requires var k := labels[n].k;
             && Doing(run[n], k).Working?
             && var job := Doing(run[n], k).frame.job;
             && job.kind.Start? && HoldsClaim(run[n].db, job) && job.attempts >= labels[n].maxAttempts
             && ActiveAt(run[n].db, job.instance, job.generation)
    ensures var job := Doing(run[n], labels[n].k).frame.job;
            && run[n + 1].db.commands[job.id].status.Failed?
            && OpenTerminate(run[n + 1].db, labels[n].newId, job.instance)
            && Inserted(run[n + 1].db.commands[labels[n].newId], run[n].db.instances[job.instance], job.instance,
                        Terminate, job.generation + 1, OtherReason, run[n].now)
            && run[n + 1].db.instances[job.instance].generation == job.generation + 1
            && run[n + 1].db.instances[job.instance].desired.Stopped?
  {
    hide WithinPeak, TokensOk, LogFits, RequestOk, Onward;
    RunStep(run, labels, n);
    var k := ActingController(run[n], run[n + 1], labels[n]);
    WorkingFrameOk(run[n], k);
    var db, job := run[n].db, Doing(run[n], k).frame.job;
    StartHasNoTerminate(db, job);
    FailedStartRow(db, job, labels[n].maxAttempts, labels[n].newId, run[n].now);
  }

  lemma StartHasNoTerminate(db: Db, job: Job)
    requires DbInv(db) && JobOk(db, job) && job.kind.Start? && RowAt(db, job.instance, job.generation)
    ensures !HasOpenTerminate(db, job.instance)
  {
    CommandFact(db, job.id);
    forall c ensures !OpenTerminate(db, c, job.instance) {
      if c in db.commands { CommandFact(db, c); }
    }
  }

  lemma FailedStartRow(db: Db, job: Job, maxAttempts: nat, newId: CommandId, now: int)
    requires HoldsClaim(db, job) && job.kind.Start? && JobOk(db, job) && job.attempts >= maxAttempts
    requires ActiveAt(db, job.instance, job.generation) && !HasOpenTerminate(db, job.instance) && newId !in db.commands
    ensures var db' := ScheduleRetry(db, job, maxAttempts, newId, now);
            && db'.commands[job.id].status.Failed?
            && OpenTerminate(db', newId, job.instance)
            && Inserted(db'.commands[newId], db.instances[job.instance], job.instance, Terminate, job.generation + 1,
                        OtherReason, now)
            && db'.instances[job.instance].generation == job.generation + 1
            && db'.instances[job.instance].desired.Stopped?
  {
    var failed := FinishIfHeld(db, job, Status.Failed, now);
    var marked := PutInstance(failed, job.instance, failed.instances[job.instance].(
                                observed := CleanupPending, lastObservedAt := Some(now)));
    forall c ensures !OpenTerminate(marked, c, job.instance) {
      assert OpenTerminate(marked, c, job.instance) ==> OpenTerminate(db, c, job.instance);
    }
  }

  /** At most one open terminate command per instance, in every reachable world. */
  lemma NeverTwoTerminations(run: seq<World>, labels: seq<Label>, n: nat, c: CommandId, d: CommandId, i: InstanceId)
    requires IsRun(run, labels) && n < |run|
    requires OpenTerminate(run[n].db, c, i) && OpenTerminate(run[n].db, d, i)
    ensures c == d
  {
    hide Step, WithinPeak, TokensOk, ActivityOk, LogFits, RequestOk, ReplyOk, HostOk, CommandOk, InstanceOk;
    RunKeeps(run, labels, n);
  }
}
