/** The inductive invariant of the runtime control plane: what every reachable world keeps about the
    rows, the workers' stale snapshots, the requests in flight, the hosts and the journals. */
module RuntimeInvariant {
  import opened Options
  import opened RuntimeRows
  import opened RuntimeDatabase
  import opened RemoteHelper
  import opened RuntimeProtocol
  import Journal

  predicate PlacedOn(db: Db, i: InstanceId, s: ServerId) {
    i in db.instances && db.instances[i].server == Some(s)
  }

  predicate OpFits(kind: Kind, op: Operation) {
    match kind
    case Start => op.EnsureInstance? || op.StopInstance?
    case Terminate => op.StopInstance?
    case Extend => op.UpdateDeadline?
    case Inspect => op.InspectInstance?
    case Reconcile => op.InspectInstance?
  }

  // ------------------------------------------------------------------ workers

  predicate JobFits(w: World, job: Job) { JobOk(w.db, job) && job.token in w.issued }

  predicate SameGeneration(f: Frame) { f.snapshot.Some? && f.snapshot.value.generation == f.job.generation }

  predicate BeforePlacement(pc: Pc) { pc.Loaded? || pc.Admitted? || pc.Rejecting? }

  /** How far a snapshot read outside any transaction may be trusted. */
  predicate SnapshotFits(db: Db, job: Job, snap: Instance, pc: Pc)
    requires job.instance in db.instances
  {
    var row := db.instances[job.instance];
    && (snap.server.Some? ==> row.server == snap.server)
    && (!job.kind.Start? && snap.generation == job.generation ==> row.server == snap.server)
    && (job.kind.Start? && HoldsClaim(db, job) && BeforePlacement(pc) ==> row.server == snap.server)
    && (!snap.active ==> !row.active)
  }

  /** The newest journal record of the job's command carries its generation and host. */
  predicate Logged(log: Journal.Log, job: Job, s: ServerId) {
    var current := Journal.Replay(log);
    var key := (job.instance, job.id);
    key in current && current[key].generation == job.generation && current[key].server == Some(s)
  }

  predicate LoggedIntent(log: Journal.Log, job: Job, op: Operation, s: ServerId) {
    var current := Journal.Replay(log);
    var key := (job.instance, job.id);
    Logged(log, job, s) && current[key].operation == op && current[key].phase.Intent?
  }

  predicate Remote(w: World, f: Frame, op: Operation, s: ServerId) {
    SameGeneration(f) && OpFits(f.job.kind, op) && PlacedOn(w.db, f.job.instance, s)
  }

  predicate PcFits(w: World, k: ControllerId, f: Frame) {
    match f.pc
    case Fetched => true
    case Loaded => SameGeneration(f)
    case Admitted => SameGeneration(f) && (f.job.kind.Start? || f.job.kind.Terminate?)
    case Rejecting(o) => f.job.kind.Start? && (o.Expired? || o.Failed?)
    case Completing => f.job.kind.Terminate?
    case FinishingLocally => SameGeneration(f) && f.job.kind.Terminate? && f.snapshot.value.server.None?
    case Logging(op, s) => Remote(w, f, op, s)
    case Sending(op, s) => Remote(w, f, op, s) && LoggedIntent(LogOf(w, k), f.job, op, s)
    case Awaiting(op, s) => Remote(w, f, op, s)
    case Answered(op, s, _) =>
      Remote(w, f, op, s) && (op.StopInstance? ==> Fenced(HostOf(w, s, f.job.instance)))
    case Cancelling(acks) => acks != [] ==> f.snapshot.Some?
    case Acking(acks) => !HoldsClaim(w.db, f.job) && (acks != [] ==> f.snapshot.Some?)
    case Erring => true
  }

  predicate FrameOk(w: World, k: ControllerId, f: Frame) {
    && JobFits(w, f.job) && f.job.instance in w.db.instances
    && (f.snapshot.Some? ==> SnapshotFits(w.db, f.job, f.snapshot.value, f.pc))
    && PcFits(w, k, f)
  }

  predicate RecordOk(db: Db, r: Journal.Record) {
    && r.command in db.commands && db.commands[r.command].instance == r.instance
    && db.commands[r.command].generation == r.generation
    && (r.server.Some? ==> PlacedOn(db, r.instance, r.server.value))
  }

  /** Nothing this controller sent for the command is still covered by a claim. */
  ghost predicate NoClaimSent(w: World, k: ControllerId, c: CommandId) {
    forall q | q in w.sent && q.origin.ByJob? && q.origin.controller == k && q.origin.job.id == c ::
      !HoldsClaim(w.db, q.origin.job)
  }

  ghost predicate ActivityOk(w: World, k: ControllerId) {
    match Doing(w, k)
    case Idle => true
    case Working(f) => FrameOk(w, k, f)
    case Reconciling(r) => RecordOk(w.db, r) && NoClaimSent(w, k, r.command)
    case Cleaning(r) => RecordOk(w.db, r)
  }

  predicate LogFits(w: World, k: ControllerId) {
    var current := Journal.Replay(LogOf(w, k));
    forall key | key in current :: RecordOk(w.db, current[key])
  }

  // ------------------------------------------------------------------ messages and hosts

  /** Write-ahead: while the claim under which a request was sent is current, the sender's journal
      still replays an unacknowledged record of it, and the sender works on nothing else of it. */
  predicate WrittenAhead(w: World, k: ControllerId, job: Job, s: ServerId) {
    HoldsClaim(w.db, job) ==>
      && Logged(LogOf(w, k), job, s)
      && (Doing(w, k).Working? && Doing(w, k).frame.job.id == job.id ==> Doing(w, k).frame.job == job)
  }

  predicate RequestOk(w: World, q: Request) {
    && PlacedOn(w.db, q.instance, q.server)
    && match q.origin
       case ByJob(k, job) =>
         && JobFits(w, job) && q.instance == job.instance && q.generation == job.generation && OpFits(job.kind, q.op)
         && WrittenAhead(w, k, job, q.server)
       case ByCleanup(_) => q.op.StopInstance?
  }

  predicate ReplyOk(w: World, p: Reply) {
    && p.request in w.sent
    && (p.request.op.StopInstance? && RemovalConfirmed(p.result) ==>
          Fenced(HostOf(w, p.request.server, p.request.instance)))
  }

  predicate HostOk(w: World, s: ServerId, i: InstanceId) {
    HostOf(w, s, i).container ==> PlacedOn(w.db, i, s)
  }

  ghost predicate TokensOk(w: World) {
    && (forall c | c in w.db.commands && w.db.commands[c].status.Claimed? :: w.db.commands[c].status.token in w.issued)
    && (forall j, k | j != k && Doing(w, j).Working? && Doing(w, k).Working? ::
          Doing(w, j).frame.job.token != Doing(w, k).frame.job.token)
  }

  ghost predicate Inv(w: World) {
    && DbInv(w.db)
    && WithinPeak(w.db)
    && TokensOk(w)
    && (forall k :: ActivityOk(w, k))
    && (forall k :: LogFits(w, k))
    && (forall q | q in w.sent :: RequestOk(w, q))
    && (forall p | p in w.replies :: ReplyOk(w, p))
    && (forall s, i :: HostOk(w, s, i))
  }
}
