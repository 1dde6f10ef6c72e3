/** The runtime control plane as a transition system. Any number of controllers work on the same
    database; each runs one command at a time and keeps its own journal. A controller may crash, lose
    its claim or be replaced between any two steps. An SSH request, once sent, may reach its host at
    any later time and any number of times. */
module RuntimeProtocol {
  import opened Options
  import opened RuntimeRows
  import opened RemoteHelper
  import Journal
  import Json

  type ControllerId = nat
  type Place = (ServerId, InstanceId)

  datatype Origin = ByJob(controller: ControllerId, job: Job) | ByCleanup(controller: ControllerId)

  /** `deadline` is the `expires_at` of the payload. */
  datatype Request = Request(
    origin: Origin,
    op: Operation,
    server: ServerId,
    instance: InstanceId,
    generation: nat,
    deadline: int)
  datatype Reply = Reply(request: Request, result: Result)

  /** Where `execute_command` stands. */
  datatype Pc =
    | Fetched                                                    // claimed, instance not read yet
    | Loaded                                                     // snapshot read, generations agree
    | Admitted                                                   // start gate open, or termination to be marked
    | Rejecting(observed: Observed)                              // reject_start / expire_unstarted_instance next
    | Completing                                                 // complete_command next
    | FinishingLocally                                           // finish_termination without a host next
    | Logging(op: Operation, server: ServerId)                   // journal.intent next
    | Sending(op: Operation, server: ServerId)                   // remote.execute next
    | Awaiting(op: Operation, server: ServerId)
    | Answered(op: Operation, server: ServerId, result: Result)  // checked, the database comes next
    | Cancelling(acks: seq<Operation>)                           // cancel_command next, then the journal
    | Acking(acks: seq<Operation>)                               // journal.acknowledged, once per operation
    | Erring                                                     // schedule_retry next

  datatype Frame = Frame(job: Job, snapshot: Option<Instance>, pc: Pc)

  datatype Activity =
    | Idle
    | Working(frame: Frame)
    | Reconciling(record: Journal.Record)                        // database state read, acknowledgement next
    | Cleaning(record: Journal.Record)                           // degraded stop sent

  /** `lag` bounds how far a host's clock is from the database's, for good. */
  datatype World = World(
    db: Db,
    now: int,
    lag: nat,
    issued: set<Token>,
    hosts: map<Place, Helper>,
    sent: set<Request>,
    replies: set<Reply>,
    controllers: map<ControllerId, Activity>,
    journals: map<ControllerId, Journal.Log>)

  function HostOf(w: World, s: ServerId, i: InstanceId): Helper {
    if (s, i) in w.hosts then w.hosts[(s, i)] else PRISTINE
  }

  function Doing(w: World, k: ControllerId): Activity {
    if k in w.controllers then w.controllers[k] else Idle
  }

  function LogOf(w: World, k: ControllerId): Journal.Log {
    if k in w.journals then w.journals[k] else []
  }

  function Do(w: World, k: ControllerId, a: Activity): World { w.(controllers := w.controllers[k := a]) }

  function Append(w: World, k: ControllerId, r: Journal.Record): World {
    w.(journals := w.journals[k := LogOf(w, k) + [r]])
  }

  function Goto(w: World, k: ControllerId, f: Frame, pc: Pc): World { Do(w, k, Working(f.(pc := pc))) }

  /** `remote_payload`: the deadline is the snapshot's desired expiry. */
  function JobRequest(k: ControllerId, job: Job, op: Operation, s: ServerId, snapshot: Instance): Request {
    Request(ByJob(k, job), op, s, job.instance, job.generation, snapshot.desiredExpiresAt)
  }

  function CleanupRequest(k: ControllerId, r: Journal.Record): Request
    requires r.server.Some?
  {
    Request(ByCleanup(k), StopInstance, r.server.value, r.instance, r.generation, r.expiresAt)
  }

  /** `journal_intent` with a phase. `append_locked` redacts the payload. */
  function JournalEntry(job: Job, snapshot: Instance, op: Operation, s: Option<ServerId>, phase: Journal.Phase,
                        result: Option<Result>, payload: Option<Json.Json>, at: int): Journal.Record {
    var expiry := match result case Some(r) => r.expiresAt.GetOr(snapshot.desiredExpiresAt)
                               case None => snapshot.desiredExpiresAt;
    Journal.Redact(Journal.Record(job.instance, job.id, job.generation, op, phase, s, expiry, result, payload, at))
  }

  // ------------------------------------------------------------------ the result checks

  predicate GenerationConfirmed(result: Result, generation: nat) {
    !result.stale && result.generation == Some(generation)
  }

  predicate StartupConfirmed(result: Result, generation: nat) {
    GenerationConfirmed(result, generation) && !result.absent && result.hasContainerId && result.ready
  }

  predicate RemovalConfirmed(result: Result) { !result.stale && result.absent }

  /** Checks that come before the result is journaled. */
  predicate PassesBeforeLog(op: Operation, result: Result, generation: nat) {
    match op
    case EnsureInstance => StartupConfirmed(result, generation)
    case InspectInstance => result.absent || GenerationConfirmed(result, generation)
    case StopInstance => true
    case UpdateDeadline => true
  }

  /** Checks that come after it. */
  predicate PassesAfterLog(op: Operation, result: Result, generation: nat) {
    match op
    case EnsureInstance => true
    case InspectInstance => true
    case StopInstance => RemovalConfirmed(result)
    case UpdateDeadline => GenerationConfirmed(result, generation)
  }

  function SightingOf(result: Result): Sighting {
    if result.absent then Absent else if result.ready then Healthy else NotReady
  }

  /** `database_finished` in `reconcile_database_acknowledgements`. */
  predicate DatabaseFinished(db: Db, r: Journal.Record) {
    if r.command !in db.commands || db.commands[r.command].instance != r.instance || r.instance !in db.instances
    then true
    else
      var cmd := db.commands[r.command];
      || Finished(cmd.status)
      || cmd.generation != r.generation
      || (db.instances[r.instance].generation != r.generation && !cmd.status.Claimed?)
  }

  // ------------------------------------------------------------------ steps of a controller

  /** Where `execute_command` goes from a loaded snapshot. */
  function Dispatch(db: Db, job: Job, snap: Instance, now: int): Pc {
    match job.kind
    case Start =>
      if !snap.active || !snap.desired.Running? then Cancelling([])
      else if snap.desiredExpiresAt <= now then Rejecting(Expired)
      else if !GateOpen(db, job, snap.challenge) then Rejecting(Observed.Failed)
      else Admitted
    case Terminate => if !snap.active then Completing else Admitted
    case Extend =>
      if !snap.active || !snap.desired.Running? || snap.expiresAt <= now then Cancelling([])
      else if snap.server.None? then Erring
      else Logging(UpdateDeadline, snap.server.value)
    case Inspect => if snap.server.None? then Cancelling([]) else Logging(InspectInstance, snap.server.value)
    case Reconcile => if snap.server.None? then Cancelling([]) else Logging(InspectInstance, snap.server.value)
  }

  /** The database part that follows a checked answer: the next pc and the new database. */
  ghost function Conclude(db: Db, f: Frame, newId: CommandId, now: int): (Pc, Db)
    requires f.pc.Answered? && f.snapshot.Some?
  {
    var job, snap, s, result := f.job, f.snapshot.value, f.pc.server, f.pc.result;
    var effective := result.expiresAt.GetOr(snap.desiredExpiresAt);
    match f.pc.op
    case EnsureInstance =>
      if effective > snap.maximumExpiresAt then (Erring, db)
      else
        var (outcome, db') := FinishStart(db, job, s, effective, now);
        (match outcome case Applied => Acking([EnsureInstance])
                       case NoRow => Logging(StopInstance, s)
                       case ClaimLost => Erring,
         db')
    case StopInstance =>
      if job.kind.Start? then (Cancelling([StopInstance, EnsureInstance]), db)
      else
        var (outcome, db') := FinishTermination(db, job, snap.expiresAt, now);
        (if outcome.Applied? then Acking([StopInstance]) else Cancelling([StopInstance]), db')
    case UpdateDeadline =>
      if effective > snap.maximumExpiresAt || effective <= now then (Erring, db)
      else
        var (outcome, db') := FinishExtension(db, job, effective, now);
        (if outcome.Applied? then Acking([UpdateDeadline]) else Cancelling([UpdateDeadline]), db')
    case InspectInstance =>
      var (outcome, db') := FinishInspection(db, job, snap, SightingOf(result), newId, now);
      (if outcome.Applied? then Acking([InspectInstance]) else Cancelling([InspectInstance]), db')
  }

  datatype Label =
    // a controller and its command
    | Claim(k: ControllerId, c: CommandId, token: Token)
    | Load(k: ControllerId)
    | Decide(k: ControllerId)
    | PlaceOn(k: ControllerId, s: ServerId)
    | Stop(k: ControllerId)
    | RejectTx(k: ControllerId)
    | CompleteTx(k: ControllerId)
    | FinishLocal(k: ControllerId)
    | LogIntent(k: ControllerId, payload: Json.Json)
    | Send(k: ControllerId)
    | Receive(k: ControllerId, result: Result, payload: Json.Json)
    | Commit(k: ControllerId, newId: CommandId)
    | CancelTx(k: ControllerId)
    | AckNext(k: ControllerId)
    | Fail(k: ControllerId)
    | Retry(k: ControllerId, maxAttempts: nat, newId: CommandId)
    | Crash(k: ControllerId)
    // a controller between commands
    | ReadForAck(k: ControllerId, key: Journal.Key)
    | AckFinished(k: ControllerId)
    | CleanupSend(k: ControllerId, key: Journal.Key)
    | CleanupDone(k: ControllerId, result: Result, payload: Json.Json)
    | Compact(k: ControllerId, compacted: Journal.Log)
    | Recover(claimedBefore: Option<int>)
    | EnqueueTermination(i: InstanceId, reason: Reason, newId: CommandId)
    | EnqueueInspection(i: InstanceId, minimumAge: Option<nat>, newId: CommandId)
    // the API
    | ApiCreate(i: InstanceId, newId: CommandId, challenge: ChallengeId, pool: Option<string>, expiry: int,
        maximum: int)
    | ApiTerminate(i: InstanceId, newId: CommandId)
    | ApiExtend(i: InstanceId, until: int, newId: CommandId)
    | ApiReconcile(i: InstanceId, newId: CommandId)
    | ApiServer(s: ServerId, capacity: nat, enabled: bool, pool: Option<string>)
    | ApiPolicy(policy: Policy)
    // hosts and time
    | Deliver(request: Request, hostNow: int, helper: Helper, out: Option<Result>)
    | HostAlone(s: ServerId, i: InstanceId, helper: Helper)
    | Tick(now: int)

  predicate Acts(l: Label, k: ControllerId) {
    match l
    case Load(x) => x == k
    case Decide(x) => x == k
    case PlaceOn(x, _) => x == k
    case Stop(x) => x == k
    case RejectTx(x) => x == k
    case CompleteTx(x) => x == k
    case FinishLocal(x) => x == k
    case LogIntent(x, _) => x == k
    case Send(x) => x == k
    case Receive(x, _, _) => x == k
    case Commit(x, _) => x == k
    case CancelTx(x) => x == k
    case AckNext(x) => x == k
    case Fail(x) => x == k
    case Retry(x, _, _) => x == k
    case _ => false
  }

  /** A step of controller `k` on the command it is working on. */
  ghost predicate FrameStep(w: World, w': World, l: Label, k: ControllerId, f: Frame) {
    var db, job, now := w.db, f.job, w.now;
    match l
    case Load(_) =>
      f.pc.Fetched? && job.instance in db.instances
      && var snap := db.instances[job.instance];
      w' == Do(w, k,
          Working(Frame(job, Some(snap), if snap.generation == job.generation then Loaded else Cancelling([]))))
    case Decide(_) =>
      f.pc.Loaded? && f.snapshot.Some? && w' == Goto(w, k, f, Dispatch(db, job, f.snapshot.value, now))
    case PlaceOn(_, s) =>
      && f.pc.Admitted? && job.kind.Start? && f.snapshot.Some?
      && (f.snapshot.value.server == Some(s)
          || (f.snapshot.value.server.None? && (HoldsClaim(db, job) ==> Selectable(db, f.snapshot.value.pool, s))))
      && var (outcome, db') := MarkStarting(db, job, s, now);
      w' == Goto(w.(db := db'), k, f, if outcome.Applied? then Logging(EnsureInstance, s) else Cancelling([]))
    case Stop(_) =>
      && f.pc.Admitted? && job.kind.Terminate? && f.snapshot.Some?
      && var (outcome, db') := MarkStopping(db, job, now);
      w' == Goto(w.(db := db'), k, f,
                 if !outcome.Applied? then Cancelling([])
                 else if f.snapshot.value.server.Some? then Logging(StopInstance, f.snapshot.value.server.value)
                 else FinishingLocally)
    case RejectTx(_) =>
      f.pc.Rejecting? && w' == Do(w.(db := RejectStart(db, job, f.pc.observed, now)), k, Idle)
    case CompleteTx(_) =>
      f.pc.Completing? && w' == Do(w.(db := FinishIfHeld(db, job, Completed, now)), k, Idle)
    case FinishLocal(_) =>
      && f.pc.FinishingLocally? && f.snapshot.Some?
      && var (outcome, db') := FinishTermination(db, job, f.snapshot.value.expiresAt, now);
      w' == if outcome.Applied? then Do(w.(db := db'), k, Idle) else Goto(w.(db := db'), k, f, Cancelling([]))
    case LogIntent(_, payload) =>
      && f.pc.Logging? && f.snapshot.Some?
      && w' == Goto(Append(w, k, JournalEntry(job, f.snapshot.value, f.pc.op, Some(f.pc.server), Journal.Intent, None,
                                              Some(payload), now)),
                    k, f, Sending(f.pc.op, f.pc.server))
    case Send(_) =>
      && f.pc.Sending? && f.snapshot.Some?
      && w' == Goto(w.(sent := w.sent + {JobRequest(k, job, f.pc.op, f.pc.server, f.snapshot.value)}), k, f,
          Awaiting(f.pc.op, f.pc.server))
    case Receive(_, result, payload) =>
      && f.pc.Awaiting? && f.snapshot.Some?
      && Reply(JobRequest(k, job, f.pc.op, f.pc.server, f.snapshot.value), result) in w.replies
      && (if !PassesBeforeLog(f.pc.op, result, job.generation) then w' == Goto(w, k, f, Erring)
          else w' == Goto(Append(w, k, JournalEntry(job, f.snapshot.value, f.pc.op, Some(f.pc.server),
                                                    Journal.RemoteResult, Some(result), Some(payload), now)),
                          k, f, if PassesAfterLog(f.pc.op, result, job.generation)
                                then Answered(f.pc.op, f.pc.server, result) else Erring))
    case Commit(_, newId) =>
      && f.pc.Answered? && f.snapshot.Some? && newId !in db.commands
      && var (pc, db') := Conclude(db, f, newId, now);
      w' == Goto(w.(db := db'), k, f, pc)
    case CancelTx(_) =>
      && f.pc.Cancelling?
      && w' == Goto(w.(db := FinishIfHeld(db, job, Cancelled, now)), k, f, Acking(f.pc.acks))
    case AckNext(_) =>
      && f.pc.Acking?
      && (if f.pc.acks == [] then w' == Do(w, k, Idle)
          else f.snapshot.Some?
               && w' == Goto(Append(w, k, JournalEntry(job, f.snapshot.value, f.pc.acks[0], None,
                                                       Journal.DatabaseAcknowledged, None, None, now)),
                             k, f, Acking(f.pc.acks[1..])))
    case Fail(_) => w' == Goto(w, k, f, Erring)
    case Retry(_, maxAttempts, newId) =>
      && f.pc.Erring? && newId !in db.commands
      && w' == Do(w.(db := ScheduleRetry(db, job, maxAttempts, newId, now)), k, Idle)
    case _ => false
  }

  ghost predicate Step(w: World, w': World, l: Label) {
    var db, now := w.db, w.now;
    match l
    case Claim(k, c, token) =>
      && Doing(w, k).Idle? && c in db.commands && Available(db.commands[c], now) && token !in w.issued
      && var db' := ClaimRow(db, c, token, now);
      w' == Do(w.(db := db', issued := w.issued + {token}), k, Working(Frame(JobOf(db', c, token), None, Fetched)))
    case Crash(k) => w' == Do(w, k, Idle)
    case ReadForAck(k, key) =>
      var current := Journal.Replay(LogOf(w, k));
      && Doing(w, k).Idle? && key in current && DatabaseFinished(db, current[key])
      && w' == Do(w, k, Reconciling(current[key]))
    case AckFinished(k) =>
      && Doing(w, k).Reconciling?
      && w' == Do(Append(w, k, Doing(w, k).record.(
                                 phase := Journal.DatabaseAcknowledged, result := None, payload := None,
                                                   updatedAt := now)), k, Idle)
    case CleanupSend(k, key) =>
      var current := Journal.Replay(LogOf(w, k));
      && Doing(w, k).Idle? && key in current
      && var r := current[key];
      && !r.phase.DegradedCleanup? && r.expiresAt <= now && r.server.Some?
      && w' == Do(w.(sent := w.sent + {CleanupRequest(k, r)}), k, Cleaning(r))
    case CleanupDone(k, result, payload) =>
      && Doing(w, k).Cleaning? && Doing(w, k).record.server.Some?
      && var r := Doing(w, k).record;
      && Reply(CleanupRequest(k, r), result) in w.replies
      && w' == if result.absent || result.stale
               then Do(Append(w, k, Journal.Redact(r.(phase := Journal.DegradedCleanup, result := Some(result),
                                                      payload := Some(payload), updatedAt := now))), k, Idle)
               else Do(w, k, Idle)
    case Compact(k, compacted) =>
      Journal.Compaction(LogOf(w, k), compacted) && w' == w.(journals := w.journals[k := compacted])
    case Recover(claimedBefore) => w' == w.(db := RecoverClaims(db, claimedBefore, now))
    case EnqueueTermination(i, reason, newId) =>
      newId !in db.commands && w' == w.(db := CreateTermination(db, i, reason, newId, now))
    case EnqueueInspection(i, minimumAge, newId) =>
      newId !in db.commands && WantsInspection(db, i, minimumAge, now)
      && w' == w.(db := InsertInspection(db, i, Inspect, newId, now))
    case ApiCreate(i, newId, challenge, pool, expiry, maximum) =>
      i !in db.instances && newId !in db.commands && challenge in db.policy.runtimes && expiry <= maximum
      && w' == w.(db := CreateInstance(db, i, newId, challenge, pool, expiry, maximum, now))
    case ApiTerminate(i, newId) => newId !in db.commands && w' == w.(db := RequestTermination(db, i, newId, now))
    case ApiExtend(i, until, newId) => newId !in db.commands
        && w' == w.(db := RequestExtension(db, i, until, newId, now))
    case ApiReconcile(i, newId) => newId !in db.commands && w' == w.(db := RequestReconcile(db, i, newId, now))
    case ApiServer(s, capacity, enabled, pool) => w' == w.(db := PutServer(db, s, capacity, enabled, pool))
    case ApiPolicy(policy) => w' == w.(db := db.(policy := policy))
    case Deliver(r, hostNow, h', out) =>
      && r in w.sent && now - w.lag <= hostNow <= now + w.lag
      && HelperStep(r.op, HostOf(w, r.server, r.instance), r.generation, r.deadline <= hostNow, h', out)
      && w' == w.(hosts := w.hosts[(r.server, r.instance) := h'],
                  replies := match out case Some(result) => w.replies + {Reply(r, result)} case None => w.replies)
    case HostAlone(s, i, h') =>
      HostStep(HostOf(w, s, i), h') && w' == w.(hosts := w.hosts[(s, i) := h'])
    case Tick(later) => now <= later && w' == w.(now := later)
    case _ =>
      exists k :: Acts(l, k) && Doing(w, k).Working? && FrameStep(w, w', l, k, Doing(w, k).frame)
  }

  /** An empty installation. */
  predicate Init(w: World) {
    && w.db.instances == map[] && w.db.commands == map[] && w.db.servers == map[]
    && w.issued == {} && w.hosts == map[] && w.sent == {} && w.replies == {}
    && w.controllers == map[] && w.journals == map[]
  }

  ghost predicate IsRun(run: seq<World>, labels: seq<Label>) {
    && |run| == |labels| + 1
    && Init(run[0])
    && forall n | 0 <= n < |labels| :: Step(run[n], run[n + 1], labels[n])
  }
}
