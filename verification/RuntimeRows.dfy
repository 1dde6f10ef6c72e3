/** The PostgreSQL rows of the runtime control plane, and the transactions the controller and the
    API run on them. Every transaction is one atomic function on the whole database value: it gives
    the new database and, where the caller looks at `rows_affected`, what it found. */
module RuntimeRows {
  import opened Options
  import opened Retries

  type InstanceId = nat
  type CommandId = nat
  type ServerId = nat
  type ChallengeId = nat
  type Token = nat

  datatype Desired = Running | Stopped
  datatype Observed =
    | Requested | Starting | Ready | Stopping | CleanupPending | Terminated | Expired | Failed | Unknown

  datatype Instance = Instance(
    challenge: ChallengeId,
    pool: Option<string>,
    settingRevision: int,
    runtimeRevision: int,
    active: bool,
    desired: Desired,
    observed: Observed,
    generation: nat,
    server: Option<ServerId>,
    desiredExpiresAt: int,
    maximumExpiresAt: int,
    expiresAt: int,
    lastObservedAt: Option<int>,
    createdAt: int)

  datatype Kind = Start | Terminate | Extend | Inspect | Reconcile
  datatype Reason = DeadlineReached | OtherReason
  datatype Status = Pending | Claimed(token: Token, claimedAt: int) | Completed | Failed | Cancelled

  datatype Command = Command(
    instance: InstanceId,
    kind: Kind,
    generation: nat,
    settingRevision: int,
    runtimeRevision: int,
    reason: Reason,
    status: Status,
    attempts: nat,
    availableAt: int,
    completedAt: Option<int>)

  /** `peak` is history: the largest capacity the row has ever carried. */
  datatype Server = Server(capacity: nat, enabled: bool, pool: Option<string>, peak: nat)
  datatype RuntimeConfig = RuntimeConfig(enabled: bool, managed: bool, revision: int)
  datatype Policy = Policy(enabled: bool, revision: int, runtimes: map<ChallengeId, RuntimeConfig>)

  datatype Db = Db(
    instances: map<InstanceId, Instance>,
    commands: map<CommandId, Command>,
    servers: map<ServerId, Server>,
    policy: Policy)

  /** What `claim_command` returns: the worker's own copy of the claimed command row. */
  datatype Job = Job(
    id: CommandId,
    token: Token,
    instance: InstanceId,
    kind: Kind,
    generation: nat,
    settingRevision: int,
    runtimeRevision: int,
    reason: Reason,
    attempts: nat)

  datatype Outcome = Applied | NoRow | ClaimLost

  predicate Finished(s: Status) { s.Completed? || s.Failed? || s.Cancelled? }
  predicate Open(s: Status) { s.Pending? || s.Claimed? }

  /** `lock_command_claim`: the row is still claimed under this worker's token. */
  predicate HoldsClaim(db: Db, job: Job) {
    job.id in db.commands && db.commands[job.id].status.Claimed? && db.commands[job.id].status.token == job.token
  }

  predicate RowAt(db: Db, i: InstanceId, generation: nat) {
    i in db.instances && db.instances[i].generation == generation
  }

  predicate ActiveAt(db: Db, i: InstanceId, generation: nat) {
    RowAt(db, i, generation) && db.instances[i].active
  }

  function PutInstance(db: Db, i: InstanceId, row: Instance): Db {
    db.(instances := db.instances[i := row])
  }

  function PutCommand(db: Db, c: CommandId, row: Command): Db {
    db.(commands := db.commands[c := row])
  }

  /** `cancel_command`, `complete_command` and the `mark_command_*` helpers: a finished status,
      written only under a claim that is still held. */
  function FinishIfHeld(db: Db, job: Job, status: Status, now: int): Db
    requires Finished(status)
  {
    if HoldsClaim(db, job) then
      PutCommand(db, job.id, db.commands[job.id].(status := status, completedAt := Some(now)))
    else db
  }

  // ------------------------------------------------------------------ claiming and recovery

  predicate Available(cmd: Command, now: int) { cmd.status.Pending? && cmd.availableAt <= now }

  function ClaimRow(db: Db, c: CommandId, token: Token, now: int): Db
    requires c in db.commands
  {
    var cmd := db.commands[c];
    PutCommand(db, c, cmd.(status := Claimed(token, now), attempts := cmd.attempts + 1))
  }

  function JobOf(db: Db, c: CommandId, token: Token): Job
    requires c in db.commands
  {
    var cmd := db.commands[c];
    Job(c, token, cmd.instance, cmd.kind, cmd.generation, cmd.settingRevision, cmd.runtimeRevision,
        cmd.reason, cmd.attempts)
  }

  /** `recover_stale_claims` with a cutoff, `recover_all_claims_on_startup` without one. */
  predicate Recoverable(cmd: Command, claimedBefore: Option<int>) {
    cmd.status.Claimed? && (claimedBefore.Some? ==> cmd.status.claimedAt < claimedBefore.value)
  }

  function RecoverClaims(db: Db, claimedBefore: Option<int>, now: int): Db {
    db.(commands := map c | c in db.commands ::
          if Recoverable(db.commands[c], claimedBefore)
          then db.commands[c].(status := Pending, availableAt := now)
          else db.commands[c])
  }

  // ------------------------------------------------------------------ starting

  function PlaceRow(row: Instance, s: ServerId, now: int): Instance {
    row.(observed := Starting, server := Some(s), lastObservedAt := Some(now))
  }

  function MarkStarting(db: Db, job: Job, s: ServerId, now: int): (Outcome, Db) {
    if !HoldsClaim(db, job) then (ClaimLost, db)
    else if !ActiveAt(db, job.instance, job.generation) || !db.instances[job.instance].desired.Running?
    then (NoRow, db)
    else (Applied, PutInstance(db, job.instance, PlaceRow(db.instances[job.instance], s, now)))
  }

  ghost function ActiveOn(db: Db, s: ServerId): set<InstanceId> {
    set i | i in db.instances && db.instances[i].active && db.instances[i].server == Some(s)
  }

  /** The rows `select_remote_server_locked` may return. The query prefers the least loaded host,
      but SKIP LOCKED lets it take any of them. */
  ghost predicate Selectable(db: Db, pool: Option<string>, s: ServerId) {
    && s in db.servers
    && db.servers[s].enabled
    && (pool.None? || db.servers[s].pool == pool)
    && |ActiveOn(db, s)| < db.servers[s].capacity
  }

  /** The result checks of `finish_start` come first and read only the snapshot. */
  function FinishStart(db: Db, job: Job, s: ServerId, effective: int, now: int): (Outcome, Db) {
    if !HoldsClaim(db, job) then (ClaimLost, db)
    else if !RowAt(db, job.instance, job.generation) then (NoRow, db)
    else
      var row := db.instances[job.instance].(observed := Ready, expiresAt := effective, server := Some(s),
                                             lastObservedAt := Some(now));
      (Applied, FinishIfHeld(PutInstance(db, job.instance, row), job, Completed, now))
  }

  function RejectStart(db: Db, job: Job, observed: Observed, now: int): Db {
    if !HoldsClaim(db, job) then db
    else
      var db1 :=
        if ActiveAt(db, job.instance, job.generation) && db.instances[job.instance].observed.Requested?
        then PutInstance(db, job.instance, db.instances[job.instance].(
                           active := false, desired := Stopped, observed := observed, lastObservedAt := Some(now)))
        else db;
      FinishIfHeld(db1, job, Cancelled, now)
  }

  // ------------------------------------------------------------------ stopping

  function MarkStopping(db: Db, job: Job, now: int): (Outcome, Db) {
    if !HoldsClaim(db, job) then (ClaimLost, db)
    else if !ActiveAt(db, job.instance, job.generation) then (NoRow, db)
    else (Applied, PutInstance(db, job.instance, db.instances[job.instance].(
                                 observed := Stopping, lastObservedAt := Some(now))))
  }

  function FinishTermination(db: Db, job: Job, snapshotExpiry: int, now: int): (Outcome, Db) {
    var expired := snapshotExpiry <= now || job.reason.DeadlineReached?;
    if !HoldsClaim(db, job) then (ClaimLost, db)
    else if !ActiveAt(db, job.instance, job.generation) then (NoRow, db)
    else
      var row := db.instances[job.instance].(active := false, desired := Stopped,
                                             observed := if expired then Expired else Terminated,
                                             lastObservedAt := Some(now));
      (Applied, FinishIfHeld(PutInstance(db, job.instance, row), job, Completed, now))
  }

  predicate OpenTerminate(db: Db, c: CommandId, i: InstanceId) {
    c in db.commands && db.commands[c].instance == i && db.commands[c].kind.Terminate?
    && Open(db.commands[c].status)
  }

  ghost predicate HasOpenTerminate(db: Db, i: InstanceId) {
    exists c :: OpenTerminate(db, c, i)
  }

  function NewCommand(row: Instance, i: InstanceId, kind: Kind, generation: nat, reason: Reason, now: int): Command {
    Command(i, kind, generation, row.settingRevision, row.runtimeRevision, reason, Pending, 0, now, None)
  }

  /** A command as an INSERT leaves it: due at once, never attempted, under its instance's revisions. */
  predicate Inserted(cmd: Command, row: Instance, i: InstanceId, kind: Kind, generation: nat, reason: Reason,
                     now: int) {
    && cmd.instance == i && cmd.kind == kind && cmd.generation == generation && cmd.reason == reason
    && cmd.settingRevision == row.settingRevision && cmd.runtimeRevision == row.runtimeRevision
    && cmd.status.Pending? && cmd.availableAt == now && cmd.attempts == 0 && cmd.completedAt.None?
  }

  /** `create_termination_command_in_transaction`, with the id the INSERT would get. */
  ghost function CreateTermination(db: Db, i: InstanceId, reason: Reason, newId: CommandId, now: int): Db {
    if i !in db.instances || !db.instances[i].active || HasOpenTerminate(db, i) then db
    else
      var row := db.instances[i];
      var generation := row.generation + 1;
      PutCommand(PutInstance(db, i, row.(desired := Stopped, generation := generation)),
                 newId, NewCommand(row, i, Terminate, generation, reason, now))
  }

  // ------------------------------------------------------------------ extending and inspecting

  function FinishExtension(db: Db, job: Job, effective: int, now: int): (Outcome, Db) {
    if !HoldsClaim(db, job) then (ClaimLost, db)
    else if !ActiveAt(db, job.instance, job.generation) then (NoRow, db)
    else
      var row := db.instances[job.instance].(expiresAt := effective, lastObservedAt := Some(now));
      (Applied, FinishIfHeld(PutInstance(db, job.instance, row), job, Completed, now))
  }

  datatype Sighting = Absent | NotReady | Healthy

  ghost function FinishInspection(db: Db, job: Job, snapshot: Instance, seen: Sighting, newId: CommandId, now: int)
    : (Outcome, Db)
  {
    if !HoldsClaim(db, job) then (ClaimLost, db)
    else if !ActiveAt(db, job.instance, job.generation) then (NoRow, db)
    else
      var row := db.instances[job.instance].(lastObservedAt := Some(now));
      var db1 :=
        match seen
        case Absent =>
          var expired := snapshot.expiresAt <= now || snapshot.desired.Stopped?;
          PutInstance(db, job.instance, row.(active := false, observed := if expired then Expired else Observed.Failed))
        case NotReady =>
          CreateTermination(PutInstance(db, job.instance, row.(observed := CleanupPending)),
                            job.instance, OtherReason, newId, now)
        case Healthy =>
          PutInstance(db, job.instance, row.(observed := Ready));
      (Applied, FinishIfHeld(db1, job, Completed, now))
  }

  // ------------------------------------------------------------------ retrying

  /** `schedule_retry`: a retry with back-off, or, when the attempts are used up, a failed command
      together with the instance's new state and, for a start, its clean-up command. */
  ghost function ScheduleRetry(db: Db, job: Job, maxAttempts: nat, newId: CommandId, now: int): Db {
    if !HoldsClaim(db, job) then db
    else if job.attempts < maxAttempts then
      PutCommand(db, job.id, db.commands[job.id].(status := Pending, availableAt := now + RetryBackoff(job.attempts)))
    else
      var failed := FinishIfHeld(db, job, Status.Failed, now);
      if !ActiveAt(failed, job.instance, job.generation) then failed
      else
        var observed :=
          if job.kind.Extend? then Ready else if job.kind.Inspect? || job.kind.Reconcile? then Unknown
              else CleanupPending;
        var marked := PutInstance(failed, job.instance, failed.instances[job.instance].(
                                    observed := observed, lastObservedAt := Some(now)));
        if job.kind.Start? then CreateTermination(marked, job.instance, OtherReason, newId, now) else marked
  }

  // ------------------------------------------------------------------ gate and enqueueing

  /** The runtime gate of `execute_start`. */
  predicate GateOpen(db: Db, job: Job, challenge: ChallengeId) {
    && db.policy.enabled
    && challenge in db.policy.runtimes
    && db.policy.runtimes[challenge].enabled
    && db.policy.runtimes[challenge].managed
    && job.settingRevision == db.policy.revision
    && job.runtimeRevision == db.policy.runtimes[challenge].revision
  }

  predicate Disallowed(db: Db, row: Instance) {
    || row.desired.Stopped?
    || !db.policy.enabled
    || row.challenge !in db.policy.runtimes
    || !db.policy.runtimes[row.challenge].enabled
    || !db.policy.runtimes[row.challenge].managed
  }

  predicate RecentlyFailedTerminate(db: Db, c: CommandId, i: InstanceId, window: nat, now: int) {
    c in db.commands && db.commands[c].instance == i && db.commands[c].kind.Terminate?
    && db.commands[c].status.Failed? && db.commands[c].completedAt.Some?
    && db.commands[c].completedAt.value > now - window
  }

  ghost predicate CleanupUnderway(db: Db, i: InstanceId, window: nat, now: int) {
    HasOpenTerminate(db, i) || exists c :: RecentlyFailedTerminate(db, c, i, window, now)
  }

  /** `enqueue_active_inspections`, one row of it. */
  ghost predicate WantsInspection(db: Db, i: InstanceId, minimumAge: Option<nat>, now: int) {
    && i in db.instances
    && var row := db.instances[i];
    && row.active && row.desired.Running? && row.expiresAt > now && row.server.Some?
    && (row.observed.Ready? || row.observed.Starting? || row.observed.Unknown?)
    && (minimumAge.Some? ==> row.lastObservedAt.GetOr(row.createdAt) <= now - minimumAge.value)
    && !exists c :: c in db.commands && db.commands[c].instance == i && Open(db.commands[c].status)
  }

  function InsertInspection(db: Db, i: InstanceId, kind: Kind, newId: CommandId, now: int): Db
    requires i in db.instances
  {
    PutCommand(db, newId, NewCommand(db.instances[i], i, kind, db.instances[i].generation, OtherReason, now))
  }

  // ------------------------------------------------------------------ the API's own writes

  function CreateInstance(db: Db, i: InstanceId, c: CommandId, challenge: ChallengeId, pool: Option<string>,
                          expiresAt: int, maximum: int, now: int): Db
    requires challenge in db.policy.runtimes
  {
    var row := Instance(challenge, pool, db.policy.revision, db.policy.runtimes[challenge].revision, true, Running,
                        Requested, 1, None, expiresAt, maximum, expiresAt, None, now);
    PutCommand(PutInstance(db, i, row), c, NewCommand(row, i, Start, 1, OtherReason, now))
  }

  function RequestTermination(db: Db, i: InstanceId, newId: CommandId, now: int): Db {
    if i !in db.instances || !db.instances[i].active || db.instances[i].desired.Stopped? then db
    else
      var row := db.instances[i];
      PutCommand(PutInstance(db, i, row.(desired := Stopped, generation := row.generation + 1)),
                 newId, NewCommand(row, i, Terminate, row.generation + 1, OtherReason, now))
  }

  function RequestExtension(db: Db, i: InstanceId, until: int, newId: CommandId, now: int): Db {
    if i !in db.instances then db
    else
      var row := db.instances[i];
      if !row.active || !row.desired.Running? || !row.observed.Ready? || row.expiresAt <= now
         || until <= row.desiredExpiresAt || until > row.maximumExpiresAt
      then db
      else
        PutCommand(PutInstance(db, i, row.(desiredExpiresAt := until, generation := row.generation + 1)),
                   newId, NewCommand(row, i, Extend, row.generation + 1, OtherReason, now))
  }

  /** `reconcile_instance`: unlike the other API commands it keeps the instance's generation. */
  ghost function RequestReconcile(db: Db, i: InstanceId, newId: CommandId, now: int): Db {
    if i !in db.instances || db.instances[i].server.None?
       || exists c :: c in db.commands && db.commands[c].instance == i && db.commands[c].kind.Reconcile?
                      && db.commands[c].generation == db.instances[i].generation && Open(db.commands[c].status)
    then db
    else InsertInspection(db, i, Reconcile, newId, now)
  }

  function PutServer(db: Db, s: ServerId, capacity: nat, enabled: bool, pool: Option<string>): Db {
    var before := if s in db.servers then db.servers[s].peak else 0;
    db.(servers := db.servers[s := Server(capacity, enabled, pool, if capacity > before then capacity else before)])
  }
}
