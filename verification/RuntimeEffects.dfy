/** What the transactions of the control plane do, read off the stored columns: exactly when each one writes,
    which columns it writes, and what it leaves alone. */
module RuntimeEffects {
  import opened Options
  import opened Retries
  import opened RuntimeRows
  import opened RemoteHelper
  import opened RuntimeProtocol

  /** No instance but `i`, no host and no part of the policy is written. */
  predicate OnlyInstance(db: Db, db': Db, i: InstanceId) {
    && db'.servers == db.servers && db'.policy == db.policy && db'.instances.Keys == db.instances.Keys
    && forall j | j in db.instances && j != i :: db'.instances[j] == db.instances[j]
  }

  /** The job's command ends with this status, now, and no other command that there was is written. */
  predicate Ends(db: Db, db': Db, job: Job, status: Status, now: int) {
    && job.id in db.commands && db.commands.Keys <= db'.commands.Keys
    && db'.commands[job.id] == db.commands[job.id].(status := status, completedAt := Some(now))
    && forall c | c in db.commands && c != job.id :: db'.commands[c] == db.commands[c]
  }

  /** The row is as the command was written for, and active. */
  predicate Live(db: Db, job: Job) {
    job.instance in db.instances && db.instances[job.instance].active
    && db.instances[job.instance].generation == job.generation
  }

  // ------------------------------------------------------------------ claiming

  lemma ClaimWrites(db: Db, c: CommandId, token: Token, now: int)
    requires c in db.commands
    ensures var db', cmd := ClaimRow(db, c, token, now), db.commands[c];
            && OnlyInstance(db, db', 0) && db'.instances == db.instances && db'.commands.Keys == db.commands.Keys
            && (forall d | d in db.commands && d != c :: db'.commands[d] == db.commands[d])
            && db'.commands[c] == cmd.(status := Claimed(token, now), attempts := cmd.attempts + 1)
    ensures var job, cmd := JobOf(ClaimRow(db, c, token, now), c, token), db.commands[c];
            && job.id == c && job.token == token && job.instance == cmd.instance && job.kind == cmd.kind
            && job.generation == cmd.generation && job.settingRevision == cmd.settingRevision
            && job.runtimeRevision == cmd.runtimeRevision && job.reason == cmd.reason
            && job.attempts == cmd.attempts + 1
  {
  }

  // ------------------------------------------------------------------ starting

  lemma StartMarks(db: Db, job: Job, s: ServerId, now: int)
    ensures var (outcome, db') := MarkStarting(db, job, s, now);
            && (outcome.ClaimLost? <==> !HoldsClaim(db, job))
            && (outcome.Applied?
                <==> HoldsClaim(db, job) && Live(db, job) && db.instances[job.instance].desired.Running?)
            && (if outcome.Applied? then
                  && OnlyInstance(db, db', job.instance) && db'.commands == db.commands
                  && db'.instances[job.instance] == db.instances[job.instance].(
                       observed := Starting, server := Some(s), lastObservedAt := Some(now))
                else db' == db)
  {
  }

  /** Without a test of `active`: what the source does. */
  lemma StartFinishes(db: Db, job: Job, s: ServerId, effective: int, now: int)
    ensures var (outcome, db') := FinishStart(db, job, s, effective, now);
            && (outcome.ClaimLost? <==> !HoldsClaim(db, job))
            && (outcome.Applied? <==> HoldsClaim(db, job) && job.instance in db.instances
                                      && db.instances[job.instance].generation == job.generation)
            && (if outcome.Applied? then
                  && OnlyInstance(db, db', job.instance) && Ends(db, db', job, Completed, now)
                  && db'.commands.Keys == db.commands.Keys
                  && db'.instances[job.instance] == db.instances[job.instance].(
                       observed := Ready, expiresAt := effective, server := Some(s), lastObservedAt := Some(now))
                else db' == db)
  {
  }

  /** A rejected start is cancelled; its slot is given back exactly when the row still waits for its start. */
  ghost predicate Rejected(db: Db, db': Db, job: Job, observed: Observed, now: int) {
    && OnlyInstance(db, db', job.instance) && Ends(db, db', job, Cancelled, now)
    && db'.commands.Keys == db.commands.Keys
    && (job.instance in db.instances ==>
          db'.instances[job.instance] ==
            if Live(db, job) && db.instances[job.instance].observed.Requested?
            then db.instances[job.instance].(
                   active := false, desired := Stopped, observed := observed, lastObservedAt := Some(now))
            else db.instances[job.instance])
  }

  lemma StartRejects(db: Db, job: Job, observed: Observed, now: int)
    ensures var db' := RejectStart(db, job, observed, now);
            if HoldsClaim(db, job) then Rejected(db, db', job, observed, now) else db' == db
  {
  }

  // ------------------------------------------------------------------ stopping

  lemma StopMarks(db: Db, job: Job, now: int)
    ensures var (outcome, db') := MarkStopping(db, job, now);
            && (outcome.ClaimLost? <==> !HoldsClaim(db, job))
            && (outcome.Applied? <==> HoldsClaim(db, job) && Live(db, job))
            && (if outcome.Applied? then
                  && OnlyInstance(db, db', job.instance) && db'.commands == db.commands
                  && db'.instances[job.instance] == db.instances[job.instance].(
                       observed := Stopping, lastObservedAt := Some(now))
                else db' == db)
  {
  }

  /** The slot is free, and the instance has expired when its time was over or its deadline was the reason. */
  ghost predicate Terminates(db: Db, db': Db, job: Job, expiry: int, now: int) {
    && OnlyInstance(db, db', job.instance) && Ends(db, db', job, Completed, now)
    && db'.commands.Keys == db.commands.Keys
    && Live(db, job)
    && db'.instances[job.instance] == db.instances[job.instance].(
         active := false, desired := Stopped, lastObservedAt := Some(now),
         observed := if expiry <= now || job.reason == DeadlineReached then Expired else Terminated)
  }

  lemma StopFinishes(db: Db, job: Job, snapshotExpiry: int, now: int)
    ensures var (outcome, db') := FinishTermination(db, job, snapshotExpiry, now);
            && (outcome.ClaimLost? <==> !HoldsClaim(db, job))
            && (outcome.Applied? <==> HoldsClaim(db, job) && Live(db, job))
            && (if outcome.Applied? then Terminates(db, db', job, snapshotExpiry, now) else db' == db)
  {
  }

  // ------------------------------------------------------------------ extending

  ghost predicate Extends(db: Db, db': Db, job: Job, effective: int, now: int) {
    && OnlyInstance(db, db', job.instance) && Ends(db, db', job, Completed, now)
    && db'.commands.Keys == db.commands.Keys
    && Live(db, job)
    && db'.instances[job.instance] == db.instances[job.instance].(expiresAt := effective, lastObservedAt := Some(now))
  }

  lemma ExtensionFinishes(db: Db, job: Job, effective: int, now: int)
    ensures var (outcome, db') := FinishExtension(db, job, effective, now);
            && (outcome.ClaimLost? <==> !HoldsClaim(db, job))
            && (outcome.Applied? <==> HoldsClaim(db, job) && Live(db, job))
            && (if outcome.Applied? then Extends(db, db', job, effective, now) else db' == db)
  {
  }

  // ------------------------------------------------------------------ inspecting

  /** Some termination of the instance is pending or claimed. */
  ghost predicate BeingTerminated(db: Db, i: InstanceId) {
    exists c :: c in db.commands && db.commands[c].instance == i && db.commands[c].kind.Terminate?
                && (db.commands[c].status.Pending? || db.commands[c].status.Claimed?)
  }

  /** A termination that is due at once is new for the instance, at its next generation, and is the only new one. */
  ghost predicate GetsTermination(db: Db, db': Db, i: InstanceId, now: int) {
    && i in db.instances && i in db'.instances
    && db'.instances[i].desired.Stopped? && db'.instances[i].generation == db.instances[i].generation + 1
    && exists c :: c !in db.commands && db'.commands.Keys == db.commands.Keys + {c}
                   && Inserted(db'.commands[c], db.instances[i], i, Terminate, db.instances[i].generation + 1,
                               OtherReason, now)
  }

  /** What an inspection makes of an answer: a healthy workload is ready, one that is not ready is cleaned up by
      a termination, and an absent one has given its slot back. */
  ghost predicate Inspected(db: Db, db': Db, job: Job, snapshot: Instance, answer: Result, now: int) {
    && OnlyInstance(db, db', job.instance) && Ends(db, db', job, Completed, now) && Live(db, job)
    && var row, row' := db.instances[job.instance], db'.instances[job.instance];
    if answer.absent then
      && db'.commands.Keys == db.commands.Keys
      && row' == row.(active := false, lastObservedAt := Some(now), observed := row'.observed)
      && (if snapshot.expiresAt <= now || snapshot.desired.Stopped? then row'.observed.Expired?
          else row'.observed.Failed?)
    else if answer.ready then
      db'.commands.Keys == db.commands.Keys && row' == row.(observed := Ready, lastObservedAt := Some(now))
    else
      && row' == row.(observed := CleanupPending, lastObservedAt := Some(now), desired := row'.desired,
                      generation := row'.generation)
      && BeingTerminated(db', job.instance)
      && (if BeingTerminated(db, job.instance)
          then db'.commands.Keys == db.commands.Keys && row'.desired == row.desired && row'.generation == row.generation
          else GetsTermination(db, db', job.instance, now))
  }

  lemma TerminatedExactly(db: Db, i: InstanceId)
    ensures BeingTerminated(db, i) <==> HasOpenTerminate(db, i)
  {
    if BeingTerminated(db, i) {
      var c :| c in db.commands && db.commands[c].instance == i && db.commands[c].kind.Terminate?
               && (db.commands[c].status.Pending? || db.commands[c].status.Claimed?);
      assert OpenTerminate(db, c, i);
    }
    if HasOpenTerminate(db, i) {
      var c :| OpenTerminate(db, c, i);
      assert c in db.commands && db.commands[c].instance == i && db.commands[c].kind.Terminate?
             && (db.commands[c].status.Pending? || db.commands[c].status.Claimed?);
    }
  }

  /** Creating a termination: nothing beside one that is open or for an inactive instance, or else one that is due
      at once and carries the reason. */
  lemma TerminationCreates(db: Db, i: InstanceId, reason: Reason, newId: CommandId, now: int)
    requires newId !in db.commands
    ensures var db' := CreateTermination(db, i, reason, newId, now);
            if i in db.instances && db.instances[i].active && !BeingTerminated(db, i) then
              && OnlyInstance(db, db', i) && db'.commands == db.commands[newId := db'.commands[newId]]
              && Inserted(db'.commands[newId], db.instances[i], i, Terminate, db.instances[i].generation + 1, reason,
                  now)
              && db'.instances[i] == db.instances[i].(
                   desired := Stopped, generation := db.instances[i].generation + 1)
              && BeingTerminated(db', i)
            else db' == db
  {
    TerminatedExactly(db, i);
    var db' := CreateTermination(db, i, reason, newId, now);
    if db' != db { assert OpenTerminate(db', newId, i); }
    TerminatedExactly(db', i);
  }

  /** An inspection's answer by its fields, against the sighting that `finish_inspection` is given. */
  lemma InspectionFinishes(db: Db, job: Job, snapshot: Instance, answer: Result, newId: CommandId, now: int)
    requires newId !in db.commands && !job.kind.Terminate?
    requires job.id in db.commands ==> db.commands[job.id].kind == job.kind
    ensures var (outcome, db') := FinishInspection(db, job, snapshot, SightingOf(answer), newId, now);
            && (outcome.ClaimLost? <==> !HoldsClaim(db, job))
            && (outcome.Applied? <==> HoldsClaim(db, job) && Live(db, job))
            && (if outcome.Applied? then Inspected(db, db', job, snapshot, answer, now) else db' == db)
  {
    if HoldsClaim(db, job) && Live(db, job) && !answer.absent && !answer.ready {
      UnreadyIsCleanedUp(db, job, snapshot, answer, newId, now);
      hide CreateTermination, Inspected, FinishIfHeld;
    }
  }

  lemma UnreadyIsCleanedUp(db: Db, job: Job, snapshot: Instance, answer: Result, newId: CommandId, now: int)
    requires newId !in db.commands && HoldsClaim(db, job) && Live(db, job) && !answer.absent && !answer.ready
    requires !db.commands[job.id].kind.Terminate?
    ensures var i := job.instance;
            var marked := PutInstance(db, i, db.instances[i].(lastObservedAt := Some(now), observed := CleanupPending));
            var db' := FinishIfHeld(CreateTermination(marked, i, OtherReason, newId, now), job, Completed, now);
            Inspected(db, db', job, snapshot, answer, now)
  {
    var i := job.instance;
    var marked := PutInstance(db, i, db.instances[i].(lastObservedAt := Some(now), observed := CleanupPending));
    TerminationCreates(marked, i, OtherReason, newId, now);
    SameTerminations(db, marked, i);
    var terminated := CreateTermination(marked, i, OtherReason, newId, now);
    var db' := FinishIfHeld(terminated, job, Completed, now);
    hide CreateTermination, BeingTerminated;
    EndingKeepsTerminations(terminated, db', job, i, now);
    if !BeingTerminated(db, i) { assert db'.commands.Keys == db.commands.Keys + {newId}; }
  }

  lemma SameTerminations(db: Db, db': Db, i: InstanceId)
    requires db'.commands == db.commands
    ensures BeingTerminated(db, i) <==> BeingTerminated(db', i)
  {
  }

  /** Finishing a command of another kind ends no termination. */
  lemma EndingKeepsTerminations(db: Db, db': Db, job: Job, i: InstanceId, now: int)
    requires BeingTerminated(db, i) && Ends(db, db', job, Completed, now) && !db.commands[job.id].kind.Terminate?
    ensures BeingTerminated(db', i)
  {
    var c :| c in db.commands && db.commands[c].instance == i && db.commands[c].kind.Terminate?
             && (db.commands[c].status.Pending? || db.commands[c].status.Claimed?);
    assert c in db'.commands && db'.commands[c] == db.commands[c];
  }

  // ------------------------------------------------------------------ retrying

  /** What is observed of the instance of a command that has failed for good: an extension leaves it running, an
      inspection does not know, and a start or a stop has left something to clean up. */
  function AfterFailure(kind: Kind): Observed {
    match kind
    case Extend => Ready
    case Inspect => Unknown
    case Reconcile => Unknown
    case Start => CleanupPending
    case Terminate => CleanupPending
  }

  /** While attempts remain the command waits its time; then it has failed, and a start that has failed is cleaned up
      by a termination. */
  ghost predicate RetriedOrFailed(db: Db, db': Db, job: Job, maxAttempts: nat, now: int) {
    && OnlyInstance(db, db', job.instance) && job.id in db.commands
    && if job.attempts < maxAttempts then
         && db'.instances == db.instances
         && db'.commands == db.commands[job.id := db.commands[job.id].(
                              status := Pending, availableAt := now + RetryBackoff(job.attempts))]
       else
         && Ends(db, db', job, Status.Failed, now)
         && (if !Live(db, job) then db'.instances == db.instances && db'.commands.Keys == db.commands.Keys
             else
               var row, row' := db.instances[job.instance], db'.instances[job.instance];
               && row' == row.(observed := AfterFailure(job.kind), lastObservedAt := Some(now), desired := row'.desired,
                               generation := row'.generation)
               && (if job.kind.Start? && !BeingTerminated(db, job.instance)
                   then GetsTermination(db, db', job.instance, now)
                   else db'.commands.Keys == db.commands.Keys && row'.desired == row.desired
                        && row'.generation == row.generation))
  }

  lemma RetrySchedules(db: Db, job: Job, maxAttempts: nat, newId: CommandId, now: int)
    requires newId !in db.commands
    requires job.id in db.commands ==> db.commands[job.id].kind == job.kind
    ensures var db' := ScheduleRetry(db, job, maxAttempts, newId, now);
            if HoldsClaim(db, job) then RetriedOrFailed(db, db', job, maxAttempts, now) else db' == db
  {
    if HoldsClaim(db, job) && job.attempts >= maxAttempts && Live(db, job) && job.kind.Start? {
      var i := job.instance;
      var failed := FinishIfHeld(db, job, Status.Failed, now);
      var marked := PutInstance(failed, i,
          failed.instances[i].(observed := CleanupPending, lastObservedAt := Some(now)));
      TerminationCreates(marked, i, OtherReason, newId, now);
      FailingEndsNoTermination(db, marked, job, i);
      hide CreateTermination, BeingTerminated;
      if !BeingTerminated(db, i) {
        assert ScheduleRetry(db, job, maxAttempts, newId, now).commands.Keys == db.commands.Keys + {newId};
      }
    }
  }

  lemma FailingEndsNoTermination(db: Db, db': Db, job: Job, i: InstanceId)
    requires job.id in db.commands && !db.commands[job.id].kind.Terminate? && db'.commands.Keys == db.commands.Keys
    requires db'.commands == db.commands[job.id := db'.commands[job.id]] && !db'.commands[job.id].kind.Terminate?
    ensures BeingTerminated(db, i) <==> BeingTerminated(db', i)
  {
    if BeingTerminated(db, i) {
      var c :| c in db.commands && db.commands[c].instance == i && db.commands[c].kind.Terminate?
               && (db.commands[c].status.Pending? || db.commands[c].status.Claimed?);
      assert c in db'.commands && db'.commands[c] == db.commands[c];
    }
    if BeingTerminated(db', i) {
      var c :| c in db'.commands && db'.commands[c].instance == i && db'.commands[c].kind.Terminate?
               && (db'.commands[c].status.Pending? || db'.commands[c].status.Claimed?);
      assert c in db.commands && db.commands[c] == db'.commands[c];
    }
  }

  // ------------------------------------------------------------------ the same as steps of a controller

  /** The commit of a worker that holds its claim on a live row: what each answered operation makes of it. */
  lemma CommitWrites(w: World, w': World, k: ControllerId, f: Frame, newId: CommandId)
    requires Doing(w, k) == Working(f) && FrameStep(w, w', Commit(k, newId), k, f)
    requires HoldsClaim(w.db, f.job) && Live(w.db, f.job) && w.db.commands[f.job.id].kind == f.job.kind
    ensures var job, snap, result := f.job, f.snapshot.value, f.pc.result;
            var effective := result.expiresAt.GetOr(snap.desiredExpiresAt);
            match f.pc.op
            case EnsureInstance =>
              if effective > snap.maximumExpiresAt then w'.db == w.db && Doing(w', k) == Working(f.(pc := Erring))
              else
                && OnlyInstance(w.db, w'.db, job.instance) && Ends(w.db, w'.db, job, Completed, w.now)
                && w'.db.instances[job.instance] == w.db.instances[job.instance].(
                     observed := Ready, expiresAt := effective, server := Some(f.pc.server),
                     lastObservedAt := Some(w.now))
            case StopInstance =>
              if job.kind.Start? then w'.db == w.db else Terminates(w.db, w'.db, job, snap.expiresAt, w.now)
            case UpdateDeadline =>
              if effective > snap.maximumExpiresAt || effective <= w.now
              then w'.db == w.db && Doing(w', k) == Working(f.(pc := Erring))
              else Extends(w.db, w'.db, job, effective, w.now)
            case InspectInstance =>
              job.kind.Terminate? || Inspected(w.db, w'.db, job, snap, result, w.now)
  {
    hide FinishInspection, FinishExtension, FinishTermination, FinishStart, Inspected, Extends, Terminates, Ends;
    var job, snap := f.job, f.snapshot.value;
    var effective := f.pc.result.expiresAt.GetOr(snap.desiredExpiresAt);
    match f.pc.op {
      case EnsureInstance => StartFinishes(w.db, job, f.pc.server, effective, w.now);
      case StopInstance => StopFinishes(w.db, job, snap.expiresAt, w.now);
      case UpdateDeadline => ExtensionFinishes(w.db, job, effective, w.now);
      case InspectInstance =>
        if !job.kind.Terminate? { InspectionFinishes(w.db, job, snap, f.pc.result, newId, w.now); }
    }
  }

  /** ... and where it goes on: a launch whose row has moved on is stopped again before its command is cancelled, and
      whatever was answered is acknowledged once the database knows. */
  lemma CommitLeadsTo(w: World, w': World, k: ControllerId, f: Frame, newId: CommandId)
    requires Doing(w, k) == Working(f) && FrameStep(w, w', Commit(k, newId), k, f)
    ensures var job, snap, op := f.job, f.snapshot.value, f.pc.op;
            var effective := f.pc.result.expiresAt.GetOr(snap.desiredExpiresAt);
            var claimed := HoldsClaim(w.db, job);
            var next :=
              match op
              case EnsureInstance =>
                if effective > snap.maximumExpiresAt || !claimed then Erring
                else if job.instance in w.db.instances && w.db.instances[job.instance].generation == job.generation
                then Acking([EnsureInstance]) else Logging(StopInstance, f.pc.server)
              case StopInstance =>
                if job.kind.Start? then Cancelling([StopInstance, EnsureInstance])
                else if claimed && Live(w.db, job) then Acking([StopInstance]) else Cancelling([StopInstance])
              case UpdateDeadline =>
                if effective > snap.maximumExpiresAt || effective <= w.now then Erring
                else if claimed && Live(w.db, job) then Acking([UpdateDeadline]) else Cancelling([UpdateDeadline])
              case InspectInstance =>
                if claimed && Live(w.db, job) then Acking([InspectInstance]) else Cancelling([InspectInstance]);
            Doing(w', k) == Working(f.(pc := next))
  {
    hide FinishIfHeld, CreateTermination;
  }

  // ------------------------------------------------------------------ inspections and the API

  /** A running, placed instance, long enough unobserved, that nothing else is being done with. */
  ghost predicate DueForInspection(db: Db, i: InstanceId, minimumAge: Option<nat>, now: int) {
    && i in db.instances
    && var row := db.instances[i];
    && row.active && row.desired.Running? && now < row.expiresAt && row.server.Some?
    && (row.observed.Ready? || row.observed.Starting? || row.observed.Unknown?)
    && (minimumAge.Some? ==>
          (if row.lastObservedAt.Some? then row.lastObservedAt.value else row.createdAt) + minimumAge.value <= now)
    && (forall c | c in db.commands && db.commands[c].instance == i ::
          !db.commands[c].status.Pending? && !db.commands[c].status.Claimed?)
  }

  /** Such an instance may be given an inspection, and no other. */
  lemma InspectionEnqueued(w: World, i: InstanceId, minimumAge: Option<nat>, newId: CommandId)
    ensures (exists w' :: Step(w, w', EnqueueInspection(i, minimumAge, newId)))
       <==> DueForInspection(w.db, i, minimumAge, w.now) && newId !in w.db.commands
    ensures forall w' | Step(w, w', EnqueueInspection(i, minimumAge, newId)) ::
              && w' == w.(db := w'.db)
              && w'.db == w.db.(commands := w.db.commands[newId := w'.db.commands[newId]])
              && Inserted(w'.db.commands[newId], w.db.instances[i], i, Inspect, w.db.instances[i].generation,
                          OtherReason, w.now)
  {
    hide FrameStep, HelperStep, HostStep, CreateTermination, RequestReconcile, RecoverClaims;
    if DueForInspection(w.db, i, minimumAge, w.now) && newId !in w.db.commands {
      assert Step(w, w.(db := InsertInspection(w.db, i, Inspect, newId, w.now)),
          EnqueueInspection(i, minimumAge, newId));
    }
  }

  /** A reconciliation keeps the generation, and there is at most one open one of it. */
  lemma ReconciliationRequested(db: Db, i: InstanceId, newId: CommandId, now: int)
    requires newId !in db.commands
    ensures var db' := RequestReconcile(db, i, newId, now);
            if i in db.instances && db.instances[i].server.Some?
               && forall c | c in db.commands && db.commands[c].instance == i && db.commands[c].kind.Reconcile?
                             && db.commands[c].generation == db.instances[i].generation ::
                    !db.commands[c].status.Pending? && !db.commands[c].status.Claimed?
            then db' == db.(commands := db.commands[newId := db'.commands[newId]])
                 && Inserted(db'.commands[newId], db.instances[i], i, Reconcile, db.instances[i].generation,
                     OtherReason, now)
            else db' == db
  {
  }

  /** A new instance waits, unplaced, for the start that comes with it. */
  lemma InstanceCreated(db: Db, i: InstanceId, c: CommandId, challenge: ChallengeId, pool: Option<string>,
                        expiresAt: int,
                        maximum: int, now: int)
    requires challenge in db.policy.runtimes
    ensures var db' := CreateInstance(db, i, c, challenge, pool, expiresAt, maximum, now);
            && db'.servers == db.servers && db'.policy == db.policy
            && db'.instances == db.instances[i := db'.instances[i]] && db'.commands == db.commands[c := db'.commands[c]]
            && var row := db'.instances[i];
            && row.challenge == challenge && row.pool == pool && row.settingRevision == db.policy.revision
            && row.runtimeRevision == db.policy.runtimes[challenge].revision
            && row.active && row.desired.Running? && row.observed.Requested? && row.generation == 1 && row.server.None?
            && row.desiredExpiresAt == row.expiresAt == expiresAt && row.maximumExpiresAt == maximum
            && row.lastObservedAt.None? && row.createdAt == now
            && Inserted(db'.commands[c], row, i, Start, 1, OtherReason, now)
  {
  }
}
