/** What every transaction on the runtime tables keeps, and how far it may change them. */
module RuntimeDatabase {
  import opened Options
  import opened RuntimeRows

  // ------------------------------------------------------------------ the database invariant

  predicate CommandOk(db: Db, c: CommandId)
    requires c in db.commands
  {
    var cmd := db.commands[c];
    && cmd.instance in db.instances
    && var row := db.instances[cmd.instance];
    && 1 <= cmd.generation <= row.generation
    && (cmd.kind.Start? ==> cmd.generation == 1)
    && (cmd.kind.Terminate? || cmd.kind.Extend? ==> 2 <= cmd.generation)
    && (cmd.kind.Terminate? ==> row.desired.Stopped?)
    && (cmd.kind.Inspect? || cmd.kind.Reconcile? || cmd.kind.Extend? ==> row.server.Some?)
  }

  predicate InstanceOk(db: Db, i: InstanceId)
    requires i in db.instances
  {
    var row := db.instances[i];
    && 1 <= row.generation
    && (row.observed.Requested? ==> row.server.None?)
    && (row.observed.Ready? ==> row.server.Some?)
    && (row.server.Some? ==> row.server.value in db.servers)
  }

  ghost predicate DbInv(db: Db) {
    && (forall c | c in db.commands :: CommandOk(db, c))
    && (forall i | i in db.instances :: InstanceOk(db, i))
    && OneStart(db)
    && OneOpenTerminate(db)
  }

  /** An instance has one start command, ever. */
  ghost predicate OneStart(db: Db) {
    forall c, d | c in db.commands && d in db.commands && db.commands[c].kind.Start? && db.commands[d].kind.Start?
                  && db.commands[c].instance == db.commands[d].instance :: c == d
  }

  /** There are never two open terminate commands for one instance. */
  ghost predicate OneOpenTerminate(db: Db) {
    forall c, d, i | OpenTerminate(db, c, i) && OpenTerminate(db, d, i) :: c == d
  }

  lemma InstanceFact(db: Db, i: InstanceId)
    requires DbInv(db) && i in db.instances
    ensures InstanceOk(db, i)
  {
  }

  lemma CommandFact(db: Db, c: CommandId)
    requires DbInv(db) && c in db.commands
    ensures CommandOk(db, c)
  {
  }

  // ------------------------------------------------------------------ what a transaction may change

  predicate RowEvolves(a: Instance, b: Instance) {
    && a.generation <= b.generation && a.desiredExpiresAt <= b.desiredExpiresAt
    && (b.active ==> a.active)
    && (a.desired.Stopped? ==> b.desired.Stopped?)
    && (b.observed.Requested? ==> a.observed.Requested?)
    && (a.server != b.server ==> a.server.None? && a.active)
    && a.challenge == b.challenge && a.pool == b.pool && a.maximumExpiresAt == b.maximumExpiresAt
  }

  predicate CommandEvolves(a: Command, b: Command) {
    && a.instance == b.instance && a.kind == b.kind && a.generation == b.generation && a.reason == b.reason
    && a.settingRevision == b.settingRevision && a.runtimeRevision == b.runtimeRevision
    && (Finished(a.status) ==> b == a)
  }

  /** `actor` holds the start claim whenever an instance gains its placement, at its first generation. */
  predicate Places(db: Db, i: InstanceId, actor: Option<Job>) {
    && actor.Some? && actor.value.kind.Start? && actor.value.instance == i && HoldsClaim(db, actor.value)
    && RowAt(db, i, actor.value.generation)
  }

  /** Rows persist and move only forward, and only `actor` places its instance. */
  ghost predicate RowsEvolve(db: Db, db': Db, actor: Option<Job>) {
    && db.instances.Keys <= db'.instances.Keys
    && db.commands.Keys <= db'.commands.Keys
    && (forall i | i in db.instances :: RowEvolves(db.instances[i], db'.instances[i])
          && (db.instances[i].server != db'.instances[i].server ==> Places(db, i, actor)))
    && (forall c | c in db.commands :: CommandEvolves(db.commands[c], db'.commands[c]))
  }

  /** One transaction by `actor` that claims nothing. */
  ghost predicate Evolves(db: Db, db': Db, actor: Option<Job>) {
    && RowsEvolve(db, db', actor)
    && (forall c | c in db'.commands && db'.commands[c].status.Claimed? ::
          c in db.commands && db.commands[c].status == db'.commands[c].status)
  }

  /** The job of a worker is a copy of its command's immutable columns. */
  predicate JobOk(db: Db, job: Job) {
    && job.id in db.commands
    && var cmd := db.commands[job.id];
    && cmd.instance == job.instance && cmd.kind == job.kind && cmd.generation == job.generation
    && cmd.reason == job.reason
  }

  // ------------------------------------------------------------------ building blocks

  lemma EvolvesReflexive(db: Db, actor: Option<Job>)
    ensures Evolves(db, db, actor)
  {
  }

  /** Updating one instance row. */
  lemma PutInstanceKeeps(db: Db, i: InstanceId, row: Instance, actor: Option<Job>)
    requires DbInv(db) && i in db.instances
    requires RowEvolves(db.instances[i], row)
    requires db.instances[i].server != row.server ==>
               Places(db, i, actor) && row.server.Some? && row.server.value in db.servers
    requires row.observed.Requested? ==> row.server.None?
    requires row.observed.Ready? ==> row.server.Some?
    ensures DbInv(PutInstance(db, i, row)) && Evolves(db, PutInstance(db, i, row), actor)
  {
    var db' := PutInstance(db, i, row);
    forall c | c in db'.commands ensures CommandOk(db', c) { assert CommandOk(db, c); }
    forall j | j in db'.instances ensures InstanceOk(db', j) { assert InstanceOk(db, if j == i then i else j); }
    forall c, d, j | OpenTerminate(db', c, j) && OpenTerminate(db', d, j) ensures c == d {
      assert OpenTerminate(db, c, j) && OpenTerminate(db, d, j);
    }
  }

  /** Updating one command row without claiming it; it must not reopen a finished one. */
  lemma PutCommandKeeps(db: Db, c: CommandId, cmd: Command, actor: Option<Job>)
    requires DbInv(db) && c in db.commands
    requires CommandEvolves(db.commands[c], cmd) && (cmd.status.Claimed? ==> cmd.status == db.commands[c].status)
    ensures DbInv(PutCommand(db, c, cmd)) && Evolves(db, PutCommand(db, c, cmd), actor)
  {
    RewriteKeeps(db, PutCommand(db, c, cmd));
  }

  /** Rewriting command rows in place, none of them reopened. */
  lemma RewriteKeeps(db: Db, db': Db)
    requires DbInv(db) && db'.instances == db.instances && db'.servers == db.servers
    requires db'.commands.Keys == db.commands.Keys
    requires forall c | c in db.commands :: CommandEvolves(db.commands[c], db'.commands[c])
    ensures DbInv(db')
  {
    forall c | c in db'.commands ensures CommandOk(db', c) { assert CommandOk(db, c); }
    forall i | i in db'.instances ensures InstanceOk(db', i) { assert InstanceOk(db, i); }
    forall c, d, i | OpenTerminate(db', c, i) && OpenTerminate(db', d, i) ensures c == d {
      assert OpenTerminate(db, c, i) && OpenTerminate(db, d, i);
    }
  }

  /** Inserting a pending command that fits its instance. */
  lemma InsertCommandKeeps(db: Db, c: CommandId, cmd: Command, actor: Option<Job>)
    requires DbInv(db) && c !in db.commands && cmd.status.Pending?
    requires CommandOk(PutCommand(db, c, cmd), c)
    requires cmd.kind.Start? ==>
               forall d | d in db.commands && db.commands[d].kind.Start? :: db.commands[d].instance != cmd.instance
    requires cmd.kind.Terminate? ==> !HasOpenTerminate(db, cmd.instance)
    ensures DbInv(PutCommand(db, c, cmd)) && Evolves(db, PutCommand(db, c, cmd), actor)
  {
    var db' := PutCommand(db, c, cmd);
    forall d | d in db'.commands ensures CommandOk(db', d) { if d != c { assert CommandOk(db, d); } }
    forall i | i in db'.instances ensures InstanceOk(db', i) { assert InstanceOk(db, i); }
    forall d, e, j | OpenTerminate(db', d, j) && OpenTerminate(db', e, j) ensures d == e {
      if d != c { assert OpenTerminate(db, d, j); }
      if e != c { assert OpenTerminate(db, e, j); }
    }
  }

  lemma EvolvesThrough(db0: Db, db1: Db, db2: Db, actor: Option<Job>)
    requires Evolves(db0, db1, actor) && Evolves(db1, db2, actor)
    requires forall i | i in db1.instances :: db1.instances[i].server != db2.instances[i].server ==>
               i in db0.instances && Places(db0, i, actor)
    ensures Evolves(db0, db2, actor)
  {
    forall c | c in db2.commands && db2.commands[c].status.Claimed?
      ensures c in db0.commands && db0.commands[c].status == db2.commands[c].status
    {
      assert c in db1.commands && db1.commands[c].status == db2.commands[c].status;
    }
    forall i | i in db0.instances
      ensures RowEvolves(db0.instances[i], db2.instances[i])
              && (db0.instances[i].server != db2.instances[i].server ==> Places(db0, i, actor))
    {
      assert RowEvolves(db0.instances[i], db1.instances[i]) && RowEvolves(db1.instances[i], db2.instances[i]);
    }
    forall c | c in db0.commands ensures CommandEvolves(db0.commands[c], db2.commands[c]) {
      assert CommandEvolves(db0.commands[c], db1.commands[c]) && CommandEvolves(db1.commands[c], db2.commands[c]);
    }
  }

  // ------------------------------------------------------------------ the transactions

  lemma FinishKeeps(db: Db, job: Job, status: Status, now: int)
    requires DbInv(db) && Finished(status)
    ensures var db' := FinishIfHeld(db, job, status, now);
            DbInv(db') && Evolves(db, db', Some(job)) && !HoldsClaim(db', job) && db'.instances == db.instances
  {
    hide DbInv, Evolves;
    EvolvesReflexive(db, Some(job));
    if HoldsClaim(db, job) {
      PutCommandKeeps(db, job.id, db.commands[job.id].(status := status, completedAt := Some(now)), Some(job));
    }
  }

  /** An instance update and the end of its command, as one transaction. */
  lemma PutAndFinishKeeps(db: Db, job: Job, row: Instance, status: Status, now: int)
    requires DbInv(db) && Finished(status) && job.instance in db.instances
    requires RowEvolves(db.instances[job.instance], row) && row.server == db.instances[job.instance].server
    requires row.observed.Requested? ==> row.server.None?
    requires row.observed.Ready? ==> row.server.Some?
    ensures var db' := FinishIfHeld(PutInstance(db, job.instance, row), job, status, now);
            DbInv(db') && Evolves(db, db', Some(job)) && !HoldsClaim(db', job)
            && db'.instances == db.instances[job.instance := row]
  {
    hide DbInv, Evolves;
    EvolvesReflexive(db, Some(job));
    var db1 := PutInstance(db, job.instance, row);
    PutInstanceKeeps(db, job.instance, row, Some(job));
    FinishKeeps(db1, job, status, now);
    EvolvesThrough(db, db1, FinishIfHeld(db1, job, status, now), Some(job));
  }

  lemma ClaimKeeps(db: Db, c: CommandId, token: Token, now: int)
    requires DbInv(db) && c in db.commands && db.commands[c].status.Pending?
    ensures DbInv(ClaimRow(db, c, token, now)) && RowsEvolve(db, ClaimRow(db, c, token, now), None)
  {
    RewriteKeeps(db, ClaimRow(db, c, token, now));
  }

  lemma RecoverKeeps(db: Db, claimedBefore: Option<int>, now: int)
    requires DbInv(db)
    ensures var db' := RecoverClaims(db, claimedBefore, now);
            DbInv(db') && Evolves(db, db', None) && db'.instances == db.instances
  {
    RewriteKeeps(db, RecoverClaims(db, claimedBefore, now));
  }

  /** Placement: the host is either the one the row already names or a selectable one. */
  lemma MarkStartingKeeps(db: Db, job: Job, s: ServerId, now: int)
    requires DbInv(db) && JobOk(db, job) && job.kind.Start?
    requires HoldsClaim(db, job) ==>
               db.instances[job.instance].server == Some(s)
                   || (db.instances[job.instance].server.None? && s in db.servers)
    ensures var (outcome, db') := MarkStarting(db, job, s, now);
            DbInv(db') && Evolves(db, db', Some(job))
            && (outcome.Applied? ==> db'.instances[job.instance].server == Some(s)
                                     && db'.instances
                                         == db.instances[job.instance := PlaceRow(db.instances[job.instance], s, now)])
            && (!outcome.Applied? ==> db' == db)
  {
    hide DbInv, Evolves;
    EvolvesReflexive(db, Some(job));
    var (outcome, db') := MarkStarting(db, job, s, now);
    if outcome.Applied? {
      InstanceFact(db, job.instance);
      PutInstanceKeeps(db, job.instance, PlaceRow(db.instances[job.instance], s, now), Some(job));
    }
  }

  lemma FinishStartKeeps(db: Db, job: Job, s: ServerId, effective: int, now: int)
    requires DbInv(db) && JobOk(db, job) && db.instances[job.instance].server == Some(s)
    ensures var (outcome, db') := FinishStart(db, job, s, effective, now);
            DbInv(db') && Evolves(db, db', Some(job))
            && (outcome.Applied? ==> !HoldsClaim(db', job)) && (!outcome.Applied? ==> db' == db)
            && (forall i | i in db.instances :: db'.instances[i].active == db.instances[i].active
                                                && db'.instances[i].server == db.instances[i].server)
            && db'.instances.Keys == db.instances.Keys
  {
    hide DbInv, Evolves;
    EvolvesReflexive(db, Some(job));
    var (outcome, db') := FinishStart(db, job, s, effective, now);
    if outcome.Applied? {
      PutAndFinishKeeps(db, job,
          db.instances[job.instance].(observed := Ready, expiresAt := effective, server := Some(s),
                                                             lastObservedAt := Some(now)), Completed, now);
    }
  }

  lemma RejectStartKeeps(db: Db, job: Job, observed: Observed, now: int)
    requires DbInv(db) && (observed.Expired? || observed.Failed?)
    ensures var db' := RejectStart(db, job, observed, now);
            DbInv(db') && Evolves(db, db', Some(job)) && !HoldsClaim(db', job)
            && (forall i | i in db.instances :: db'.instances[i].server == db.instances[i].server)
            && db'.instances.Keys == db.instances.Keys
            && (forall i | i in db.instances && db.instances[i].active && !db'.instances[i].active ::
                  i == job.instance && db.instances[i].observed.Requested? && db.instances[i].server.None?)
  {
    hide DbInv, Evolves;
    EvolvesReflexive(db, Some(job));
    if HoldsClaim(db, job) {
      if ActiveAt(db, job.instance, job.generation) && db.instances[job.instance].observed.Requested? {
        InstanceFact(db, job.instance);
        var row := db.instances[job.instance].(
          active := false, desired := Stopped, observed := observed, lastObservedAt := Some(now));
        PutAndFinishKeeps(db, job, row, Cancelled, now);
        assert RejectStart(db, job, observed, now)
            == FinishIfHeld(PutInstance(db, job.instance, row), job, Cancelled, now);
      } else {
        FinishKeeps(db, job, Cancelled, now);
        assert RejectStart(db, job, observed, now) == FinishIfHeld(db, job, Cancelled, now);
      }
    }
  }

  lemma MarkStoppingKeeps(db: Db, job: Job, now: int)
    requires DbInv(db)
    ensures var (outcome, db') := MarkStopping(db, job, now);
            DbInv(db') && Evolves(db, db', Some(job)) && (!outcome.Applied? ==> db' == db)
            && (forall i | i in db.instances :: db'.instances[i].active == db.instances[i].active
                                                && db'.instances[i].server == db.instances[i].server)
            && db'.instances.Keys == db.instances.Keys
  {
    hide DbInv, Evolves;
    EvolvesReflexive(db, Some(job));
    var (outcome, db') := MarkStopping(db, job, now);
    if outcome.Applied? {
      PutInstanceKeeps(db, job.instance, db'.instances[job.instance], Some(job));
    }
  }

  lemma FinishTerminationKeeps(db: Db, job: Job, snapshotExpiry: int, now: int)
    requires DbInv(db)
    ensures var (outcome, db') := FinishTermination(db, job, snapshotExpiry, now);
            DbInv(db') && Evolves(db, db', Some(job))
            && (outcome.Applied? ==> !HoldsClaim(db', job)) && (!outcome.Applied? ==> db' == db)
            && (forall i | i in db.instances :: db'.instances[i].server == db.instances[i].server
                                                && (i != job.instance ==> db'.instances[i] == db.instances[i]))
            && db'.instances.Keys == db.instances.Keys
  {
    hide DbInv, Evolves;
    EvolvesReflexive(db, Some(job));
    var (outcome, db') := FinishTermination(db, job, snapshotExpiry, now);
    if outcome.Applied? {
      PutAndFinishKeeps(db, job, db'.instances[job.instance], Completed, now);
    }
  }

  lemma FinishExtensionKeeps(db: Db, job: Job, effective: int, now: int)
    requires DbInv(db)
    ensures var (outcome, db') := FinishExtension(db, job, effective, now);
            DbInv(db') && Evolves(db, db', Some(job))
            && (outcome.Applied? ==> !HoldsClaim(db', job)) && (!outcome.Applied? ==> db' == db)
            && (forall i | i in db.instances :: db'.instances[i].active == db.instances[i].active
                                                && db'.instances[i].server == db.instances[i].server)
            && db'.instances.Keys == db.instances.Keys
  {
    hide DbInv, Evolves;
    EvolvesReflexive(db, Some(job));
    var (outcome, db') := FinishExtension(db, job, effective, now);
    if outcome.Applied? {
      InstanceFact(db, job.instance);
      PutAndFinishKeeps(db, job, db'.instances[job.instance], Completed, now);
    }
  }

  /** A new pending command at a raised generation, above that of every earlier command of its instance. */
  predicate Supersedes(db: Db, db': Db, i: InstanceId, c: CommandId, kind: Kind, reason: Reason, now: int) {
    && i in db.instances && i in db'.instances && c !in db.commands && c in db'.commands
    && Inserted(db'.commands[c], db.instances[i], i, kind, db.instances[i].generation + 1, reason, now)
    && db'.instances[i].generation == db'.commands[c].generation == db.instances[i].generation + 1
    && forall d | d in db.commands && db.commands[d].instance == i ::
        db.commands[d].generation < db'.commands[c].generation
  }

  lemma NewCommandSupersedes(db: Db, db': Db, i: InstanceId, c: CommandId, kind: Kind, reason: Reason, now: int)
    requires DbInv(db) && i in db.instances && i in db'.instances && c !in db.commands && c in db'.commands
    requires db'.instances[i].generation == db.instances[i].generation + 1
    requires db'.commands[c] == NewCommand(db.instances[i], i, kind, db.instances[i].generation + 1, reason, now)
    ensures Supersedes(db, db', i, c, kind, reason, now)
  {
    forall d | d in db.commands && db.commands[d].instance == i
      ensures db.commands[d].generation < db'.commands[c].generation
    {
      assert CommandOk(db, d);
    }
  }

  lemma CreateTerminationKeeps(db: Db, i: InstanceId, reason: Reason, newId: CommandId, now: int, actor: Option<Job>)
    requires DbInv(db) && newId !in db.commands
    ensures var db' := CreateTermination(db, i, reason, newId, now);
            DbInv(db') && Evolves(db, db', actor)
            && (i in db.instances && db.instances[i].active ==>
                  HasOpenTerminate(db', i) && db'.instances[i].desired.Stopped?)
            && (if i in db.instances && db.instances[i].active && !HasOpenTerminate(db, i)
                then Supersedes(db, db', i, newId, Terminate, reason, now) && OpenTerminate(db', newId, i)
                    else db' == db)
            && (forall j | j in db.instances :: db'.instances[j].active == db.instances[j].active
                                                && db'.instances[j].server == db.instances[j].server)
            && db'.instances.Keys == db.instances.Keys
            && (forall c | c in db.commands :: db'.commands[c] == db.commands[c])
  {
    hide DbInv, Evolves;
    EvolvesReflexive(db, actor);
    if i in db.instances && db.instances[i].active {
      if !HasOpenTerminate(db, i) {
        var row := db.instances[i];
        var cmd := NewCommand(row, i, Terminate, row.generation + 1, reason, now);
        StopAtNextGeneration(db, i, cmd, newId, actor);
        NewCommandSupersedes(db, CreateTermination(db, i, reason, newId, now), i, newId, Terminate, reason, now);
        hide Supersedes;
        assert CreateTermination(db, i, reason, newId, now)
            == PutCommand(PutInstance(db, i, row.(desired := Stopped, generation := cmd.generation)), newId, cmd);
      } else {
        var c :| OpenTerminate(db, c, i);
        CommandFact(db, c);
      }
    }
  }

  /** The shared core of every termination request. */
  lemma StopAtNextGeneration(db: Db, i: InstanceId, cmd: Command, newId: CommandId, actor: Option<Job>)
    requires DbInv(db) && newId !in db.commands && i in db.instances && !HasOpenTerminate(db, i)
    requires cmd.instance == i && cmd.kind.Terminate? && cmd.status.Pending?
    requires cmd.generation == db.instances[i].generation + 1
    ensures var db' := PutCommand(PutInstance(db, i,
              db.instances[i].(desired := Stopped, generation := cmd.generation)), newId, cmd);
            DbInv(db') && Evolves(db, db', actor) && OpenTerminate(db', newId, i) && HasOpenTerminate(db', i)
  {
    hide DbInv, Evolves;
    EvolvesReflexive(db, actor);
    var row := db.instances[i].(desired := Stopped, generation := cmd.generation);
    var db1 := PutInstance(db, i, row);
    InstanceFact(db, i);
    PutInstanceKeeps(db, i, row, actor);
    assert !HasOpenTerminate(db1, i) by {
      forall c ensures !OpenTerminate(db1, c, i) { assert OpenTerminate(db1, c, i) == OpenTerminate(db, c, i); }
    }
    InsertCommandKeeps(db1, newId, cmd, actor);
    EvolvesThrough(db, db1, PutCommand(db1, newId, cmd), actor);
    assert OpenTerminate(PutCommand(db1, newId, cmd), newId, i);
  }

  lemma FinishInspectionKeeps(db: Db, job: Job, snapshot: Instance, seen: Sighting, newId: CommandId, now: int)
    requires DbInv(db) && JobOk(db, job) && newId !in db.commands && (job.kind.Inspect? || job.kind.Reconcile?)
    requires job.instance in db.instances && db.instances[job.instance].server.Some?
    ensures var (outcome, db') := FinishInspection(db, job, snapshot, seen, newId, now);
            DbInv(db') && Evolves(db, db', Some(job))
            && (outcome.Applied? ==> !HoldsClaim(db', job)) && (!outcome.Applied? ==> db' == db)
            && (forall i | i in db.instances :: db'.instances[i].server == db.instances[i].server)
            && db'.instances.Keys == db.instances.Keys
            && (outcome.Applied? && seen.NotReady? ==> HasOpenTerminate(db', job.instance))
  {
    hide DbInv, Evolves, Supersedes;
    EvolvesReflexive(db, Some(job));
    var (outcome, db') := FinishInspection(db, job, snapshot, seen, newId, now);
    if outcome.Applied? {
      var row := db.instances[job.instance].(lastObservedAt := Some(now));
      match seen {
        case Absent => PutAndFinishKeeps(db, job, db'.instances[job.instance], Completed, now);
        case Healthy => PutAndFinishKeeps(db, job, db'.instances[job.instance], Completed, now);
        case NotReady =>
          var db1 := PutInstance(db, job.instance, row.(observed := CleanupPending));
          PutInstanceKeeps(db, job.instance, row.(observed := CleanupPending), Some(job));
          var db2 := CreateTermination(db1, job.instance, OtherReason, newId, now);
          CreateTerminationKeeps(db1, job.instance, OtherReason, newId, now, Some(job));
          EvolvesThrough(db, db1, db2, Some(job));
          var c :| OpenTerminate(db2, c, job.instance);
          FinishKeeps(db2, job, Completed, now);
          EvolvesThrough(db, db2, db', Some(job));
          assert OpenTerminate(db', c, job.instance);
      }
    }
  }

  lemma ScheduleRetryKeeps(db: Db, job: Job, maxAttempts: nat, newId: CommandId, now: int)
    requires DbInv(db) && JobOk(db, job) && newId !in db.commands
    requires job.kind.Extend? ==> job.instance in db.instances && db.instances[job.instance].server.Some?
    ensures var db' := ScheduleRetry(db, job, maxAttempts, newId, now);
            DbInv(db') && Evolves(db, db', Some(job)) && !HoldsClaim(db', job)
            && (forall i | i in db.instances :: db'.instances[i].active == db.instances[i].active
                                                && db'.instances[i].server == db.instances[i].server)
            && db'.instances.Keys == db.instances.Keys
  {
    hide DbInv, Evolves, Supersedes;
    EvolvesReflexive(db, Some(job));
    if HoldsClaim(db, job) {
      var db' := ScheduleRetry(db, job, maxAttempts, newId, now);
      if job.attempts < maxAttempts {
        PutCommandKeeps(db, job.id, db'.commands[job.id], Some(job));
      } else {
        var failed := FinishIfHeld(db, job, Status.Failed, now);
        FinishKeeps(db, job, Status.Failed, now);
        if ActiveAt(failed, job.instance, job.generation) {
          InstanceFact(db, job.instance);
          var row := failed.instances[job.instance].(
            observed := if job.kind.Extend? then Ready else if job.kind.Inspect? || job.kind.Reconcile? then Unknown
                else CleanupPending,
            lastObservedAt := Some(now));
          var marked := PutInstance(failed, job.instance, row);
          PutInstanceKeeps(failed, job.instance, row, Some(job));
          EvolvesThrough(db, failed, marked, Some(job));
          if job.kind.Start? {
            CreateTerminationKeeps(marked, job.instance, OtherReason, newId, now, Some(job));
            EvolvesThrough(db, marked, db', Some(job));
          }
        }
      }
    }
  }

  lemma InsertInspectionKeeps(db: Db, i: InstanceId, kind: Kind, newId: CommandId, now: int)
    requires DbInv(db) && newId !in db.commands && i in db.instances && db.instances[i].server.Some?
    requires kind.Inspect? || kind.Reconcile?
    ensures var db' := InsertInspection(db, i, kind, newId, now);
            DbInv(db') && Evolves(db, db', None) && db'.instances == db.instances
  {
    hide DbInv, Evolves;
    InstanceFact(db, i);
    InsertCommandKeeps(db, newId, NewCommand(db.instances[i], i, kind, db.instances[i].generation, OtherReason, now),
        None);
  }

  /** Active, requested, unplaced, at generation 1, with one command: its pending start. */
  predicate OnlyStart(db: Db, i: InstanceId, c: CommandId) {
    && i in db.instances && db.instances[i].active && db.instances[i].observed.Requested?
    && db.instances[i].server.None? && db.instances[i].generation == 1
    && c in db.commands && db.commands[c].kind.Start? && db.commands[c].generation == 1
    && db.commands[c].status.Pending?
    && forall d | d in db.commands :: db.commands[d].instance == i <==> d == c
  }

  lemma CreateInstanceKeeps(db: Db, i: InstanceId, newId: CommandId, challenge: ChallengeId, pool: Option<string>,
                            expiry: int, maximum: int, now: int)
    requires DbInv(db) && i !in db.instances && newId !in db.commands && challenge in db.policy.runtimes
    ensures var db' := CreateInstance(db, i, newId, challenge, pool, expiry, maximum, now);
            DbInv(db') && Evolves(db, db', None) && db'.instances == db.instances[i := db'.instances[i]]
            && db'.instances[i].server.None? && OnlyStart(db', i, newId)
  {
    hide DbInv, Evolves;
    var db' := CreateInstance(db, i, newId, challenge, pool, expiry, maximum, now);
    var db1 := PutInstance(db, i, db'.instances[i]);
    NewInstanceKeeps(db, i, db'.instances[i]);
    InsertCommandKeeps(db1, newId, db'.commands[newId], None);
    EvolvesThrough(db, db1, db', None);
  }

  lemma NewInstanceKeeps(db: Db, i: InstanceId, row: Instance)
    requires DbInv(db) && i !in db.instances && row.generation == 1 && row.server.None? && row.observed.Requested?
    ensures DbInv(PutInstance(db, i, row)) && Evolves(db, PutInstance(db, i, row), None)
    ensures forall c | c in db.commands :: db.commands[c].instance != i
  {
    var db1 := PutInstance(db, i, row);
    forall c | c in db1.commands ensures CommandOk(db1, c) && db.commands[c].instance != i { assert CommandOk(db, c); }
    forall j | j in db1.instances ensures InstanceOk(db1, j) { if j != i { assert InstanceOk(db, j); } }
    forall c, d, j | OpenTerminate(db1, c, j) && OpenTerminate(db1, d, j) ensures c == d {
      assert OpenTerminate(db, c, j) && OpenTerminate(db, d, j);
    }
  }

  lemma RequestTerminationKeeps(db: Db, i: InstanceId, newId: CommandId, now: int)
    requires DbInv(db) && newId !in db.commands
    ensures var db' := RequestTermination(db, i, newId, now);
            DbInv(db') && Evolves(db, db', None)
            && (db' == db
                || (Supersedes(db, db', i, newId, Terminate, OtherReason, now) && OpenTerminate(db', newId, i)
                    && !HasOpenTerminate(db, i)))
            && (db' != db <==> i in db.instances && db.instances[i].active && db.instances[i].desired.Running?)
            && (db' != db ==> db' == db.(instances := db.instances[i := db'.instances[i]],
                                         commands := db.commands[newId := db'.commands[newId]])
                              && db'.instances[i] == db.instances[i].(
                                   desired := Stopped, generation := db.instances[i].generation + 1))
            && (forall j | j in db.instances :: db'.instances[j].active == db.instances[j].active
                                                && db'.instances[j].server == db.instances[j].server)
            && db'.instances.Keys == db.instances.Keys
  {
    hide DbInv, Evolves;
    EvolvesReflexive(db, None);
    if i in db.instances && db.instances[i].active && !db.instances[i].desired.Stopped? {
      assert !HasOpenTerminate(db, i) by {
        forall c ensures !OpenTerminate(db, c, i) { if c in db.commands { CommandFact(db, c); } }
      }
      var row := db.instances[i];
      var cmd := NewCommand(row, i, Terminate, row.generation + 1, OtherReason, now);
      StopAtNextGeneration(db, i, cmd, newId, None);
      NewCommandSupersedes(db, RequestTermination(db, i, newId, now), i, newId, Terminate, OtherReason, now);
      hide Supersedes;
      assert RequestTermination(db, i, newId, now)
          == PutCommand(PutInstance(db, i, row.(desired := Stopped, generation := cmd.generation)), newId, cmd);
    }
  }

  lemma RequestExtensionKeeps(db: Db, i: InstanceId, until: int, newId: CommandId, now: int)
    requires DbInv(db) && newId !in db.commands
    ensures var db' := RequestExtension(db, i, until, newId, now);
            DbInv(db') && Evolves(db, db', None)
            && (db' == db || Supersedes(db, db', i, newId, Extend, OtherReason, now))
            && (db' != db <==> i in db.instances && db.instances[i].active && db.instances[i].desired.Running?
                               && db.instances[i].observed.Ready? && now < db.instances[i].expiresAt
                               && db.instances[i].desiredExpiresAt < until <= db.instances[i].maximumExpiresAt)
            && (db' != db ==> db' == db.(instances := db.instances[i := db'.instances[i]],
                                         commands := db.commands[newId := db'.commands[newId]])
                              && db'.instances[i] == db.instances[i].(
                                   desiredExpiresAt := until, generation := db.instances[i].generation + 1))
            && (forall j | j in db.instances :: db'.instances[j].active == db.instances[j].active
                                                && db'.instances[j].server == db.instances[j].server)
            && db'.instances.Keys == db.instances.Keys
  {
    hide DbInv, Evolves;
    EvolvesReflexive(db, None);
    var db' := RequestExtension(db, i, until, newId, now);
    if newId in db'.commands {
      InstanceFact(db, i);
      NewCommandSupersedes(db, db', i, newId, Extend, OtherReason, now);
      hide Supersedes;
      var db1 := PutInstance(db, i, db'.instances[i]);
      PutInstanceKeeps(db, i, db'.instances[i], None);
      InsertCommandKeeps(db1, newId, db'.commands[newId], None);
      EvolvesThrough(db, db1, db', None);
    }
  }

  lemma ServerKeeps(db: Db, s: ServerId, capacity: nat, enabled: bool, pool: Option<string>)
    requires DbInv(db)
    ensures var db' := PutServer(db, s, capacity, enabled, pool); DbInv(db') && Evolves(db, db', None)
  {
    var db' := PutServer(db, s, capacity, enabled, pool);
    forall c | c in db'.commands ensures CommandOk(db', c) { assert CommandOk(db, c); }
    forall i | i in db'.instances ensures InstanceOk(db', i) { assert InstanceOk(db, i); }
    forall c, d, i | OpenTerminate(db', c, i) && OpenTerminate(db', d, i) ensures c == d {
      assert OpenTerminate(db, c, i) && OpenTerminate(db, d, i);
    }
  }

  lemma PolicyKeeps(db: Db, policy: Policy)
    requires DbInv(db)
    ensures DbInv(db.(policy := policy)) && Evolves(db, db.(policy := policy), None)
  {
    RewriteKeeps(db, db.(policy := policy));
  }

  // ------------------------------------------------------------------ capacity

  /** No host carries more active instances than the largest capacity it has had. */
  ghost predicate WithinPeak(db: Db) {
    forall s | s in db.servers :: db.servers[s].capacity <= db.servers[s].peak
        && |ActiveOn(db, s)| <= db.servers[s].peak
  }

  /** Transactions that place nothing keep every count. */
  lemma QuietTransactionKeepsPeak(db: Db, db': Db)
    requires WithinPeak(db) && db'.servers == db.servers
    requires forall i | i in db'.instances && db'.instances[i].active && db'.instances[i].server.Some? ::
               i in db.instances && db.instances[i].active && db.instances[i].server == db'.instances[i].server
    ensures WithinPeak(db')
  {
    forall s | s in db'.servers
      ensures db'.servers[s].capacity <= db'.servers[s].peak && |ActiveOn(db', s)| <= db'.servers[s].peak
    {
      SubsetCount(ActiveOn(db', s), ActiveOn(db, s));
    }
  }

  /** Placement adds one instance, and only to a host that still has room. */
  lemma PlacementKeepsPeak(db: Db, job: Job, s: ServerId, now: int)
    requires WithinPeak(db)
    requires MarkStarting(db, job, s, now).0.Applied? ==>
               db.instances[job.instance].server == Some(s)
               || (db.instances[job.instance].server.None? && s in db.servers
                   && |ActiveOn(db, s)| < db.servers[s].capacity)
    ensures WithinPeak(MarkStarting(db, job, s, now).1)
  {
    var (outcome, db') := MarkStarting(db, job, s, now);
    if outcome.Applied? {
      forall t | t in db'.servers
        ensures db'.servers[t].capacity <= db'.servers[t].peak && |ActiveOn(db', t)| <= db'.servers[t].peak
      {
        if t == s {
          assert ActiveOn(db', s) == ActiveOn(db, s) + {job.instance};
        } else {
          assert ActiveOn(db', t) == ActiveOn(db, t);
        }
      }
    }
  }

  lemma ServerKeepsPeak(db: Db, s: ServerId, capacity: nat, enabled: bool, pool: Option<string>)
    requires WithinPeak(db)
    requires s !in db.servers ==> ActiveOn(db, s) == {}
    ensures WithinPeak(PutServer(db, s, capacity, enabled, pool))
  {
    var db' := PutServer(db, s, capacity, enabled, pool);
    forall t | t in db'.servers
      ensures db'.servers[t].capacity <= db'.servers[t].peak && |ActiveOn(db', t)| <= db'.servers[t].peak
    {
      assert ActiveOn(db', t) == ActiveOn(db, t);
    }
  }
}
