/** The control plane's tables as the controller changes them: every transaction of `worker.rs`,
    statement by statement, tied to the atomic function that describes its whole effect. */
module RuntimeTables {
  import opened Options
  import opened Retries
  import opened RuntimeRows

  /** The rows a safety pass selects. */
  ghost function Due(db: Db, test: Instance -> bool, window: nat, now: int): set<InstanceId> {
    set i | i in db.instances && db.instances[i].active && test(db.instances[i]) && !CleanupUnderway(db, i, window, now)
  }

  /** A terminate command for one of the instances, due at once and at its next generation. */
  predicate TerminationOf(db: Db, cmd: Command, ids: set<InstanceId>, reason: Reason, now: int) {
    && cmd.instance in ids && cmd.instance in db.instances
    && Inserted(cmd, db.instances[cmd.instance], cmd.instance, Terminate, db.instances[cmd.instance].generation + 1,
                reason, now)
  }

  /** `db'` is `db` with one new terminate command, due at once and at a raised generation, for each instance in
      `ids`. */
  ghost predicate Terminations(db: Db, db': Db, ids: set<InstanceId>, reason: Reason, now: int) {
    && db'.servers == db.servers && db'.policy == db.policy
    && db'.instances.Keys == db.instances.Keys
    && (forall i | i in db.instances ::
          db'.instances[i] == if i in ids
                              then db.instances[i].(desired := Stopped, generation := db.instances[i].generation + 1)
                              else db.instances[i])
    && (forall c | c in db.commands :: c in db'.commands && db'.commands[c] == db.commands[c])
    && (forall c | c in db'.commands && c !in db.commands :: TerminationOf(db, db'.commands[c], ids, reason, now))
    && (forall i | i in ids :: HasOpenTerminate(db', i))
  }

  lemma NoTerminations(db: Db, reason: Reason, now: int)
    ensures Terminations(db, db, {}, reason, now)
  {
  }

  lemma StillWithout(db: Db, db': Db, done: set<InstanceId>, i: InstanceId, reason: Reason, now: int)
    requires Terminations(db, db', done, reason, now) && i !in done && !HasOpenTerminate(db, i)
    ensures !HasOpenTerminate(db', i)
  {
    forall c ensures !OpenTerminate(db', c, i) {
      assert !OpenTerminate(db, c, i);
    }
  }

  lemma WiderTermination(db: Db, cmd: Command, ids: set<InstanceId>, more: set<InstanceId>, reason: Reason, now: int)
    requires TerminationOf(db, cmd, ids, reason, now) && ids <= more
    ensures TerminationOf(db, cmd, more, reason, now)
  {
  }

  lemma TerminationJoins(db: Db, db': Db, done: set<InstanceId>, i: InstanceId, reason: Reason, newId: CommandId,
                         now: int)
    requires Terminations(db, db', done, reason, now) && i !in done && i in db.instances && db.instances[i].active
    requires !HasOpenTerminate(db', i) && newId !in db'.commands
    ensures Terminations(db, CreateTermination(db', i, reason, newId, now), done + {i}, reason, now)
  {
    var db'' := CreateTermination(db', i, reason, newId, now);
    assert OpenTerminate(db'', newId, i);
    forall j | j in done ensures HasOpenTerminate(db'', j) {
      var c :| OpenTerminate(db', c, j);
      assert OpenTerminate(db'', c, j);
    }
    assert TerminationOf(db, db''.commands[newId], {i}, reason, now);
    forall c | c in db''.commands && c !in db.commands
        ensures TerminationOf(db, db''.commands[c], done + {i}, reason, now) {
      if c == newId {
        WiderTermination(db, db''.commands[c], {i}, done + {i}, reason, now);
      } else {
        WiderTermination(db, db'.commands[c], done, done + {i}, reason, now);
      }
    }
    hide TerminationOf;
  }

  /** What was being cleaned up still is, and what a pass has found now is. */
  lemma UnderwayAfter(db: Db, db': Db, ids: set<InstanceId>, reason: Reason, i: InstanceId, window: nat, now: int)
    requires Terminations(db, db', ids, reason, now)
    requires i in ids || CleanupUnderway(db, i, window, now)
    ensures CleanupUnderway(db', i, window, now)
  {
    if i !in ids {
      if c :| OpenTerminate(db, c, i) {
        assert OpenTerminate(db', c, i);
      } else {
        var c :| RecentlyFailedTerminate(db, c, i, window, now);
        assert RecentlyFailedTerminate(db', c, i, window, now);
      }
    }
  }

  /** What the two safety passes look for, together: the instance is stopped, its runtime is switched off, or its
      time is over. */
  predicate Overstays(db: Db, i: InstanceId, now: int) {
    && i in db.instances
    && var row := db.instances[i];
    (row.desired.Stopped? || row.expiresAt <= now || SwitchedOff(db, row.challenge))
  }

  /** The policy does not let the challenge's runtimes run. */
  predicate SwitchedOff(db: Db, c: ChallengeId) {
    !db.policy.enabled || c !in db.policy.runtimes || !db.policy.runtimes[c].enabled || !db.policy.runtimes[c].managed
  }

  /** An active instance of that kind without a termination that is open or failed within the window. */
  ghost predicate Unattended(db: Db, i: InstanceId, window: nat, now: int) {
    && Overstays(db, i, now) && db.instances[i].active
    && forall c | c in db.commands && db.commands[c].instance == i && db.commands[c].kind.Terminate? ::
         && !db.commands[c].status.Pending? && !db.commands[c].status.Claimed?
         && (db.commands[c].status.Failed? && db.commands[c].completedAt.Some? ==>
               db.commands[c].completedAt.value <= now - window)
  }

  /** A termination for such an instance, due at once, at its next generation; the deadline is its reason unless the
      instance would have had to go anyway. */
  ghost predicate Enforces(db: Db, cmd: Command, window: nat, now: int) {
    && Unattended(db, cmd.instance, window, now)
    && cmd.kind.Terminate? && cmd.generation == db.instances[cmd.instance].generation + 1
    && cmd.status.Pending? && cmd.availableAt <= now && cmd.attempts == 0 && cmd.completedAt.None?
    && (cmd.reason.DeadlineReached? ==> db.instances[cmd.instance].expiresAt <= now)
    && (db.instances[cmd.instance].desired.Running? && !SwitchedOff(db, db.instances[cmd.instance].challenge) ==>
          cmd.reason.DeadlineReached?)
  }

  lemma UnderwayCommand(db: Db, i: InstanceId, window: nat, now: int)
    requires CleanupUnderway(db, i, window, now)
    ensures exists c :: c in db.commands && db.commands[c].instance == i && db.commands[c].kind.Terminate?
                        && (db.commands[c].status.Pending? || db.commands[c].status.Claimed?
                            || (db.commands[c].status.Failed? && db.commands[c].completedAt.Some?
                                && now - window < db.commands[c].completedAt.value))
  {
    if c :| OpenTerminate(db, c, i) {
      assert c in db.commands;
    } else {
      var c :| RecentlyFailedTerminate(db, c, i, window, now);
      assert c in db.commands;
    }
  }

  lemma UnattendedIsDue(db: Db, i: InstanceId, window: nat, now: int)
    ensures Unattended(db, i, window, now) <==>
              i in db.instances && db.instances[i].active && !CleanupUnderway(db, i, window, now)
              && (Disallowed(db, db.instances[i]) || db.instances[i].expiresAt <= now)
  {
    if CleanupUnderway(db, i, window, now) {
      UnderwayCommand(db, i, window, now);
    } else {
      forall c | c in db.commands && db.commands[c].instance == i && db.commands[c].kind.Terminate?
        ensures !db.commands[c].status.Pending? && !db.commands[c].status.Claimed?
        ensures db.commands[c].status.Failed? && db.commands[c].completedAt.Some? ==>
                  db.commands[c].completedAt.value <= now - window
      {
        assert !OpenTerminate(db, c, i) && !RecentlyFailedTerminate(db, c, i, window, now);
      }
    }
  }

  /** What the first pass enqueues, and what the second one does. */
  lemma PassesEnforce(first: Db, mid: Db, last: Db, stopped: set<InstanceId>, overdue: set<InstanceId>, window: nat,
                      now: int)
    requires stopped == Due(first, (row: Instance) => Disallowed(first, row), window, now)
    requires overdue == Due(mid, (row: Instance) => row.expiresAt <= now, window, now)
    requires Terminations(first, mid, stopped, OtherReason, now)
    requires Terminations(mid, last, overdue, DeadlineReached, now)
    ensures forall c | c in first.commands :: c in last.commands && last.commands[c] == first.commands[c]
    ensures forall c | c in last.commands && c !in first.commands :: Enforces(first, last.commands[c], window, now)
    ensures forall i | i in first.instances && Unattended(first, i, window, now) ::
              exists c :: c in last.commands && c !in first.commands && last.commands[c].instance == i
  {
    forall c | c in last.commands && c !in first.commands ensures Enforces(first, last.commands[c], window, now) {
      if c in mid.commands {
        StoppedEnforces(first, last.commands[c], stopped, window, now);
      } else {
        OverdueEnforces(first, mid, last.commands[c], stopped, overdue, window, now);
      }
    }
    hide Enforces, TerminationOf, Unattended;
    forall i | i in first.instances && Unattended(first, i, window, now)
      ensures exists c :: c in last.commands && c !in first.commands && last.commands[c].instance == i
    {
      UnattendedGetsOne(first, mid, last, stopped, overdue, window, now, i);
    }
  }

  lemma StoppedEnforces(first: Db, cmd: Command, stopped: set<InstanceId>, window: nat, now: int)
    requires stopped == Due(first, (row: Instance) => Disallowed(first, row), window, now)
    requires TerminationOf(first, cmd, stopped, OtherReason, now)
    ensures Enforces(first, cmd, window, now)
  {
    UnattendedIsDue(first, cmd.instance, window, now);
    hide Unattended, CleanupUnderway;
  }

  lemma OverdueEnforces(first: Db, mid: Db, cmd: Command, stopped: set<InstanceId>, overdue: set<InstanceId>,
                        window: nat, now: int)
    requires stopped == Due(first, (row: Instance) => Disallowed(first, row), window, now)
    requires overdue == Due(mid, (row: Instance) => row.expiresAt <= now, window, now)
    requires Terminations(first, mid, stopped, OtherReason, now)
    requires TerminationOf(mid, cmd, overdue, DeadlineReached, now)
    ensures Enforces(first, cmd, window, now)
  {
    var i := cmd.instance;
    assert i in stopped ==> HasOpenTerminate(mid, i);
    if CleanupUnderway(first, i, window, now) { UnderwayAfter(first, mid, stopped, OtherReason, i, window, now); }
    UnattendedIsDue(first, i, window, now);
    hide Unattended, CleanupUnderway;
  }

  lemma UnattendedGetsOne(first: Db, mid: Db, last: Db, stopped: set<InstanceId>, overdue: set<InstanceId>, window: nat,
                          now: int, i: InstanceId)
    requires stopped == Due(first, (row: Instance) => Disallowed(first, row), window, now)
    requires overdue == Due(mid, (row: Instance) => row.expiresAt <= now, window, now)
    requires Terminations(first, mid, stopped, OtherReason, now)
    requires Terminations(mid, last, overdue, DeadlineReached, now)
    requires i in first.instances && Unattended(first, i, window, now)
    ensures exists c :: c in last.commands && c !in first.commands && last.commands[c].instance == i
  {
    UnattendedIsDue(first, i, window, now);
    if i in stopped {
      var c :| OpenTerminate(mid, c, i);
      assert c in first.commands ==> OpenTerminate(first, c, i);
      assert c in last.commands && last.commands[c].instance == i;
    } else {
      if CleanupUnderway(mid, i, window, now) { AttendedBefore(first, mid, stopped, i, window, now); }
      assert i in overdue;
      var c :| OpenTerminate(last, c, i);
      assert c in mid.commands ==> OpenTerminate(mid, c, i);
      assert c !in first.commands;
    }
  }

  lemma AttendedBefore(db: Db, db': Db, ids: set<InstanceId>, i: InstanceId, window: nat, now: int)
    requires Terminations(db, db', ids, OtherReason, now) && i !in ids && CleanupUnderway(db', i, window, now)
    ensures CleanupUnderway(db, i, window, now)
  {
    if c :| OpenTerminate(db', c, i) {
      assert c !in db.commands ==> TerminationOf(db, db'.commands[c], ids, OtherReason, now);
      assert OpenTerminate(db, c, i);
    } else {
      var c :| RecentlyFailedTerminate(db', c, i, window, now);
      assert c !in db.commands ==> TerminationOf(db, db'.commands[c], ids, OtherReason, now);
      assert RecentlyFailedTerminate(db, c, i, window, now);
    }
  }

  class Tables {
    var instances: map<InstanceId, Instance>
    var commands: map<CommandId, Command>
    var servers: map<ServerId, Server>
    var policy: Policy
    /** What `gen_random_uuid()` has not handed out yet. */
    var nextCommand: CommandId
    var nextToken: Token

    ghost function View(): Db reads this { Db(instances, commands, servers, policy) }

    ghost predicate Valid() reads this {
      && (forall c | c in commands :: c < nextCommand)
      && (forall c | c in commands && commands[c].status.Claimed? :: commands[c].status.token < nextToken)
    }

    constructor (db: Db, nextCommand: CommandId, nextToken: Token)
      requires forall c | c in db.commands :: c < nextCommand
      requires forall c | c in db.commands && db.commands[c].status.Claimed? :: db.commands[c].status.token < nextToken
      ensures Valid() && View() == db
    {
      instances, commands, servers, policy := db.instances, db.commands, db.servers, db.policy;
      this.nextCommand, this.nextToken := nextCommand, nextToken;
    }

    // ---------------------------------------------------------------- claiming

    /** `claim_command`: any pending row whose time has come, or none when there is none. */
    method ClaimCommand(now: int) returns (job: Option<Job>)
      requires Valid()
      modifies this
      ensures Valid() && nextCommand == old(nextCommand)
      ensures job.None? ==> View() == old(View()) && forall c | c in commands :: !Available(commands[c], now)
      ensures job.Some? ==>
                && job.value.id in old(commands) && Available(old(commands)[job.value.id], now)
                && job.value.token == old(nextToken)
                && View() == ClaimRow(old(View()), job.value.id, job.value.token, now)
                && job.value == JobOf(View(), job.value.id, job.value.token)
                && HoldsClaim(View(), job.value)
      ensures job.None? ==> forall c | c in commands :: commands[c].status.Pending? ==> now < commands[c].availableAt
      ensures job.Some? ==>
                var cmd := old(commands)[job.value.id];
                && cmd.status.Pending? && cmd.availableAt <= now
                && commands == old(commands)[job.value.id := cmd.(
                                 status := Claimed(job.value.token, now), attempts := cmd.attempts + 1)]
                && job.value.kind == cmd.kind && job.value.attempts == cmd.attempts + 1
    {
      var candidates := set c | c in commands && Available(commands[c], now);
      if candidates == {} {
        assert forall c | c in commands :: !Available(commands[c], now) by {
          forall c | c in commands ensures !Available(commands[c], now) { assert c !in candidates; }
        }
        return None;
      }
      var c :| c in candidates;
      var row := commands[c];
      var token := nextToken;
      nextToken := nextToken + 1;
      commands := commands[c := row.(status := Claimed(token, now), attempts := row.attempts + 1)];
      return Some(Job(c, token, row.instance, row.kind, row.generation, row.settingRevision, row.runtimeRevision,
                      row.reason, row.attempts + 1));
    }

    /** `lock_command_claim`. */
    method LockCommandClaim(job: Job) returns (held: bool)
      ensures held == HoldsClaim(View(), job)
    {
      held := job.id in commands && commands[job.id].status.Claimed? && commands[job.id].status.token == job.token;
    }

    /** `recover_stale_claims`, or `recover_all_claims_on_startup` without a cutoff. */
    method RecoverStaleClaims(claimedBefore: Option<int>, now: int)
      requires Valid()
      modifies this`commands
      ensures Valid() && View() == RecoverClaims(old(View()), claimedBefore, now)
      ensures commands.Keys == old(commands).Keys
      ensures forall c | c in commands ::
                var cmd := old(commands)[c];
                if cmd.status.Claimed? && (claimedBefore.None? || cmd.status.claimedAt < claimedBefore.value)
                then commands[c] == cmd.(status := Pending, availableAt := now)
                else commands[c] == cmd
    {
      commands := map c | c in commands ::
        if commands[c].status.Claimed? && (claimedBefore.Some? ==> commands[c].status.claimedAt < claimedBefore.value)
        then commands[c].(status := Pending, availableAt := now)
        else commands[c];
    }

    /** `cancel_command`, `complete_command`, and the `mark_command_*` updates. */
    method FinishCommand(job: Job, status: Status, now: int)
      requires Valid() && Finished(status)
      modifies this`commands
      ensures Valid() && View() == FinishIfHeld(old(View()), job, status, now)
    {
      var held := LockCommandClaim(job);
      if held {
        commands := commands[job.id := commands[job.id].(status := status, completedAt := Some(now))];
      }
    }

    // ---------------------------------------------------------------- starting

    method CountActive(s: ServerId) returns (count: nat)
      ensures count == |ActiveOn(View(), s)|
    {
      var placed := set i | i in instances && instances[i].active && instances[i].server == Some(s);
      assert placed == ActiveOn(View(), s);
      count := |placed|;
    }

    /** `select_remote_server_locked`: the least loaded of the hosts that fit and that no other
        transaction holds. */
    method SelectRemoteServer(pool: Option<string>, locked: set<ServerId>) returns (choice: Option<ServerId>)
      ensures choice.Some? ==> Selectable(View(), pool, choice.value) && choice.value !in locked
      ensures choice.Some? ==>
                forall s | Selectable(View(), pool, s) && s !in locked ::
                  |ActiveOn(View(), choice.value)| <= |ActiveOn(View(), s)|
      ensures choice.None? ==> forall s | Selectable(View(), pool, s) :: s in locked
      ensures choice.Some? ==>
                && choice.value in servers && servers[choice.value].enabled
                && (pool.Some? ==> servers[choice.value].pool == pool)
                && |ActiveOn(View(), choice.value)| < servers[choice.value].capacity
      ensures choice.None? ==>
                forall s | s in servers && s !in locked && servers[s].enabled
                    && (pool.None? || servers[s].pool == pool) ::
                  servers[s].capacity <= |ActiveOn(View(), s)|
    {
      choice := None;
      var least := 0;
      var rest := servers.Keys - locked;
      while rest != {}
        invariant rest <= servers.Keys - locked
        invariant choice.Some? ==> Selectable(View(), pool, choice.value) && choice.value !in locked
        invariant choice.Some? ==> least == |ActiveOn(View(), choice.value)|
        invariant choice.Some? ==>
                    forall s | Selectable(View(), pool, s) && s !in locked && s !in rest ::
                        least <= |ActiveOn(View(), s)|
        invariant choice.None? ==> forall s | Selectable(View(), pool, s) && s !in locked :: s in rest
      {
        var s :| s in rest;
        rest := rest - {s};
        var count := CountActive(s);
        var row := servers[s];
        if row.enabled && (pool.None? || row.pool == pool) && count < row.capacity && (choice.None? || count < least) {
          choice, least := Some(s), count;
        }
      }
    }

    method MarkStarting(job: Job, s: ServerId, now: int) returns (marked: bool)
      requires Valid()
      modifies this`instances
      ensures View() == RuntimeRows.MarkStarting(old(View()), job, s, now).1
      ensures marked == RuntimeRows.MarkStarting(old(View()), job, s, now).0.Applied?
      ensures Valid()
    {
      var held := LockCommandClaim(job);
      if !held { return false; }
      if job.instance !in instances { return false; }
      var row := instances[job.instance];
      if row.generation != job.generation || !row.active || !row.desired.Running? { return false; }
      instances := instances[job.instance :=
          row.(observed := Starting, server := Some(s), lastObservedAt := Some(now))];
      return true;
    }

    /** `select_and_mark_starting`: `Err` when no host has room, `Ok(None)` when the row has moved on. */
    method SelectAndMarkStarting(job: Job, pool: Option<string>, locked: set<ServerId>, now: int)
      returns (failed: bool, choice: Option<ServerId>)
      requires Valid()
      modifies this`instances
      ensures Valid()
      ensures choice.None? ==> View() == old(View())
      ensures choice.Some? ==>
                && !failed && Selectable(old(View()), pool, choice.value)
                && RuntimeRows.MarkStarting(old(View()), job, choice.value, now) == (Applied, View())
      ensures !failed && choice.None? ==> forall s :: !RuntimeRows.MarkStarting(old(View()), job, s, now).0.Applied?
      ensures failed ==> choice.None? && forall s | Selectable(View(), pool, s) :: s in locked
    {
      failed, choice := false, None;
      var held := LockCommandClaim(job);
      if !held { return; }
      var server := SelectRemoteServer(pool, locked);
      if server.None? { return true, None; }
      var marked := MarkStarting(job, server.value, now);
      if marked { choice := server; }
    }

    method FinishStart(job: Job, s: ServerId, effective: int, now: int) returns (outcome: Outcome)
      requires Valid()
      modifies this`instances, this`commands
      ensures Valid() && (outcome, View()) == RuntimeRows.FinishStart(old(View()), job, s, effective, now)
    {
      var held := LockCommandClaim(job);
      if !held { return ClaimLost; }
      if job.instance !in instances || instances[job.instance].generation != job.generation { return NoRow; }
      instances := instances[job.instance := instances[job.instance].(
          observed := Ready, expiresAt := effective, server := Some(s), lastObservedAt := Some(now))];
      FinishCommand(job, Completed, now);
      return Applied;
    }

    /** `reject_start` (observed state `failed`) and `expire_unstarted_instance` (`expired`). */
    method RejectStart(job: Job, observed: Observed, now: int)
      requires Valid()
      modifies this`instances, this`commands
      ensures Valid() && View() == RuntimeRows.RejectStart(old(View()), job, observed, now)
    {
      var held := LockCommandClaim(job);
      if !held { return; }
      if job.instance in instances {
        var row := instances[job.instance];
        if row.generation == job.generation && row.observed.Requested? && row.active {
          instances := instances[job.instance := row.(active := false, desired := Stopped, observed := observed,
                                                      lastObservedAt := Some(now))];
        }
      }
      FinishCommand(job, Cancelled, now);
    }

    // ---------------------------------------------------------------- stopping

    method MarkStopping(job: Job, now: int) returns (marked: bool)
      requires Valid()
      modifies this`instances
      ensures View() == RuntimeRows.MarkStopping(old(View()), job, now).1
      ensures marked == RuntimeRows.MarkStopping(old(View()), job, now).0.Applied?
      ensures Valid()
    {
      var held := LockCommandClaim(job);
      if !held { return false; }
      if job.instance !in instances { return false; }
      var row := instances[job.instance];
      if row.generation != job.generation || !row.active { return false; }
      instances := instances[job.instance := row.(observed := Stopping, lastObservedAt := Some(now))];
      return true;
    }

    method FinishTermination(job: Job, snapshotExpiry: int, now: int) returns (outcome: Outcome)
      requires Valid()
      modifies this`instances, this`commands
      ensures Valid() && (outcome, View()) == RuntimeRows.FinishTermination(old(View()), job, snapshotExpiry, now)
    {
      var expired := snapshotExpiry <= now || job.reason.DeadlineReached?;
      var held := LockCommandClaim(job);
      if !held { return ClaimLost; }
      if job.instance !in instances { return NoRow; }
      var row := instances[job.instance];
      if row.generation != job.generation || !row.active { return NoRow; }
      instances := instances[job.instance := row.(active := false, desired := Stopped, lastObservedAt := Some(now),
                                                  observed := if expired then Expired else Terminated)];
      FinishCommand(job, Completed, now);
      return Applied;
    }

    /** `create_termination_command_in_transaction`. */
    method CreateTermination(i: InstanceId, reason: Reason, now: int)
      requires Valid()
      modifies this`instances, this`commands, this`nextCommand
      ensures Valid() && View() == RuntimeRows.CreateTermination(old(View()), i, reason, old(nextCommand), now)
    {
      if i !in instances || !instances[i].active { return; }
      var queued := exists c :: c in commands && commands[c].instance == i && commands[c].kind.Terminate?
                                && (commands[c].status.Pending? || commands[c].status.Claimed?);
      assert queued == HasOpenTerminate(View(), i) by {
        if queued {
          var c :| c in commands && commands[c].instance == i && commands[c].kind.Terminate?
                   && (commands[c].status.Pending? || commands[c].status.Claimed?);
          assert OpenTerminate(View(), c, i);
        }
      }
      if queued { return; }
      var row := instances[i];
      var generation := row.generation + 1;
      instances := instances[i := row.(desired := Stopped, generation := generation)];
      commands := commands[nextCommand := Command(i, Terminate, generation, row.settingRevision, row.runtimeRevision,
                                                  reason, Pending, 0, now, None)];
      nextCommand := nextCommand + 1;
    }

    /** `create_termination_command` for each of the rows a safety pass has found. */
    method CreateTerminations(ids: set<InstanceId>, reason: Reason, now: int)
      requires Valid()
      requires forall i | i in ids :: i in instances && instances[i].active && !HasOpenTerminate(View(), i)
      modifies this`instances, this`commands, this`nextCommand
      ensures Valid() && Terminations(old(View()), View(), ids, reason, now)
    {
      hide Terminations, HasOpenTerminate, RuntimeRows.CreateTermination;
      NoTerminations(View(), reason, now);
      var rest := ids;
      assert ids - rest == {};
      while rest != {}
        invariant Valid() && rest <= ids && Terminations(old(View()), View(), ids - rest, reason, now)
      {
        var i :| i in rest;
        ghost var before, done := View(), ids - rest;
        StillWithout(old(View()), before, done, i, reason, now);
        TerminationJoins(old(View()), before, done, i, reason, nextCommand, now);
        rest := rest - {i};
        assert ids - rest == done + {i};
        CreateTermination(i, reason, now);
      }
      assert ids - rest == ids;
    }

    /** `enqueue_policy_terminations`: afterwards every active instance that is stopped, or that the
        policy does not allow, is being terminated, or failed to be within the retry window. */
    method EnqueuePolicyTerminations(window: nat, now: int)
      requires Valid()
      modifies this`instances, this`commands, this`nextCommand
      ensures Valid()
      ensures Terminations(old(View()), View(),
                Due(old(View()), (row: Instance) => Disallowed(old(View()), row), window, now), OtherReason, now)
      ensures forall i | i in instances && instances[i].active && Disallowed(View(), instances[i]) ::
                CleanupUnderway(View(), i, window, now)
    {
      var ids := set i | i in instances && instances[i].active
                         && (instances[i].desired.Stopped? || !policy.enabled
                             || instances[i].challenge !in policy.runtimes
                             || !policy.runtimes[instances[i].challenge].enabled
                             || !policy.runtimes[instances[i].challenge].managed)
                         && !Underway(i, window, now);
      assert ids == Due(View(), (row: Instance) => Disallowed(old(View()), row), window, now);
      ghost var before := View();
      CreateTerminations(ids, OtherReason, now);
      forall i | i in instances && instances[i].active && Disallowed(View(), instances[i])
        ensures CleanupUnderway(View(), i, window, now)
      {
        UnderwayAfter(before, View(), ids, OtherReason, i, window, now);
      }
    }

    /** `enqueue_overdue_terminations`. */
    method EnqueueOverdueTerminations(window: nat, now: int)
      requires Valid()
      modifies this`instances, this`commands, this`nextCommand
      ensures Valid()
      ensures Terminations(old(View()), View(),
                Due(old(View()), (row: Instance) => row.expiresAt <= now, window, now), DeadlineReached, now)
      ensures forall i | i in instances && instances[i].active && instances[i].expiresAt <= now ::
                CleanupUnderway(View(), i, window, now)
    {
      var ids := set i | i in instances && instances[i].active && instances[i].expiresAt <= now
          && !Underway(i, window, now);
      assert ids == Due(View(), (row: Instance) => row.expiresAt <= now, window, now);
      ghost var before := View();
      CreateTerminations(ids, DeadlineReached, now);
      forall i | i in instances && instances[i].active && instances[i].expiresAt <= now
        ensures CleanupUnderway(View(), i, window, now)
      {
        UnderwayAfter(before, View(), ids, DeadlineReached, i, window, now);
      }
    }

    /** The two NOT EXISTS tests of the safety passes, negated. */
    predicate Underway(i: InstanceId, window: nat, now: int)
      reads this
      ensures Underway(i, window, now) == CleanupUnderway(View(), i, window, now)
    {
      var found := (exists c :: c in commands && commands[c].instance == i && commands[c].kind.Terminate?
                                && (Open(commands[c].status)
                                    || (commands[c].status.Failed? && commands[c].completedAt.Some?
                                        && commands[c].completedAt.value > now - window)));
      assert found ==> CleanupUnderway(View(), i, window, now) by {
        if found {
          var c :| c in commands && commands[c].instance == i && commands[c].kind.Terminate?
                   && (Open(commands[c].status)
                       || (commands[c].status.Failed? && commands[c].completedAt.Some?
                           && commands[c].completedAt.value > now - window));
          assert OpenTerminate(View(), c, i) || RecentlyFailedTerminate(View(), c, i, window, now);
        }
      }
      found
    }

    /** One maintenance pass of the controller: no active instance that is stopped, disallowed or expired
        is left without a termination, exactly those that had none get one, and it is due at once. */
    method EnqueueSafetyTerminations(window: nat, now: int)
      requires Valid()
      modifies this`instances, this`commands, this`nextCommand
      ensures Valid()
      ensures forall i | i in instances && instances[i].active && Overstays(View(), i, now) ::
                exists c :: c in commands && commands[c].instance == i && commands[c].kind.Terminate?
                            && (commands[c].status.Pending? || commands[c].status.Claimed?
                                || (commands[c].status.Failed? && commands[c].completedAt.Some?
                                    && now - window < commands[c].completedAt.value))
      ensures forall c | c in old(commands) :: c in commands && commands[c] == old(commands)[c]
      ensures forall c | c in commands && c !in old(commands) :: Enforces(old(View()), commands[c], window, now)
      ensures forall i | i in old(instances) && Unattended(old(View()), i, window, now) ::
                exists c :: c in commands && c !in old(commands) && commands[c].instance == i
    {
      ghost var first := View();
      ghost var stopped := Due(first, (row: Instance) => Disallowed(first, row), window, now);
      EnqueuePolicyTerminations(window, now);
      ghost var before := View();
      ghost var ids := Due(before, (row: Instance) => row.expiresAt <= now, window, now);
      EnqueueOverdueTerminations(window, now);
      forall i | i in instances && instances[i].active && Disallowed(View(), instances[i])
        ensures CleanupUnderway(View(), i, window, now)
      {
        if i !in ids { assert Disallowed(before, before.instances[i]); }
        UnderwayAfter(before, View(), ids, DeadlineReached, i, window, now);
      }
      forall i | i in instances && instances[i].active && Overstays(View(), i, now)
        ensures exists c :: c in commands && commands[c].instance == i && commands[c].kind.Terminate?
                            && (commands[c].status.Pending? || commands[c].status.Claimed?
                                || (commands[c].status.Failed? && commands[c].completedAt.Some?
                                    && now - window < commands[c].completedAt.value))
      {
        UnderwayCommand(View(), i, window, now);
      }
      PassesEnforce(first, before, View(), stopped, ids, window, now);
    }

    // ---------------------------------------------------------------- extending and inspecting

    method FinishExtension(job: Job, effective: int, now: int) returns (outcome: Outcome)
      requires Valid()
      modifies this`instances, this`commands
      ensures Valid() && (outcome, View()) == RuntimeRows.FinishExtension(old(View()), job, effective, now)
    {
      var held := LockCommandClaim(job);
      if !held { return ClaimLost; }
      if job.instance !in instances { return NoRow; }
      var row := instances[job.instance];
      if row.generation != job.generation || !row.active { return NoRow; }
      instances := instances[job.instance := row.(expiresAt := effective, lastObservedAt := Some(now))];
      FinishCommand(job, Completed, now);
      return Applied;
    }

    method FinishInspection(job: Job, snapshot: Instance, seen: Sighting, now: int) returns (outcome: Outcome)
      requires Valid()
      modifies this`instances, this`commands, this`nextCommand
      ensures Valid()
      ensures (outcome, View()) == RuntimeRows.FinishInspection(old(View()), job, snapshot, seen, old(nextCommand), now)
    {
      var held := LockCommandClaim(job);
      if !held { return ClaimLost; }
      if job.instance !in instances { return NoRow; }
      var row := instances[job.instance];
      if row.generation != job.generation || !row.active { return NoRow; }
      row := row.(lastObservedAt := Some(now));
      match seen {
        case Absent =>
          var expired := snapshot.expiresAt <= now || snapshot.desired.Stopped?;
          instances := instances[job.instance :=
              row.(active := false, observed := if expired then Expired else Observed.Failed)];
        case NotReady =>
          instances := instances[job.instance := row.(observed := CleanupPending)];
          CreateTermination(job.instance, OtherReason, now);
        case Healthy =>
          instances := instances[job.instance := row.(observed := Ready)];
      }
      FinishCommand(job, Completed, now);
      return Applied;
    }

    // ---------------------------------------------------------------- retrying

    /** `retry_backoff_seconds`: five seconds, doubled once per attempt, at most five minutes. */
    static method RetryBackoffSeconds(attempts: nat) returns (seconds: nat)
      ensures seconds == RetryBackoff(attempts)
    {
      var exponent := if attempts < 1 then 1 else if attempts > 6 then 6 else attempts;
      seconds := 5;
      for i := 0 to exponent
        invariant seconds == if i == 0 then 5 else if i == 1 then 10 else if i == 2 then 20 else if i == 3 then 40
                             else if i == 4 then 80 else if i == 5 then 160 else 320
      {
        seconds := 2 * seconds;
      }
      if seconds > 300 { seconds := 300; }
    }

    method ScheduleRetry(job: Job, maxAttempts: nat, now: int)
      requires Valid()
      modifies this`instances, this`commands, this`nextCommand
      ensures Valid() && View() == RuntimeRows.ScheduleRetry(old(View()), job, maxAttempts, old(nextCommand), now)
    {
      var held := LockCommandClaim(job);
      if !held { return; }
      if job.attempts >= maxAttempts {
        FinishCommand(job, Status.Failed, now);
        if job.instance !in instances { return; }
        var row := instances[job.instance];
        if row.generation != job.generation || !row.active { return; }
        var observed := match job.kind
          case Extend => Ready
          case Inspect => Unknown
          case Reconcile => Unknown
          case _ => CleanupPending;
        instances := instances[job.instance := row.(observed := observed, lastObservedAt := Some(now))];
        if job.kind.Start? { CreateTermination(job.instance, OtherReason, now); }
      } else {
        var backoff := RetryBackoffSeconds(job.attempts);
        commands := commands[job.id := commands[job.id].(status := Pending, availableAt := now + backoff)];
      }
    }
  }
}
