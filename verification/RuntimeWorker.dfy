/** The controller's command loop: claim a command, execute it against the journal, a remote host and the
    tables, and put it back for a retry when anything fails. The clock stands still during one call, this
    worker is the only claimant, and every remote or journal call may fail. */
module RuntimeWorker {
  import opened Options
  import opened Json
  import opened RuntimeRows
  import opened RemoteHelper
  import opened RuntimeProtocol
  import opened RuntimeInvariant
  import opened RuntimeTables
  import opened RuntimeEffects
  import opened JournalFile
  import opened OperationJournal
  import Journal

  // ------------------------------------------------------------------ what one command may do

  /** After `cmd` was claimed once more: it is finished, or, while attempts remain, it waits for a
      strictly later time. */
  predicate Rested(cmd: Command, cmd': Command, maxAttempts: nat, now: int) {
    && cmd'.kind == cmd.kind && cmd'.instance == cmd.instance && cmd'.generation == cmd.generation
    && cmd'.attempts == cmd.attempts + 1
    && (Finished(cmd'.status) || (cmd'.status.Pending? && cmd'.availableAt > now && cmd'.attempts < maxAttempts))
  }

  ghost function NewCommands(before: Db, after: Db): set<CommandId> { after.commands.Keys - before.commands.Keys }

  /** Other commands are left alone; at most one new one appears, a pending termination, and never in
      the course of a termination. */
  ghost predicate OthersKept(before: Db, after: Db, job: Job) {
    && (forall c | c in before.commands ::
        c in after.commands && (c != job.id ==> after.commands[c] == before.commands[c]))
    && |NewCommands(before, after)| <= 1
    && (forall c | c in NewCommands(before, after) :: after.commands[c].kind.Terminate? && !job.kind.Terminate?)
  }

  predicate SameOrder(cmd: Command, cmd': Command) {
    cmd'.kind == cmd.kind && cmd'.instance == cmd.instance && cmd'.generation == cmd.generation
        && cmd'.attempts == cmd.attempts
  }

  ghost predicate Settled(before: Db, after: Db, job: Job) {
    && OthersKept(before, after, job)
    && job.id in before.commands && job.id in after.commands && Finished(after.commands[job.id].status)
    && SameOrder(before.commands[job.id], after.commands[job.id])
  }

  /** Only the command's own instance row is written. */
  ghost predicate OnlyTouches(before: Db, after: Db, i: InstanceId) {
    && after.servers == before.servers && after.policy == before.policy
    && after.instances.Keys == before.instances.Keys
    && forall j | j in before.instances && j != i :: after.instances[j] == before.instances[j]
  }

  /** An execution ends with its command settled, or fails having settled it or left the commands alone. */
  ghost predicate Executed(before: Db, after: Db, job: Job, ok: bool) {
    && OnlyTouches(before, after, job.instance)
    && (Settled(before, after, job) || (!ok && after.commands == before.commands))
  }

  /** A remote call goes to the host on which the instance is placed, under the command's generation. */
  predicate CallFits(db: Db, job: Job, q: Request) {
    && q.origin.ByJob? && q.origin.job == job
    && q.instance == job.instance && q.generation == job.generation
    && OpFits(job.kind, q.op) && PlacedOn(db, q.instance, q.server)
  }

  ghost predicate CallsFit(db: Db, job: Job, before: seq<Request>, after: seq<Request>) {
    before <= after && forall n | |before| <= n < |after| :: CallFits(db, job, after[n])
  }

  ghost predicate SamePlacement(before: Db, after: Db, i: InstanceId) {
    forall s :: PlacedOn(before, i, s) ==> PlacedOn(after, i, s)
  }

  /** The turn that `execute_command` takes from a snapshot, as the transition system takes it: what it
      settles at once, and which call it makes first. */
  ghost predicate TakesTurn(turn: Pc, id: ControllerId, job: Job, snapshot: Option<Instance>, before: Db, after: Db,
                            now: int, ok: bool, made: seq<Request>) {
    match turn
    case Cancelling(_) => ok && made == [] && after == FinishIfHeld(before, job, Cancelled, now)
    case Rejecting(observed) => ok && made == [] && after == RejectStart(before, job, observed, now)
    case Completing => ok && made == [] && after == FinishIfHeld(before, job, Completed, now)
    case Erring => !ok && made == [] && after == before
    case Logging(op, s) =>
      if made == [] then !ok && after == before
      else snapshot.Some? && made == [JobRequest(id, job, op, s, snapshot.value)]
    case _ => made != [] ==> turn.Admitted? && ActiveAt(before, job.instance, job.generation)
  }

  // ------------------------------------------------------------------ what settles a command

  /** A transaction that leaves the commands alone may precede the one that settles. */
  lemma ExecutedThrough(before: Db, mid: Db, after: Db, job: Job, ok: bool)
    requires OnlyTouches(before, mid, job.instance) && mid.commands == before.commands
    requires Executed(mid, after, job, ok)
    ensures Executed(before, after, job, ok)
  {
    TouchesThrough(before, mid, after, job.instance);
    hide OnlyTouches;
    assert NewCommands(mid, after) == NewCommands(before, after);
  }

  lemma TouchesThrough(before: Db, mid: Db, after: Db, i: InstanceId)
    requires OnlyTouches(before, mid, i) && OnlyTouches(mid, after, i)
    ensures OnlyTouches(before, after, i)
  {
  }

  lemma NothingExecuted(db: Db, job: Job)
    ensures Executed(db, db, job, false) && OnlyTouches(db, db, job.instance)
  {
  }

  lemma MarkingTouches(db: Db, job: Job, s: ServerId, now: int)
    ensures var (outcome, db') := MarkStarting(db, job, s, now);
            && OnlyTouches(db, db', job.instance) && db'.commands == db.commands
            && (outcome.Applied? ==> PlacedOn(db', job.instance, s) && ActiveAt(db, job.instance, job.generation))
    ensures var (outcome, db') := MarkStopping(db, job, now);
            && OnlyTouches(db, db', job.instance) && db'.commands == db.commands && SamePlacement(db, db', job.instance)
            && (outcome.Applied? ==> ActiveAt(db, job.instance, job.generation))
            && (HoldsClaim(db, job) && ActiveAt(db, job.instance, job.generation) ==> outcome.Applied?)
  {
  }

  lemma FinishingSettles(db: Db, db': Db, job: Job, status: Status, now: int)
    requires HoldsClaim(db, job) && Finished(status) && db'.commands == db.commands
    ensures Settled(db, FinishIfHeld(db', job, status, now), job)
    ensures db' == db ==> Executed(db, FinishIfHeld(db', job, status, now), job, true)
  {
    assert NewCommands(db, FinishIfHeld(db', job, status, now)) == {};
  }

  lemma InspectionSettles(db: Db, job: Job, snapshot: Instance, seen: Sighting, newId: CommandId, now: int)
    requires HoldsClaim(db, job) && newId !in db.commands && !job.kind.Terminate?
    ensures var (outcome, db') := FinishInspection(db, job, snapshot, seen, newId, now);
            && OnlyTouches(db, db', job.instance) && !outcome.ClaimLost?
            && SamePlacement(db, db', job.instance)
            && (if outcome.Applied? then Settled(db, db', job) else db' == db)
  {
    var (outcome, db') := FinishInspection(db, job, snapshot, seen, newId, now);
    if outcome.Applied? {
      var row := db.instances[job.instance].(lastObservedAt := Some(now));
      if seen.NotReady? {
        var marked := PutInstance(db, job.instance, row.(observed := CleanupPending));
        TerminationAddsOne(marked, job.instance, OtherReason, newId, now);
        hide CreateTermination;
        CompletionSettles(db, CreateTermination(marked, job.instance, OtherReason, newId, now), job, newId, now);
      } else {
        CompletionSettles(db, db'.(commands := db.commands), job, newId, now);
      }
    }
  }

  /** Completing the command after at most one termination was added. */
  lemma CompletionSettles(db: Db, mid: Db, job: Job, newId: CommandId, now: int)
    requires HoldsClaim(db, job) && newId !in db.commands && !job.kind.Terminate?
    requires OnlyTouches(db, mid, job.instance) && SamePlacement(db, mid, job.instance)
    requires mid.commands == db.commands
             || (newId in mid.commands && mid.commands == db.commands[newId := mid.commands[newId]]
                 && mid.commands[newId].kind.Terminate?)
    ensures var db' := FinishIfHeld(mid, job, Completed, now);
            OnlyTouches(db, db', job.instance) && SamePlacement(db, db', job.instance) && Settled(db, db', job)
  {
    var db' := FinishIfHeld(mid, job, Completed, now);
    assert NewCommands(db, db') == {} || NewCommands(db, db') == {newId};
  }

  lemma RejectionSettles(db: Db, job: Job, observed: Observed, now: int)
    requires HoldsClaim(db, job)
    ensures var db' := RejectStart(db, job, observed, now);
            && Settled(db, db', job) && OnlyTouches(db, db', job.instance)
            && db'.commands[job.id].status.Cancelled?
  {
    hide Settled;
    var rejected := ActiveAt(db, job.instance, job.generation) && db.instances[job.instance].observed.Requested?;
    FinishingSettles(db, if rejected
                         then PutInstance(db, job.instance, db.instances[job.instance].(
                                active := false, desired := Stopped, observed := observed, lastObservedAt := Some(now)))
                         else db, job, Cancelled, now);
  }

  lemma StartSettles(db: Db, job: Job, s: ServerId, effective: int, now: int)
    requires HoldsClaim(db, job)
    ensures var (outcome, db') := FinishStart(db, job, s, effective, now);
            && OnlyTouches(db, db', job.instance) && !outcome.ClaimLost?
            && if outcome.Applied?
               then && Settled(db, db', job) && db'.commands[job.id].status.Completed?
                    && RowAt(db', job.instance, job.generation) && PlacedOn(db', job.instance, s)
                    && db'.instances[job.instance].observed.Ready? && db'.instances[job.instance].expiresAt == effective
               else db' == db
  {
    assert NewCommands(db, FinishStart(db, job, s, effective, now).1) == {};
  }

  lemma TerminationSettles(db: Db, job: Job, snapshotExpiry: int, now: int)
    requires HoldsClaim(db, job)
    ensures var (outcome, db') := FinishTermination(db, job, snapshotExpiry, now);
            && OnlyTouches(db, db', job.instance) && !outcome.ClaimLost?
            && SamePlacement(db, db', job.instance)
            && if outcome.Applied?
               then && Settled(db, db', job) && ActiveAt(db, job.instance, job.generation)
                    && job.instance in db'.instances && !db'.instances[job.instance].active
                    && db'.instances[job.instance].desired.Stopped?
               else db' == db
  {
    assert NewCommands(db, FinishTermination(db, job, snapshotExpiry, now).1) == {};
  }

  lemma ExtensionSettles(db: Db, job: Job, effective: int, now: int)
    requires HoldsClaim(db, job)
    ensures var (outcome, db') := FinishExtension(db, job, effective, now);
            && OnlyTouches(db, db', job.instance) && !outcome.ClaimLost?
            && SamePlacement(db, db', job.instance)
            && if outcome.Applied?
               then && Settled(db, db', job) && ActiveAt(db, job.instance, job.generation)
                    && job.instance in db'.instances && db'.instances[job.instance].expiresAt == effective
               else db' == db
  {
    assert NewCommands(db, FinishExtension(db, job, effective, now).1) == {};
  }

  lemma TerminationAddsOne(db: Db, i: InstanceId, reason: Reason, newId: CommandId, now: int)
    requires newId !in db.commands
    ensures var db' := CreateTermination(db, i, reason, newId, now);
            && OnlyTouches(db, db', i) && SamePlacement(db, db', i)
            && (db'.commands == db.commands
                || (newId in db'.commands && db'.commands == db.commands[newId := db'.commands[newId]]
                    && db'.commands[newId].kind.Terminate?))
  {
  }

  /** What `schedule_retry` makes of a command it finds claimed. */
  ghost predicate Retried(db: Db, db': Db, job: Job, maxAttempts: nat, now: int) {
    && OthersKept(db, db', job)
    && job.id in db.commands && job.id in db'.commands && SameOrder(db.commands[job.id], db'.commands[job.id])
    && var cmd := db'.commands[job.id];
    Finished(cmd.status) || (cmd.status.Pending? && cmd.availableAt > now && job.attempts < maxAttempts)
  }

  lemma RetryRests(db: Db, job: Job, maxAttempts: nat, newId: CommandId, now: int)
    requires newId !in db.commands
    ensures var db' := ScheduleRetry(db, job, maxAttempts, newId, now);
            if HoldsClaim(db, job) then Retried(db, db', job, maxAttempts, now) else db' == db
  {
    var db' := ScheduleRetry(db, job, maxAttempts, newId, now);
    if HoldsClaim(db, job) {
      if job.attempts < maxAttempts {
        assert NewCommands(db, db') == {};
      } else {
        hide ScheduleRetry, CreateTermination;
        FailureRows(db, job, maxAttempts, newId, now);
        assert NewCommands(db, db') == {} || NewCommands(db, db') == {newId};
      }
    }
  }

  lemma FailureRows(db: Db, job: Job, maxAttempts: nat, newId: CommandId, now: int)
    requires HoldsClaim(db, job) && newId !in db.commands && job.attempts >= maxAttempts
    ensures var db' := ScheduleRetry(db, job, maxAttempts, newId, now);
            var failed := FinishIfHeld(db, job, Status.Failed, now);
            && OnlyTouches(db, db', job.instance)
            && (db'.commands == failed.commands
                || (job.kind.Start? && newId in db'.commands && db'.commands[newId].kind.Terminate?
                    && db'.commands == failed.commands[newId := db'.commands[newId]]))
  {
    hide CreateTermination;
    var failed := FinishIfHeld(db, job, Status.Failed, now);
    if job.kind.Start? && ActiveAt(failed, job.instance, job.generation) {
      var marked := PutInstance(failed, job.instance, failed.instances[job.instance].(
                                  observed := CleanupPending, lastObservedAt := Some(now)));
      TerminationAddsOne(marked, job.instance, OtherReason, newId, now);
    }
  }

  // ------------------------------------------------------------------ what one iteration does

  /** One iteration has taken the due command `c`: it is at rest, the others are as they were, and at most
      one pending termination is new, none when `c` was a termination itself. */
  ghost predicate Served(before: Db, after: Db, c: CommandId, maxAttempts: nat, now: int) {
    && c in before.commands && c in after.commands && Available(before.commands[c], now)
    && Rested(before.commands[c], after.commands[c], maxAttempts, now)
    && (forall d | d in before.commands && d != c :: d in after.commands && after.commands[d] == before.commands[d])
    && |NewCommands(before, after)| <= 1
    && (forall d | d in NewCommands(before, after) ::
        after.commands[d].kind.Terminate? && !before.commands[c].kind.Terminate?)
  }

  lemma IterationServes(before: Db, claimed: Db, executed: Db, after: Db, job: Job, maxAttempts: nat, now: int,
                        ok: bool)
    requires job.id in before.commands && Available(before.commands[job.id], now)
    requires claimed == ClaimRow(before, job.id, job.token, now) && job == JobOf(claimed, job.id, job.token)
    requires Executed(claimed, executed, job, ok)
    requires ok || !HoldsClaim(executed, job) ==> after == executed
    requires !ok && HoldsClaim(executed, job) ==> Retried(executed, after, job, maxAttempts, now)
    ensures Served(before, after, job.id, maxAttempts, now)
  {
    hide OnlyTouches;
    if Settled(claimed, executed, job) {
      SettledServes(before, claimed, after, job, maxAttempts, now);
    } else {
      hide Served;
      RetriedServes(before, claimed, executed, after, job, maxAttempts, now);
    }
  }

  lemma SettledServes(before: Db, claimed: Db, after: Db, job: Job, maxAttempts: nat, now: int)
    requires job.id in before.commands && Available(before.commands[job.id], now)
    requires claimed == ClaimRow(before, job.id, job.token, now) && job == JobOf(claimed, job.id, job.token)
    requires Settled(claimed, after, job)
    ensures Served(before, after, job.id, maxAttempts, now)
  {
    assert NewCommands(claimed, after) == NewCommands(before, after);
  }

  lemma RetriedServes(before: Db, claimed: Db, executed: Db, after: Db, job: Job, maxAttempts: nat, now: int)
    requires job.id in before.commands && Available(before.commands[job.id], now)
    requires claimed == ClaimRow(before, job.id, job.token, now) && job == JobOf(claimed, job.id, job.token)
    requires executed.commands == claimed.commands && Retried(executed, after, job, maxAttempts, now)
    ensures Served(before, after, job.id, maxAttempts, now)
  {
    assert NewCommands(executed, after) == NewCommands(before, after);
  }

  // ------------------------------------------------------------------ the loop's measure

  ghost function DueOthers(db: Db, now: int): set<CommandId> {
    set c | c in db.commands && Available(db.commands[c], now) && !db.commands[c].kind.Terminate?
  }

  ghost function DueTerminations(db: Db, now: int): set<CommandId> {
    set c | c in db.commands && Available(db.commands[c], now) && db.commands[c].kind.Terminate?
  }

  /** Twice the due commands other than terminations, plus the due terminations. */
  ghost function Backlog(db: Db, now: int): nat { 2 * |DueOthers(db, now)| + |DueTerminations(db, now)| }

  /** Serving a command lowers the backlog, whatever it enqueues. */
  lemma ServingLowersBacklog(before: Db, after: Db, c: CommandId, maxAttempts: nat, now: int)
    requires Served(before, after, c, maxAttempts, now)
    ensures Backlog(after, now) < Backlog(before, now)
  {
    var added := NewCommands(before, after);
    forall d | d in DueOthers(after, now) ensures d in DueOthers(before, now) - {c} { assert d !in added; }
    SubsetCount(DueOthers(after, now), DueOthers(before, now) - {c});
    if before.commands[c].kind.Terminate? {
      forall d | d in DueTerminations(after, now)
          ensures d in DueTerminations(before, now) - {c} { assert d !in added; }
      SubsetCount(DueTerminations(after, now), DueTerminations(before, now) - {c});
    } else {
      assert c in DueOthers(before, now);
      SubsetCount(DueTerminations(after, now), DueTerminations(before, now) + added);
    }
  }

  /** What `require_remote_ready`, `require_remote_generation` and `require_remote_removal` refuse, and a start that
      is not confirmed to run. */
  predicate Unacceptable(op: Operation, answer: Result, generation: nat) {
    match op
    case EnsureInstance =>
      answer.stale || answer.generation != Some(generation) || answer.absent || !answer.hasContainerId || !answer.ready
    case StopInstance => answer.stale || !answer.absent
    case UpdateDeadline => answer.stale || answer.generation != Some(generation)
    case InspectInstance => !answer.absent && (answer.stale || answer.generation != Some(generation))
  }

  /** The command is cancelled, and nothing else is written. */
  ghost predicate OnlyCancelled(before: Db, after: Db, job: Job, now: int) {
    && after.instances == before.instances && after.servers == before.servers && after.policy == before.policy
    && Ends(before, after, job, Cancelled, now) && after.commands.Keys == before.commands.Keys
  }

  /** A start that has succeeded: the row of the live instance is ready on the host. */
  ghost predicate Started(before: Db, after: Db, job: Job, s: ServerId, effective: int, now: int) {
    && OnlyInstance(before, after, job.instance) && Ends(before, after, job, Completed, now)
    && after.commands.Keys == before.commands.Keys && job.instance in before.instances
    && after.instances[job.instance] == before.instances[job.instance].(
         observed := Ready, expiresAt := effective, server := Some(s), lastObservedAt := Some(now))
  }

  /** Since then, due commands have been taken once or not yet, and the others have been left alone. */
  ghost predicate ServedSince(first: Db, db: Db, maxAttempts: nat, now: int) {
    forall c | c in first.commands ::
      && c in db.commands
      && (db.commands[c] == first.commands[c]
          || (Available(first.commands[c], now) && Rested(first.commands[c], db.commands[c], maxAttempts, now)))
  }

  lemma ServedOnward(first: Db, before: Db, after: Db, c: CommandId, maxAttempts: nat, now: int)
    requires ServedSince(first, before, maxAttempts, now) && Served(before, after, c, maxAttempts, now)
    ensures ServedSince(first, after, maxAttempts, now)
  {
  }

  class Worker {
    const id: ControllerId
    const tables: Tables
    const journal: OperationJournal
    const maxAttempts: nat
    /** Every remote call this worker has made. */
    ghost var calls: seq<Request>
    /** What the last of them was answered. */
    ghost var lastAnswer: Option<Result>
    /** Whether any journal write has failed, a call has not been answered, or no host had room. */
    ghost var trouble: bool

    ghost predicate Valid() reads this, tables, journal { tables.Valid() && journal.Valid() }

    constructor (id: ControllerId, tables: Tables, journal: OperationJournal, maxAttempts: nat)
      requires tables.Valid() && journal.Valid()
      ensures Valid() && this.tables == tables && this.journal == journal && this.maxAttempts == maxAttempts
      ensures calls == [] && !trouble
    {
      this.id, this.tables, this.journal, this.maxAttempts := id, tables, journal, maxAttempts;
      calls, lastAnswer, trouble := [], None, false;
    }

    /** `journal.intent`, `journal.remote_result` and `journal.acknowledged`. */
    method Log(job: Job, snapshot: Instance, op: Operation, server: Option<ServerId>, phase: Journal.Phase,
               result: Option<Result>, now: int) returns (ok: bool)
      requires journal.Valid()
      modifies this`trouble, journal
      ensures journal.Valid() && trouble == (old(trouble) || !ok)
      ensures ok && phase.Intent? && server.Some? ==>
                journal.lost || (Readable(journal.file) && LoggedIntent(Records(journal.file), job, op, server.value))
      ensures ok && !journal.lost ==>
                && Readable(journal.file)
                && var current, key := Replayed(journal.file), (job.instance, job.id);
                if phase.DatabaseAcknowledged? then key !in current
                else
                  && key in current
                  && current[key].generation == job.generation && current[key].operation == op
                  && current[key].phase == phase && current[key].server == server && current[key].result == result
                  && current[key].expiresAt == (if result.Some? && result.value.expiresAt.Some?
                                                then result.value.expiresAt.value else snapshot.desiredExpiresAt)
    {
      var payload: Json := *;
      var entry := JournalEntry(job, snapshot, op, server, phase, result,
                                if phase.DatabaseAcknowledged? then None else Some(payload), now);
      ok := journal.Append(entry);
      trouble := trouble || !ok;
    }

    /** `remote.execute`: whatever the host answers, if it answers. It is only called once the journal
        can be read and replays the intent, unless an earlier record was lost behind a torn line or in a file that
        cannot be read. */
    method RemoteExecute(job: Job, snapshot: Instance, op: Operation, server: ServerId) returns (answer: Option<Result>)
      requires journal.lost || (Readable(journal.file) && LoggedIntent(Records(journal.file), job, op, server))
      modifies this`calls, this`lastAnswer, this`trouble
      ensures calls == old(calls) + [JobRequest(id, job, op, server, snapshot)] && lastAnswer == answer
      ensures trouble == (old(trouble) || answer.None?)
    {
      calls := calls + [JobRequest(id, job, op, server, snapshot)];
      answer := *;
      lastAnswer := answer;
      trouble := trouble || answer.None?;
    }

    /** The last answer passes every check of the operation. */
    ghost predicate Confirmed(op: Operation, generation: nat) reads this {
      && lastAnswer.Some?
      && PassesBeforeLog(op, lastAnswer.value, generation) && PassesAfterLog(op, lastAnswer.value, generation)
    }

    /** Intent, call, the checks that precede the result record, the record, the checks that follow it. */
    method CallHost(job: Job, snapshot: Instance, op: Operation, server: ServerId,
                    now: int) returns (answer: Option<Result>)
      requires Valid()
      modifies this`calls, this`lastAnswer, this`trouble, journal
      ensures Valid()
      ensures calls == old(calls) || calls == old(calls) + [JobRequest(id, job, op, server, snapshot)]
      ensures answer.Some? ==>
                && calls == old(calls) + [JobRequest(id, job, op, server, snapshot)] && lastAnswer == answer
                && Confirmed(op, job.generation) && !Unacceptable(op, answer.value, job.generation)
      ensures old(trouble) ==> trouble
      ensures answer.None? && !trouble ==> lastAnswer.Some? && Unacceptable(op, lastAnswer.value, job.generation)
    {
      var ok := Log(job, snapshot, op, Some(server), Journal.Intent, None, now);
      if !ok { return None; }
      answer := RemoteExecute(job, snapshot, op, server);
      if answer.None? { return; }
      if !PassesBeforeLog(op, answer.value, job.generation) { return None; }
      ok := Log(job, snapshot, op, Some(server), Journal.RemoteResult, answer, now);
      if !ok || !PassesAfterLog(op, answer.value, job.generation) { return None; }
    }

    method Acknowledge(job: Job, snapshot: Instance, op: Operation, now: int) returns (ok: bool)
      requires journal.Valid()
      modifies this`trouble, journal
      ensures journal.Valid() && trouble == (old(trouble) || !ok)
    {
      ok := Log(job, snapshot, op, None, Journal.DatabaseAcknowledged, None, now);
    }

    method Cancel(job: Job, now: int)
      requires Valid() && HoldsClaim(tables.View(), job)
      modifies tables`commands
      ensures Valid() && tables.View() == FinishIfHeld(old(tables.View()), job, Cancelled, now)
      ensures Executed(old(tables.View()), tables.View(), job, true)
      ensures OnlyCancelled(old(tables.View()), tables.View(), job, now)
      ensures job.id in tables.commands && tables.commands[job.id].status.Cancelled?
    {
      FinishingSettles(tables.View(), tables.View(), job, Cancelled, now);
      tables.FinishCommand(job, Cancelled, now);
    }

    // ---------------------------------------------------------------- starting

    /** `execute_start`. Nothing is sent before the gate was found open and the placement stored; a start
        whose deadline has passed or whose gate is closed sends nothing and gives the slot back. */
    method ExecuteStart(job: Job, snapshot: Instance, now: int) returns (ok: bool)
      requires Valid() && HoldsClaim(tables.View(), job) && job.kind.Start?
      modifies this`calls, this`lastAnswer, this`trouble, journal, tables`instances, tables`commands
      ensures Valid() && Executed(old(tables.View()), tables.View(), job, ok)
      ensures CallsFit(tables.View(), job, old(calls), calls)
      ensures TakesTurn(Dispatch(old(tables.View()), job, snapshot, now), id, job, Some(snapshot), old(tables.View()),
                        tables.View(), now, ok, calls[|old(calls)|..])
      ensures ok && tables.commands[job.id].status.Completed? ==> Launched(job, snapshot, |old(calls)|)
      ensures old(trouble) ==> trouble
      ensures var before, after := old(tables.View()), tables.View();
              if !snapshot.active || snapshot.desired.Stopped? then
                ok && calls == old(calls) && OnlyCancelled(before, after, job, now)
              else if snapshot.desiredExpiresAt <= now then
                ok && calls == old(calls) && Rejected(before, after, job, Expired, now)
              else if SwitchedOff(before, snapshot.challenge) || job.settingRevision != before.policy.revision
                      || job.runtimeRevision != before.policy.runtimes[snapshot.challenge].revision then
                ok && calls == old(calls) && Rejected(before, after, job, Observed.Failed, now)
              else
                StartOutcome(before, after, job, snapshot, now, ok)
      ensures Dispatch(old(tables.View()), job, snapshot, now).Admitted? ==>
                StartOutcome(old(tables.View()), tables.View(), job, snapshot, now, ok)
    {
      ghost var before := tables.View();
      StartRejects(before, job, Expired, now);
      StartRejects(before, job, Observed.Failed, now);
      hide Rejected, StartOutcome, RuntimeRows.RejectStart, Launched, Settled, OnlyTouches, OnlyCancelled, FinishIfHeld,
           Executed, CallsFit;
      if !snapshot.active || !snapshot.desired.Running? {
        Cancel(job, now);
        return true;
      }
      if snapshot.desiredExpiresAt <= now {
        RejectionSettles(before, job, Expired, now);
        tables.RejectStart(job, Expired, now);
        return true;
      }
      var p, c := tables.policy, snapshot.challenge;
      var gate := p.enabled && c in p.runtimes && p.runtimes[c].enabled && p.runtimes[c].managed
                  && job.settingRevision == p.revision && job.runtimeRevision == p.runtimes[c].revision;
      if !gate {
        RejectionSettles(before, job, Observed.Failed, now);
        tables.RejectStart(job, Observed.Failed, now);
        return true;
      }
      ok := PlaceAndLaunch(job, snapshot, now);
    }

    /** A start that may go on, and succeeds, has started its live instance or finds it gone; it fails only over
        trouble, an unknown host, or an answer that is unacceptable or goes beyond the maximum lifetime. */
    ghost predicate StartOutcome(before: Db, after: Db, job: Job, snapshot: Instance, now: int, ok: bool) reads this {
      if !ok then
        || trouble || (snapshot.server.Some? && snapshot.server.value !in before.servers)
        || (lastAnswer.Some?
            && (Unacceptable(EnsureInstance, lastAnswer.value, job.generation)
                || lastAnswer.value.expiresAt.GetOr(snapshot.desiredExpiresAt) > snapshot.maximumExpiresAt))
      else if Live(before, job) && before.instances[job.instance].desired.Running? then
        && lastAnswer.Some? && !Unacceptable(EnsureInstance, lastAnswer.value, job.generation)
        && lastAnswer.value.expiresAt.GetOr(snapshot.desiredExpiresAt) <= snapshot.maximumExpiresAt
        && job.instance in after.instances && after.instances[job.instance].server.Some?
        && (snapshot.server.Some? ==> after.instances[job.instance].server == snapshot.server)
        && Started(before, after, job, after.instances[job.instance].server.value,
                   lastAnswer.value.expiresAt.GetOr(snapshot.desiredExpiresAt), now)
      else OnlyCancelled(before, after, job, now)
    }

    /** What a completed start leaves behind: a ready instance within its maximum lifetime, on the host
        that was asked to launch it. */
    ghost predicate Launched(job: Job, snapshot: Instance, made: nat) reads this, tables {
      && job.instance in tables.instances
      && var row := tables.instances[job.instance];
      && row.generation == job.generation && row.observed.Ready? && row.expiresAt <= snapshot.maximumExpiresAt
      && Confirmed(EnsureInstance, job.generation)
      && row.expiresAt == lastAnswer.value.expiresAt.GetOr(snapshot.desiredExpiresAt)
      && row.server.Some? && made <= |calls|
      && JobRequest(id, job, EnsureInstance, row.server.value, snapshot) in calls[made..]
    }

    /** `execute_start` behind the gate: a stored placement is used again, a new one is chosen only when
        there is none. */
    method PlaceAndLaunch(job: Job, snapshot: Instance, now: int) returns (ok: bool)
      requires Valid() && HoldsClaim(tables.View(), job) && job.kind.Start?
      modifies this`calls, this`lastAnswer, this`trouble, journal, tables`instances, tables`commands
      ensures Valid() && Executed(old(tables.View()), tables.View(), job, ok)
      ensures CallsFit(tables.View(), job, old(calls), calls)
      ensures calls != old(calls) ==> ActiveAt(old(tables.View()), job.instance, job.generation)
      ensures ok && tables.commands[job.id].status.Completed? ==> Launched(job, snapshot, |old(calls)|)
      ensures old(trouble) ==> trouble
      ensures StartOutcome(old(tables.View()), tables.View(), job, snapshot, now, ok)
    {
      hide Settled, OnlyTouches, RuntimeRows.MarkStarting, Selectable, Executed;
      ghost var before := tables.View();
      NothingExecuted(before, job);
      var server, marked: bool;
      if snapshot.server.Some? {
        server := snapshot.server.value;
        if server !in tables.servers { return false; }
        marked := tables.MarkStarting(job, server, now);
      } else {
        var locked: set<ServerId> := *;
        var failed, choice := tables.SelectAndMarkStarting(job, snapshot.pool, locked, now);
        if failed {
          trouble := true;
          return false;
        }
        server, marked := choice.GetOr(0), choice.Some?;
      }
      MarkingTouches(before, job, server, now);
      StartMarks(before, job, server, now);
      ghost var marking := tables.View();
      if marked {
        ok := Launch(job, snapshot, server, now);
      } else {
        Cancel(job, now);
        ok := true;
      }
      ExecutedThrough(before, marking, tables.View(), job, ok);
    }

    ghost predicate LaunchOutcome(before: Db, after: Db, job: Job, snapshot: Instance, server: ServerId, now: int,
                                  ok: bool)
      reads this
    {
      if !ok then
        trouble || (lastAnswer.Some? && (Unacceptable(EnsureInstance, lastAnswer.value, job.generation)
                                         || lastAnswer.value.expiresAt.GetOr(snapshot.desiredExpiresAt)
                                            > snapshot.maximumExpiresAt))
      else
        && lastAnswer.Some? && !Unacceptable(EnsureInstance, lastAnswer.value, job.generation)
        && lastAnswer.value.expiresAt.GetOr(snapshot.desiredExpiresAt) <= snapshot.maximumExpiresAt
        && Started(before, after, job, server, lastAnswer.value.expiresAt.GetOr(snapshot.desiredExpiresAt), now)
    }

    /** `execute_start` once the placement is stored. When the row has moved on in the meantime, the
        workload that was just started is stopped again. */
    method Launch(job: Job, snapshot: Instance, server: ServerId, now: int) returns (ok: bool)
      requires Valid() && HoldsClaim(tables.View(), job) && job.kind.Start?
      requires PlacedOn(tables.View(), job.instance, server)
      modifies this`calls, this`lastAnswer, this`trouble, journal, tables`instances, tables`commands
      ensures Valid() && Executed(old(tables.View()), tables.View(), job, ok)
      ensures CallsFit(tables.View(), job, old(calls), calls)
      ensures ok && tables.commands[job.id].status.Completed? ==> Launched(job, snapshot, |old(calls)|)
      ensures ok && tables.commands[job.id].status.Cancelled? ==>
                JobRequest(id, job, StopInstance, server, snapshot) in calls[|old(calls)|..]
      ensures old(trouble) ==> trouble
      ensures Live(old(tables.View()), job) ==>
                LaunchOutcome(old(tables.View()), tables.View(), job, snapshot, server, now, ok)
    {
      hide Settled, OnlyTouches, RuntimeRows.FinishStart, Unacceptable;
      NothingExecuted(tables.View(), job);
      var answer := CallHost(job, snapshot, EnsureInstance, server, now);
      if answer.None? { return false; }
      var effective := answer.value.expiresAt.GetOr(snapshot.desiredExpiresAt);
      if effective > snapshot.maximumExpiresAt { return false; }
      StartSettles(tables.View(), job, server, effective, now);
      StartFinishes(tables.View(), job, server, effective, now);
      var outcome := tables.FinishStart(job, server, effective, now);
      if outcome.NoRow? {
        ok := StopAgain(job, snapshot, server, now);
        if !ok { return; }
        assert calls[|old(calls)|..][1] == JobRequest(id, job, StopInstance, server, snapshot);
      }
      ok := Acknowledge(job, snapshot, EnsureInstance, now);
    }

    method StopAgain(job: Job, snapshot: Instance, server: ServerId, now: int) returns (ok: bool)
      requires Valid() && HoldsClaim(tables.View(), job)
      modifies this`calls, this`lastAnswer, this`trouble, journal, tables`commands
      ensures Valid() && tables.instances == old(tables.instances)
      ensures Executed(old(tables.View()), tables.View(), job, ok)
      ensures calls == old(calls) || calls == old(calls) + [JobRequest(id, job, StopInstance, server, snapshot)]
      ensures ok ==> calls != old(calls) && tables.commands[job.id].status.Cancelled?
      ensures old(trouble) ==> trouble
    {
      var stopped := CallHost(job, snapshot, StopInstance, server, now);
      if stopped.None? { return false; }
      Cancel(job, now);
      ok := Acknowledge(job, snapshot, StopInstance, now);
    }

    // ---------------------------------------------------------------- stopping, extending, inspecting

    /** `execute_terminate`. A completed termination of an active instance has made it inactive, after the
        host it was placed on, if any, was asked to stop it. */
    method ExecuteTerminate(job: Job, snapshot: Instance, now: int) returns (ok: bool)
      requires Valid() && HoldsClaim(tables.View(), job) && job.kind.Terminate?
      requires snapshot.server.Some? ==> PlacedOn(tables.View(), job.instance, snapshot.server.value)
      modifies this`calls, this`lastAnswer, this`trouble, journal, tables`instances, tables`commands
      ensures Valid() && Executed(old(tables.View()), tables.View(), job, ok)
      ensures CallsFit(tables.View(), job, old(calls), calls)
      ensures TakesTurn(Dispatch(old(tables.View()), job, snapshot, now), id, job, Some(snapshot), old(tables.View()),
                        tables.View(), now, ok, calls[|old(calls)|..])
      ensures ok && tables.commands[job.id].status.Completed? && snapshot.active ==>
                && ActiveAt(old(tables.View()), job.instance, job.generation)
                && !tables.instances[job.instance].active && tables.instances[job.instance].desired.Stopped?
                && calls[|old(calls)|..] == StopCalls(job, snapshot)
                && (snapshot.server.Some? ==> Confirmed(StopInstance, job.generation))
      ensures old(trouble) ==> trouble
      ensures var before, after := old(tables.View()), tables.View();
              if !snapshot.active then
                ok && calls == old(calls) && after.instances == before.instances
                    && Ends(before, after, job, Completed, now)
              else if ok then
                if Live(before, job) then Terminates(before, after, job, snapshot.expiresAt, now)
                else calls == old(calls) && OnlyCancelled(before, after, job, now)
              else
                || trouble || (snapshot.server.Some? && snapshot.server.value !in before.servers)
                || (lastAnswer.Some? && Unacceptable(StopInstance, lastAnswer.value, job.generation))
      ensures Dispatch(old(tables.View()), job, snapshot, now).Admitted? && ok ==>
                if Live(old(tables.View()), job)
                then Terminates(old(tables.View()), tables.View(), job, snapshot.expiresAt, now)
                else OnlyCancelled(old(tables.View()), tables.View(), job, now)
    {
      hide Settled, OnlyTouches, RuntimeRows.MarkStopping, Executed;
      NothingExecuted(tables.View(), job);
      StopMarks(tables.View(), job, now);
      ghost var before := tables.View();
      if !snapshot.active {
        FinishingSettles(before, before, job, Completed, now);
        tables.FinishCommand(job, Completed, now);
        return true;
      }
      if snapshot.server.Some? && snapshot.server.value !in tables.servers { return false; }
      var marked := tables.MarkStopping(job, now);
      MarkingTouches(before, job, 0, now);
      ghost var marking := tables.View();
      if marked {
        ok := StopOnHost(job, snapshot, now);
      } else {
        Cancel(job, now);
        ok := true;
      }
      ExecutedThrough(before, marking, tables.View(), job, ok);
    }

    ghost function StopCalls(job: Job, snapshot: Instance): seq<Request> {
      if snapshot.server.Some? then [JobRequest(id, job, StopInstance, snapshot.server.value, snapshot)] else []
    }

    /** `execute_terminate` once the instance is marked as stopping. */
    method StopOnHost(job: Job, snapshot: Instance, now: int) returns (ok: bool)
      requires Valid() && HoldsClaim(tables.View(), job) && job.kind.Terminate?
      requires snapshot.server.Some? ==> PlacedOn(tables.View(), job.instance, snapshot.server.value)
      modifies this`calls, this`lastAnswer, this`trouble, journal, tables`instances, tables`commands
      ensures Valid() && Executed(old(tables.View()), tables.View(), job, ok)
      ensures CallsFit(tables.View(), job, old(calls), calls)
      ensures ok && tables.commands[job.id].status.Completed? ==>
                && job.instance in tables.instances
                && !tables.instances[job.instance].active && tables.instances[job.instance].desired.Stopped?
                && calls[|old(calls)|..] == StopCalls(job, snapshot)
                && (snapshot.server.Some? ==> Confirmed(StopInstance, job.generation))
      ensures old(trouble) ==> trouble
      ensures ok && Live(old(tables.View()), job) ==>
                Terminates(old(tables.View()), tables.View(), job, snapshot.expiresAt, now)
      ensures !ok ==> trouble || (lastAnswer.Some? && Unacceptable(StopInstance, lastAnswer.value, job.generation))
    {
      hide Settled, OnlyTouches, RuntimeRows.FinishTermination;
      NothingExecuted(tables.View(), job);
      StopFinishes(tables.View(), job, snapshot.expiresAt, now);
      if snapshot.server.Some? {
        var answer := CallHost(job, snapshot, StopInstance, snapshot.server.value, now);
        if answer.None? { return false; }
      }
      TerminationSettles(tables.View(), job, snapshot.expiresAt, now);
      var outcome := tables.FinishTermination(job, snapshot.expiresAt, now);
      if !outcome.Applied? { Cancel(job, now); }
      if snapshot.server.Some? {
        ok := Acknowledge(job, snapshot, StopInstance, now);
      } else {
        ok := true;
      }
    }

    /** `execute_extend`. A completed extension has moved the expiry into the future, at most to the
        maximum lifetime. */
    method ExecuteExtend(job: Job, snapshot: Instance, now: int) returns (ok: bool)
      requires Valid() && HoldsClaim(tables.View(), job) && job.kind.Extend?
      requires snapshot.server.Some? ==> PlacedOn(tables.View(), job.instance, snapshot.server.value)
      modifies this`calls, this`lastAnswer, this`trouble, journal, tables`instances, tables`commands
      ensures Valid() && Executed(old(tables.View()), tables.View(), job, ok)
      ensures CallsFit(tables.View(), job, old(calls), calls)
      ensures TakesTurn(Dispatch(old(tables.View()), job, snapshot, now), id, job, Some(snapshot), old(tables.View()),
                        tables.View(), now, ok, calls[|old(calls)|..])
      ensures ok && tables.commands[job.id].status.Completed? ==>
                && ActiveAt(old(tables.View()), job.instance, job.generation)
                && now < tables.instances[job.instance].expiresAt <= snapshot.maximumExpiresAt
                && Confirmed(UpdateDeadline, job.generation)
                && tables.instances[job.instance].expiresAt
                    == lastAnswer.value.expiresAt.GetOr(snapshot.desiredExpiresAt)
      ensures old(trouble) ==> trouble
      ensures var before, after := old(tables.View()), tables.View();
              if !snapshot.active || snapshot.desired.Stopped? || snapshot.expiresAt <= now then
                ok && calls == old(calls) && OnlyCancelled(before, after, job, now)
              else if snapshot.server.None? || snapshot.server.value !in before.servers then
                !ok && calls == old(calls)
              else if ok then
                && lastAnswer.Some? && !Unacceptable(UpdateDeadline, lastAnswer.value, job.generation)
                && var effective := lastAnswer.value.expiresAt.GetOr(snapshot.desiredExpiresAt);
                && now < effective <= snapshot.maximumExpiresAt
                && (if Live(before, job) then Extends(before, after, job, effective, now)
                    else OnlyCancelled(before, after, job, now))
              else
                || trouble
                || (lastAnswer.Some?
                    && (Unacceptable(UpdateDeadline, lastAnswer.value, job.generation)
                        || !(now < lastAnswer.value.expiresAt.GetOr(snapshot.desiredExpiresAt)
                             <= snapshot.maximumExpiresAt)))
    {
      hide Settled, OnlyTouches, RuntimeRows.FinishExtension, Extends, OnlyCancelled, FinishIfHeld, Unacceptable;
      NothingExecuted(tables.View(), job);
      if !snapshot.active || !snapshot.desired.Running? || snapshot.expiresAt <= now {
        Cancel(job, now);
        return true;
      }
      if snapshot.server.None? || snapshot.server.value !in tables.servers { return false; }
      var answer := CallHost(job, snapshot, UpdateDeadline, snapshot.server.value, now);
      if answer.None? { return false; }
      var effective := answer.value.expiresAt.GetOr(snapshot.desiredExpiresAt);
      if effective > snapshot.maximumExpiresAt || effective <= now { return false; }
      ExtensionSettles(tables.View(), job, effective, now);
      ExtensionFinishes(tables.View(), job, effective, now);
      var outcome := tables.FinishExtension(job, effective, now);
      if !outcome.Applied? { Cancel(job, now); }
      ok := Acknowledge(job, snapshot, UpdateDeadline, now);
    }

    /** `execute_inspect`: what an acceptable answer says of the live instance is written, and nothing else. */
    method ExecuteInspect(job: Job, snapshot: Instance, now: int) returns (ok: bool)
      requires Valid() && HoldsClaim(tables.View(), job) && (job.kind.Inspect? || job.kind.Reconcile?)
      requires snapshot.server.Some? ==> PlacedOn(tables.View(), job.instance, snapshot.server.value)
      requires tables.commands[job.id].kind == job.kind
      modifies this`calls, this`lastAnswer, this`trouble, journal, tables`instances, tables`commands, tables`nextCommand
      ensures Valid() && Executed(old(tables.View()), tables.View(), job, ok)
      ensures CallsFit(tables.View(), job, old(calls), calls)
      ensures TakesTurn(Dispatch(old(tables.View()), job, snapshot, now), id, job, Some(snapshot), old(tables.View()),
                        tables.View(), now, ok, calls[|old(calls)|..])
      ensures ok && tables.commands[job.id].status.Completed? ==> Confirmed(InspectInstance, job.generation)
      ensures old(trouble) ==> trouble
      ensures var before, after := old(tables.View()), tables.View();
              if snapshot.server.None? then
                ok && calls == old(calls) && OnlyCancelled(before, after, job, now)
              else if snapshot.server.value !in before.servers then
                !ok && calls == old(calls)
              else if ok then
                && lastAnswer.Some? && !Unacceptable(InspectInstance, lastAnswer.value, job.generation)
                && (if Live(before, job) then Inspected(before, after, job, snapshot, lastAnswer.value, now)
                    else OnlyCancelled(before, after, job, now))
              else
                trouble || (lastAnswer.Some? && Unacceptable(InspectInstance, lastAnswer.value, job.generation))
    {
      hide Settled, OnlyTouches, RuntimeRows.FinishInspection, Inspected, OnlyCancelled, FinishIfHeld, Unacceptable;
      NothingExecuted(tables.View(), job);
      if snapshot.server.None? {
        Cancel(job, now);
        return true;
      }
      if snapshot.server.value !in tables.servers { return false; }
      var answer := CallHost(job, snapshot, InspectInstance, snapshot.server.value, now);
      if answer.None? { return false; }
      InspectionFinishes(tables.View(), job, snapshot, answer.value, tables.nextCommand, now);
      InspectionSettles(tables.View(), job, snapshot, SightingOf(answer.value), tables.nextCommand, now);
      var outcome := tables.FinishInspection(job, snapshot, SightingOf(answer.value), now);
      if !outcome.Applied? { Cancel(job, now); }
      ok := Acknowledge(job, snapshot, InspectInstance, now);
    }

    // ---------------------------------------------------------------- the loop

    /** `execute_command`. */
    method ExecuteCommand(job: Job, now: int) returns (ok: bool)
      requires Valid() && HoldsClaim(tables.View(), job) && tables.commands[job.id].kind == job.kind
      modifies this`calls, this`lastAnswer, this`trouble, journal, tables`instances, tables`commands, tables`nextCommand
      ensures Valid() && Executed(old(tables.View()), tables.View(), job, ok)
      ensures CallsFit(tables.View(), job, old(calls), calls)
      ensures var before := old(tables.View());
              var snapshot := if job.instance in before.instances then Some(before.instances[job.instance]) else None;
              var turn :=
                if job.instance !in before.instances then Erring
                else if before.instances[job.instance].generation != job.generation then Cancelling([])
                else Dispatch(before, job, before.instances[job.instance], now);
              TakesTurn(turn, id, job, snapshot, before, tables.View(), now, ok, calls[|old(calls)|..])
    {
      hide Settled, OnlyTouches;
      NothingExecuted(tables.View(), job);
      if job.instance !in tables.instances { return false; }
      var snapshot := tables.instances[job.instance];
      if job.generation != snapshot.generation {
        Cancel(job, now);
        return true;
      }
      match job.kind {
        case Start => ok := ExecuteStart(job, snapshot, now);
        case Terminate => ok := ExecuteTerminate(job, snapshot, now);
        case Extend => ok := ExecuteExtend(job, snapshot, now);
        case Inspect => ok := ExecuteInspect(job, snapshot, now);
        case Reconcile => ok := ExecuteInspect(job, snapshot, now);
      }
    }

    /** One iteration of `process_available_commands`. */
    method ProcessNext(now: int) returns (served: bool)
      requires Valid()
      modifies this`calls, this`lastAnswer, this`trouble, journal, tables
      ensures Valid()
      ensures !served ==> tables.View() == old(tables.View()) && forall c | c in tables.commands ::
                !Available(tables.commands[c], now)
      ensures served ==> exists c :: Served(old(tables.View()), tables.View(), c, maxAttempts, now)
    {
      hide Settled, OnlyTouches, Retried, Executed, Served, RuntimeRows.ScheduleRetry;
      ghost var before := tables.View();
      var job := tables.ClaimCommand(now);
      if job.None? { return false; }
      ghost var claimed := tables.View();
      var ok := ExecuteCommand(job.value, now);
      ghost var executed := tables.View();
      if !ok {
        RetryRests(executed, job.value, maxAttempts, tables.nextCommand, now);
        tables.ScheduleRetry(job.value, maxAttempts, now);
      }
      IterationServes(before, claimed, executed, tables.View(), job.value, maxAttempts, now, ok);
      return true;
    }

    /** `process_available_commands`: although inspections and failed starts enqueue terminations on the
        way, the loop ends, and unless it was told to stop, it leaves no command that is due: each command that was
        due has been taken once and is at rest, and the others are as they were. */
    method ProcessAvailableCommands(now: int) returns (stopped: bool)
      requires Valid()
      modifies this`calls, this`lastAnswer, this`trouble, journal, tables
      ensures Valid()
      ensures !stopped ==> forall c | c in tables.commands ::
                !(tables.commands[c].status.Pending? && tables.commands[c].availableAt <= now)
      ensures forall c | c in old(tables.commands) ::
                c in tables.commands
                && var cmd, cmd' := old(tables.commands)[c], tables.commands[c];
                if cmd.status.Pending? && cmd.availableAt <= now
                then Rested(cmd, cmd', maxAttempts, now) || (stopped && cmd' == cmd)
                else cmd' == cmd
    {
      ghost var first := tables.View();
      while true
        invariant Valid() && ServedSince(first, tables.View(), maxAttempts, now)
        decreases Backlog(tables.View(), now)
      {
        stopped := *;
        if stopped { return; }
        ghost var before := tables.View();
        var served := ProcessNext(now);
        if !served { return false; }
        ghost var c :| Served(before, tables.View(), c, maxAttempts, now);
        ServingLowersBacklog(before, tables.View(), c, maxAttempts, now);
        ServedOnward(first, before, tables.View(), c, maxAttempts, now);
      }
    }

    /** The safety passes and then the loop. Every active instance that overstays and that nobody attends to gets a
        termination, and unless the loop was told to stop, that termination has been taken once: it is finished,
        or it waits for its next attempt. */
    method EnforceDeadlines(window: nat, now: int) returns (stopped: bool, ghost enqueued: set<CommandId>)
      requires Valid()
      modifies this`calls, this`lastAnswer, this`trouble, journal, tables
      ensures Valid() && enqueued <= tables.commands.Keys && enqueued !! old(tables.commands).Keys
      ensures forall i | i in old(tables.instances) && Unattended(old(tables.View()), i, window, now) ::
                exists c :: c in enqueued && tables.commands[c].instance == i
      ensures forall c | c in enqueued ::
                tables.commands[c].kind.Terminate?
                && Unattended(old(tables.View()), tables.commands[c].instance, window, now)
      ensures !stopped ==> forall c | c in enqueued ::
                && tables.commands[c].attempts == 1
                && (Finished(tables.commands[c].status)
                    || (tables.commands[c].status.Pending? && now < tables.commands[c].availableAt && 1 < maxAttempts))
    {
      ghost var first := tables.View();
      tables.EnqueueSafetyTerminations(window, now);
      ghost var before := tables.View();
      enqueued := before.commands.Keys - first.commands.Keys;
      assert forall c | c in enqueued :: Enforces(first, before.commands[c], window, now);
      hide Unattended, Overstays;
      forall i | i in first.instances && Unattended(first, i, window, now)
        ensures exists c :: c in enqueued && before.commands[c].instance == i
      {
        var c :| c in before.commands && c !in first.commands && before.commands[c].instance == i;
        assert c in enqueued;
      }
      stopped := ProcessAvailableCommands(now);
    }
  }
}
