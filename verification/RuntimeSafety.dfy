/** Inductiveness: each step keeps the invariant, so every reachable world has it. */
module RuntimeSafety {
  import opened Options
  import opened RuntimeRows
  import opened RuntimeDatabase
  import opened RemoteHelper
  import opened RuntimeProtocol
  import opened RuntimeInvariant
  import opened RuntimeSteps
  import Journal
  import Json

  // ------------------------------------------------------------------ moves of one frame

  lemma WorkingFrameOk(w: World, k: ControllerId)
    requires Inv(w) && Doing(w, k).Working?
    ensures FrameOk(w, k, Doing(w, k).frame)
  {
    assert ActivityOk(w, k);
  }

  /** A transaction of the frame's own job that leaves its instance's placement alone. */
  lemma OwnSnapshot(w: World, w': World, f: Frame, pc: Pc)
    requires f.snapshot.Some? && f.job.instance in w.db.instances && f.job.instance in w'.db.instances
    requires SnapshotFits(w.db, f.job, f.snapshot.value, f.pc) && JobFits(w, f.job)
    requires Grows(w, w', Some(f.job))
    requires w'.db.instances[f.job.instance].server == w.db.instances[f.job.instance].server
    requires BeforePlacement(pc) ==> BeforePlacement(f.pc)
    ensures SnapshotFits(w'.db, f.job, f.snapshot.value, pc)
  {
    ClaimsFade(w, w', Some(f.job), f.job);
    assert RowEvolves(w.db.instances[f.job.instance], w'.db.instances[f.job.instance]);
  }

  lemma FrameMoves(w: World, w': World, k: ControllerId, f: Frame, pc: Pc)
    requires Inv(w) && Doing(w, k) == Working(f) && w' == Goto(w.(db := w'.db), k, f, pc)
    requires DbInv(w'.db) && WithinPeak(w'.db) && Evolves(w.db, w'.db, Some(f.job))
    requires f.job.instance in w'.db.instances
    requires f.snapshot.Some? ==> SnapshotFits(w'.db, f.job, f.snapshot.value, pc)
    requires PcFits(w', k, f.(pc := pc))
    ensures Inv(w') && Onward(w, w')
  {
    hide DbInv, Evolves, WithinPeak, LogFits, RequestOk, Grows, TokensOk, SnapshotFits, PcFits;
    WorkingFrameOk(w, k);
    EvolvingGrows(w, w', Some(f.job));
    ClaimsFade(w, w', Some(f.job), f.job);
    ControllerMoves(w, w', k, Some(f.job));
  }

  /** The same, when no instance changes its placement. */
  lemma UnplacingMoves(w: World, w': World, k: ControllerId, f: Frame, pc: Pc)
    requires Inv(w) && Doing(w, k) == Working(f) && w' == Goto(w.(db := w'.db), k, f, pc)
    requires DbInv(w'.db) && Evolves(w.db, w'.db, Some(f.job)) && w'.db.servers == w.db.servers
    requires Unplacing(w.db, w'.db)
    requires BeforePlacement(pc) ==> BeforePlacement(f.pc)
    requires PcFits(w', k, f.(pc := pc))
    ensures Inv(w') && Onward(w, w')
  {
    hide DbInv, Evolves, WithinPeak, LogFits, RequestOk, Grows, TokensOk, SnapshotFits, PcFits;
    WorkingFrameOk(w, k);
    EvolvingGrows(w, w', Some(f.job));
    if f.snapshot.Some? { OwnSnapshot(w, w', f, pc); }
    UnplacingKeepsPeak(w.db, w'.db, Some(f.job));
    FrameMoves(w, w', k, f, pc);
  }

  lemma FrameEnds(w: World, w': World, k: ControllerId, f: Frame)
    requires Inv(w) && Doing(w, k) == Working(f) && w' == Do(w.(db := w'.db), k, Idle)
    requires DbInv(w'.db) && Evolves(w.db, w'.db, Some(f.job)) && w'.db.servers == w.db.servers
    requires Unplacing(w.db, w'.db)
    ensures Inv(w') && Onward(w, w')
  {
    hide DbInv, Evolves, WithinPeak, LogFits, RequestOk, Grows, TokensOk;
    UnplacingKeepsPeak(w.db, w'.db, Some(f.job));
    ControllerMoves(w, w', k, Some(f.job));
  }

  /** No instance appears or changes its placement. */
  predicate Unplacing(db: Db, db': Db) {
    db'.instances.Keys == db.instances.Keys && forall i | i in db.instances ::
        db'.instances[i].server == db.instances[i].server
  }

  lemma UnplacingKeepsPeak(db: Db, db': Db, actor: Option<Job>)
    requires WithinPeak(db) && Evolves(db, db', actor) && Unplacing(db, db') && db'.servers == db.servers
    ensures WithinPeak(db')
  {
    hide WithinPeak;
    forall i | i in db'.instances && db'.instances[i].active && db'.instances[i].server.Some?
      ensures i in db.instances && db.instances[i].active && db.instances[i].server == db'.instances[i].server
    {
      assert RowEvolves(db.instances[i], db'.instances[i]);
    }
    QuietTransactionKeepsPeak(db, db');
  }

  /** A frame that only moves its program counter. */
  lemma PcMoves(w: World, w': World, k: ControllerId, f: Frame, pc: Pc)
    requires Inv(w) && Doing(w, k) == Working(f) && w' == Goto(w, k, f, pc)
    requires BeforePlacement(pc) ==> BeforePlacement(f.pc)
    requires PcFits(w', k, f.(pc := pc))
    ensures Inv(w') && Onward(w, w')
  {
    hide DbInv, Evolves, WithinPeak, LogFits, RequestOk, Grows, TokensOk, SnapshotFits, PcFits;
    EvolvesReflexive(w.db, Some(f.job));
    UnplacingMoves(w, w', k, f, pc);
  }

  // ------------------------------------------------------------------ reading and deciding

  lemma LoadKeeps(w: World, w': World, k: ControllerId, f: Frame)
    requires Inv(w) && Doing(w, k) == Working(f) && FrameStep(w, w', Load(k), k, f)
    ensures Inv(w') && Onward(w, w')
  {
    hide DbInv, Evolves, WithinPeak, LogFits, RequestOk, Grows, TokensOk;
    WorkingFrameOk(w, k);
    EvolvesReflexive(w.db, Some(f.job));
    ControllerMoves(w, w', k, Some(f.job));
  }

  lemma DecideKeeps(w: World, w': World, k: ControllerId, f: Frame)
    requires Inv(w) && Doing(w, k) == Working(f) && FrameStep(w, w', Decide(k), k, f)
    ensures Inv(w') && Onward(w, w')
  {
    hide Inv, DbInv, Evolves, WithinPeak, LogFits, RequestOk, Grows, TokensOk, GateOpen;
    WorkingFrameOk(w, k);
    var pc := Dispatch(w.db, f.job, f.snapshot.value, w.now);
    assert PcFits(w', k, f.(pc := pc));
    PcMoves(w, w', k, f, pc);
  }

  // ------------------------------------------------------------------ marking

  lemma PlaceKeeps(w: World, w': World, k: ControllerId, f: Frame, s: ServerId)
    requires Inv(w) && Doing(w, k) == Working(f) && FrameStep(w, w', PlaceOn(k, s), k, f)
    ensures Inv(w') && Onward(w, w')
  {
    hide DbInv, Evolves, WithinPeak, LogFits, RequestOk, Grows, TokensOk;
    WorkingFrameOk(w, k);
    var (outcome, db') := MarkStarting(w.db, f.job, s, w.now);
    MarkStartingKeeps(w.db, f.job, s, w.now);
    PlacementKeepsPeak(w.db, f.job, s, w.now);
    var pc := if outcome.Applied? then Logging(EnsureInstance, s) else Cancelling([]);
    FrameMoves(w, w', k, f, pc);
  }

  lemma StopKeeps(w: World, w': World, k: ControllerId, f: Frame)
    requires Inv(w) && Doing(w, k) == Working(f) && FrameStep(w, w', Stop(k), k, f)
    ensures Inv(w') && Onward(w, w')
  {
    hide DbInv, Evolves, WithinPeak, LogFits, RequestOk, Grows, TokensOk;
    WorkingFrameOk(w, k);
    MarkStoppingKeeps(w.db, f.job, w.now);
    UnplacingMoves(w, w', k, f, Doing(w', k).frame.pc);
  }

  lemma RejectKeeps(w: World, w': World, k: ControllerId, f: Frame)
    requires Inv(w) && Doing(w, k) == Working(f) && FrameStep(w, w', RejectTx(k), k, f)
    ensures Inv(w') && Onward(w, w')
  {
    hide DbInv, Evolves, WithinPeak, LogFits, RequestOk, Grows, TokensOk;
    WorkingFrameOk(w, k);
    RejectStartKeeps(w.db, f.job, f.pc.observed, w.now);
    FrameEnds(w, w', k, f);
  }

  lemma CompleteKeeps(w: World, w': World, k: ControllerId, f: Frame)
    requires Inv(w) && Doing(w, k) == Working(f) && FrameStep(w, w', CompleteTx(k), k, f)
    ensures Inv(w') && Onward(w, w')
  {
    hide DbInv, Evolves, WithinPeak, LogFits, RequestOk, Grows, TokensOk;
    WorkingFrameOk(w, k);
    FinishKeeps(w.db, f.job, Completed, w.now);
    FrameEnds(w, w', k, f);
  }

  lemma FinishLocalKeeps(w: World, w': World, k: ControllerId, f: Frame)
    requires Inv(w) && Doing(w, k) == Working(f) && FrameStep(w, w', FinishLocal(k), k, f)
    ensures Inv(w') && Onward(w, w')
  {
    hide DbInv, Evolves, WithinPeak, LogFits, RequestOk, Grows, TokensOk;
    WorkingFrameOk(w, k);
    var (outcome, db') := FinishTermination(w.db, f.job, f.snapshot.value.expiresAt, w.now);
    FinishTerminationKeeps(w.db, f.job, f.snapshot.value.expiresAt, w.now);
    if outcome.Applied? { FrameEnds(w, w', k, f); } else { UnplacingMoves(w, w', k, f, Cancelling([])); }
  }

  lemma CancelKeeps(w: World, w': World, k: ControllerId, f: Frame)
    requires Inv(w) && Doing(w, k) == Working(f) && FrameStep(w, w', CancelTx(k), k, f)
    ensures Inv(w') && Onward(w, w')
  {
    hide DbInv, Evolves, WithinPeak, LogFits, RequestOk, Grows, TokensOk;
    WorkingFrameOk(w, k);
    FinishKeeps(w.db, f.job, Cancelled, w.now);
    UnplacingMoves(w, w', k, f, Acking(f.pc.acks));
  }

  lemma RetryKeeps(w: World, w': World, k: ControllerId, f: Frame, maxAttempts: nat, newId: CommandId)
    requires Inv(w) && Doing(w, k) == Working(f) && FrameStep(w, w', Retry(k, maxAttempts, newId), k, f)
    ensures Inv(w') && Onward(w, w')
  {
    hide DbInv, Evolves, WithinPeak, LogFits, RequestOk, Grows, TokensOk;
    WorkingFrameOk(w, k);
    CommandFact(w.db, f.job.id);
    ScheduleRetryKeeps(w.db, f.job, maxAttempts, newId, w.now);
    RetryLeavesServers(w.db, f.job, maxAttempts, newId, w.now);
    FrameEnds(w, w', k, f);
  }

  lemma RetryLeavesServers(db: Db, job: Job, maxAttempts: nat, newId: CommandId, now: int)
    ensures ScheduleRetry(db, job, maxAttempts, newId, now).servers == db.servers
  {
  }

  // ------------------------------------------------------------------ committing

  lemma CommitStartKeeps(w: World, w': World, k: ControllerId, f: Frame, newId: CommandId)
    requires Inv(w) && Doing(w, k) == Working(f) && FrameStep(w, w', Commit(k, newId), k, f) && f.pc.op.EnsureInstance?
    ensures Inv(w') && Onward(w, w')
  {
    hide DbInv, Evolves, WithinPeak, LogFits, RequestOk, Grows, TokensOk;
    WorkingFrameOk(w, k);
    var effective := f.pc.result.expiresAt.GetOr(f.snapshot.value.desiredExpiresAt);
    EvolvesReflexive(w.db, Some(f.job));
    FinishStartKeeps(w.db, f.job, f.pc.server, effective, w.now);
    UnplacingMoves(w, w', k, f, Conclude(w.db, f, newId, w.now).0);
  }

  lemma CommitStopKeeps(w: World, w': World, k: ControllerId, f: Frame, newId: CommandId)
    requires Inv(w) && Doing(w, k) == Working(f) && FrameStep(w, w', Commit(k, newId), k, f) && f.pc.op.StopInstance?
    ensures Inv(w') && Onward(w, w')
  {
    hide DbInv, Evolves, WithinPeak, LogFits, RequestOk, Grows, TokensOk, SnapshotFits;
    WorkingFrameOk(w, k);
    EvolvesReflexive(w.db, Some(f.job));
    FinishTerminationKeeps(w.db, f.job, f.snapshot.value.expiresAt, w.now);
    UnplacingMoves(w, w', k, f, Conclude(w.db, f, newId, w.now).0);
  }

  lemma CommitExtensionKeeps(w: World, w': World, k: ControllerId, f: Frame, newId: CommandId)
    requires Inv(w) && Doing(w, k) == Working(f) && FrameStep(w, w', Commit(k, newId), k, f) && f.pc.op.UpdateDeadline?
    ensures Inv(w') && Onward(w, w')
  {
    hide DbInv, Evolves, WithinPeak, LogFits, RequestOk, Grows, TokensOk, SnapshotFits;
    WorkingFrameOk(w, k);
    var effective := f.pc.result.expiresAt.GetOr(f.snapshot.value.desiredExpiresAt);
    EvolvesReflexive(w.db, Some(f.job));
    FinishExtensionKeeps(w.db, f.job, effective, w.now);
    UnplacingMoves(w, w', k, f, Conclude(w.db, f, newId, w.now).0);
  }

  lemma CommitInspectionKeeps(w: World, w': World, k: ControllerId, f: Frame, newId: CommandId)
    requires Inv(w) && Doing(w, k) == Working(f) && FrameStep(w, w', Commit(k, newId), k, f) && f.pc.op.InspectInstance?
    ensures Inv(w') && Onward(w, w')
  {
    hide DbInv, Evolves, WithinPeak, LogFits, RequestOk, Grows, TokensOk, SnapshotFits;
    WorkingFrameOk(w, k);
    FinishInspectionKeeps(w.db, f.job, f.snapshot.value, SightingOf(f.pc.result), newId, w.now);
    UnplacingMoves(w, w', k, f, Conclude(w.db, f, newId, w.now).0);
  }

  lemma CommitKeeps(w: World, w': World, k: ControllerId, f: Frame, newId: CommandId)
    requires Inv(w) && Doing(w, k) == Working(f) && FrameStep(w, w', Commit(k, newId), k, f)
    ensures Inv(w') && Onward(w, w')
  {
    hide Inv, FrameStep;
    assert f.pc.Answered? by { AnsweredAtCommit(w, w', k, f, newId); }
    match f.pc.op {
      case EnsureInstance => CommitStartKeeps(w, w', k, f, newId);
      case StopInstance => CommitStopKeeps(w, w', k, f, newId);
      case UpdateDeadline => CommitExtensionKeeps(w, w', k, f, newId);
      case InspectInstance => CommitInspectionKeeps(w, w', k, f, newId);
    }
  }

  lemma AnsweredAtCommit(w: World, w': World, k: ControllerId, f: Frame, newId: CommandId)
    requires FrameStep(w, w', Commit(k, newId), k, f)
    ensures f.pc.Answered?
  {
  }

  // ------------------------------------------------------------------ the journal

  /** Appending a live record of the frame's job, with its generation and its instance's host. */
  lemma EntryKeepsLog(w: World, w': World, k: ControllerId, f: Frame, r: Journal.Record, s: ServerId)
    requires Inv(w) && Doing(w, k) == Working(f)
    requires w'.db == w.db && LogOf(w', k) == LogOf(w, k) + [r]
    requires r.instance == f.job.instance && r.command == f.job.id && r.generation == f.job.generation
    requires r.server == Some(s) && PlacedOn(w.db, f.job.instance, s) && !r.phase.DatabaseAcknowledged?
    ensures LogFits(w', k)
    ensures Logged(LogOf(w', k), f.job, s)
    ensures r.phase.Intent? ==> LoggedIntent(LogOf(w', k), f.job, r.operation, s)
    ensures forall q | q in w.sent && q.origin.ByJob? && q.origin.controller == k && HoldsClaim(w.db, q.origin.job) ::
              Logged(LogOf(w', k), q.origin.job, q.server)
  {
    hide DbInv, WithinPeak, TokensOk, SnapshotFits, PcFits;
    WorkingFrameOk(w, k);
    Journal.ReplayAppend(LogOf(w, k), r);
    assert LogFits(w, k);
    forall q | q in w.sent && q.origin.ByJob? && q.origin.controller == k && HoldsClaim(w.db, q.origin.job)
      ensures Logged(LogOf(w', k), q.origin.job, q.server)
    {
      assert RequestOk(w, q);
    }
  }

  lemma EntryFact(job: Job, snapshot: Instance, op: Operation, s: Option<ServerId>, phase: Journal.Phase,
                  result: Option<Result>, payload: Option<Json.Json>, at: int)
    ensures var r := JournalEntry(job, snapshot, op, s, phase, result, payload, at);
            && r.instance == job.instance && r.command == job.id && r.generation == job.generation
            && r.server == s && r.operation == op && r.phase == phase
  {
  }

  lemma LogIntentShape(w: World, w': World, k: ControllerId, f: Frame, payload: Json.Json) returns (r: Journal.Record)
    requires FrameStep(w, w', LogIntent(k, payload), k, f)
    ensures f.pc.Logging? && f.snapshot.Some?
    ensures r.instance == f.job.instance && r.command == f.job.id && r.generation == f.job.generation
    ensures r.server == Some(f.pc.server) && r.operation == f.pc.op && r.phase.Intent?
    ensures w' == Goto(Append(w, k, r), k, f, Sending(f.pc.op, f.pc.server))
  {
    r := JournalEntry(f.job, f.snapshot.value, f.pc.op, Some(f.pc.server), Journal.Intent, None, Some(payload), w.now);
  }

  lemma LogIntentKeeps(w: World, w': World, k: ControllerId, f: Frame, payload: Json.Json)
    requires Inv(w) && Doing(w, k) == Working(f) && FrameStep(w, w', LogIntent(k, payload), k, f)
    ensures Inv(w') && Onward(w, w')
  {
    hide FrameStep, DbInv, Evolves, WithinPeak, LogFits, RequestOk, Grows, TokensOk, Logged, LoggedIntent, SnapshotFits;
    WorkingFrameOk(w, k);
    EvolvesReflexive(w.db, Some(f.job));
    var r := LogIntentShape(w, w', k, f, payload);
    EntryKeepsLog(w, w', k, f, r, f.pc.server);
    PcAloneFits(w, w', f, Sending(f.pc.op, f.pc.server));
    ControllerMoves(w, w', k, Some(f.job));
  }

  lemma PcAloneFits(w: World, w': World, f: Frame, pc: Pc)
    requires w'.db == w.db && f.job.instance in w.db.instances && f.snapshot.Some? && !BeforePlacement(pc)
    requires SnapshotFits(w.db, f.job, f.snapshot.value, f.pc)
    ensures SnapshotFits(w'.db, f.job, f.snapshot.value, pc)
  {
  }

  lemma ReceiveKeeps(w: World, w': World, k: ControllerId, f: Frame, result: Result, payload: Json.Json)
    requires Inv(w) && Doing(w, k) == Working(f) && FrameStep(w, w', Receive(k, result, payload), k, f)
    ensures Inv(w') && Onward(w, w')
  {
    hide DbInv, Evolves, WithinPeak, LogFits, RequestOk, Grows, TokensOk, Logged, SnapshotFits;
    WorkingFrameOk(w, k);
    EvolvesReflexive(w.db, Some(f.job));
    var op, s := f.pc.op, f.pc.server;
    assert ReplyOk(w, Reply(JobRequest(k, f.job, op, s, f.snapshot.value), result));
    if PassesBeforeLog(op, result, f.job.generation) {
      var r := JournalEntry(f.job, f.snapshot.value, op, Some(s), Journal.RemoteResult, Some(result), Some(payload),
          w.now);
      EntryFact(f.job, f.snapshot.value, op, Some(s), Journal.RemoteResult, Some(result), Some(payload), w.now);
      hide JournalEntry;
      EntryKeepsLog(w, w', k, f, r, s);
      PcAloneFits(w, w', f, Doing(w', k).frame.pc);
      ControllerMoves(w, w', k, Some(f.job));
    } else {
      PcMoves(w, w', k, f, Erring);
    }
  }

  lemma AckKeeps(w: World, w': World, k: ControllerId, f: Frame)
    requires Inv(w) && Doing(w, k) == Working(f) && FrameStep(w, w', AckNext(k), k, f)
    ensures Inv(w') && Onward(w, w')
  {
    hide DbInv, Evolves, WithinPeak, Grows, TokensOk, SnapshotFits, LogFits, RequestOk, Logged;
    WorkingFrameOk(w, k);
    EvolvesReflexive(w.db, Some(f.job));
    if f.pc.acks == [] {
      FrameEnds(w, w', k, f);
    } else {
      var r := JournalEntry(f.job, f.snapshot.value, f.pc.acks[0], None, Journal.DatabaseAcknowledged, None, None,
          w.now);
      EntryFact(f.job, f.snapshot.value, f.pc.acks[0], None, Journal.DatabaseAcknowledged, None, None, w.now);
      hide JournalEntry;
      AckKeepsLog(w, w', k, r);
      PcAloneFits(w, w', f, Acking(f.pc.acks[1..]));
      ControllerMoves(w, w', k, Some(f.job));
    }
  }

  /** Acknowledging a command that no claim covers any more costs no current claimant its record. */
  lemma AckKeepsLog(w: World, w': World, k: ControllerId, r: Journal.Record)
    requires Inv(w) && w'.db == w.db && LogOf(w', k) == LogOf(w, k) + [r] && r.phase.DatabaseAcknowledged?
    requires (Doing(w, k).Working? && Doing(w, k).frame.job.id == r.command && !HoldsClaim(w.db, Doing(w, k).frame.job))
             || NoClaimSent(w, k, r.command)
    ensures LogFits(w', k)
    ensures forall q | q in w.sent && q.origin.ByJob? && q.origin.controller == k && HoldsClaim(w.db, q.origin.job) ::
              Logged(LogOf(w', k), q.origin.job, q.server)
  {
    hide DbInv, WithinPeak, TokensOk, ActivityOk;
    Journal.ReplayAppend(LogOf(w, k), r);
    assert LogFits(w, k);
    forall q | q in w.sent && q.origin.ByJob? && q.origin.controller == k && HoldsClaim(w.db, q.origin.job)
      ensures Logged(LogOf(w', k), q.origin.job, q.server)
    {
      assert RequestOk(w, q);
    }
  }

  // ------------------------------------------------------------------ failing, crashing, sending

  lemma FailKeeps(w: World, w': World, k: ControllerId, f: Frame)
    requires Inv(w) && Doing(w, k) == Working(f) && FrameStep(w, w', Fail(k), k, f)
    ensures Inv(w') && Onward(w, w')
  {
    hide Inv;
    PcMoves(w, w', k, f, Erring);
  }

  lemma CrashKeeps(w: World, w': World, k: ControllerId)
    requires Inv(w) && Step(w, w', Crash(k))
    ensures Inv(w') && Onward(w, w')
  {
    hide DbInv, Evolves, WithinPeak, LogFits, RequestOk, Grows, TokensOk;
    EvolvesReflexive(w.db, None);
    ControllerMoves(w, w', k, None);
  }

  /** Putting one request on the wire. */
  lemma SendingKeeps(w: World, w': World, k: ControllerId, q: Request)
    requires Inv(w) && w' == Do(w.(sent := w.sent + {q}), k, Doing(w', k))
    requires q.origin.controller == k && RequestOk(w', q) && ActivityOk(w', k) && SameWork(Doing(w, k), Doing(w', k))
    ensures Inv(w') && Onward(w, w')
  {
    hide DbInv, Evolves, WithinPeak, FrameOk, LogFits, RequestOk, TokensOk, RecordOk, NoClaimSent, Grows;
    EvolvesReflexive(w.db, None);
    EvolvingGrows(w, w', None);
    TokensMove(w, w', None);
    forall j ensures ActivityOk(w', j) {
      assert ActivityOk(w, j);
      if j != k { ActivityStable(w, w', None, j); }
    }
    forall j ensures LogFits(w', j) {
      assert LogFits(w, j);
      LogStable(w, w', None, j);
    }
    forall r | r in w'.sent ensures RequestOk(w', r) {
      if r != q {
        assert RequestOk(w, r);
        RequestStable(w, w', None, r);
      }
    }
    forall p | p in w'.replies ensures ReplyOk(w', p) { assert ReplyOk(w, p); }
    forall s, i ensures HostOk(w', s, i) { assert HostOk(w, s, i); }
  }

  lemma SendKeeps(w: World, w': World, k: ControllerId, f: Frame)
    requires Inv(w) && Doing(w, k) == Working(f) && FrameStep(w, w', Send(k), k, f)
    ensures Inv(w') && Onward(w, w')
  {
    hide DbInv, WithinPeak, LogFits, TokensOk;
    WorkingFrameOk(w, k);
    PcAloneFits(w, w', f, Awaiting(f.pc.op, f.pc.server));
    SendingKeeps(w, w', k, JobRequest(k, f.job, f.pc.op, f.pc.server, f.snapshot.value));
  }

  lemma CleanupSendKeeps(w: World, w': World, k: ControllerId, key: Journal.Key)
    requires Inv(w) && Step(w, w', CleanupSend(k, key))
    ensures Inv(w') && Onward(w, w')
  {
    hide DbInv, WithinPeak, TokensOk;
    assert LogFits(w, k);
    SendingKeeps(w, w', k, CleanupRequest(k, Doing(w', k).record));
  }

  // ------------------------------------------------------------------ the controller between commands

  lemma ClaimKeepsInv(w: World, w': World, k: ControllerId, c: CommandId, token: Token)
    requires Inv(w) && Step(w, w', Claim(k, c, token))
    ensures Inv(w') && Onward(w, w')
    ensures Doing(w', k).Working? && Doing(w', k).frame.job.token == token
    ensures forall j | Doing(w, j).Working? :: Doing(w, j).frame.job.token != token
  {
    hide DbInv, WithinPeak, LogFits, RequestOk, FrameOk, RecordOk, NoClaimSent, Grows, TokensOk;
    ClaimKeeps(w.db, c, token, w.now);
    ClaimKeepsPeak(w.db, c, token, w.now);
    ClaimGrows(w, w', k, c, token);
    forall j | Doing(w, j).Working? ensures Doing(w, j).frame.job.token in w.issued { IssuedToken(w, j); }
    ClaimTokens(w, w', k, c, token);
    forall j ensures ActivityOk(w', j) {
      assert ActivityOk(w, j);
      if j == k { NewFrameOk(w, w', k, c, token); } else { ActivityStable(w, w', None, j); }
    }
    forall j ensures LogFits(w', j) {
      assert LogFits(w, j);
      LogStable(w, w', None, j);
    }
    forall q | q in w'.sent ensures RequestOk(w', q) {
      assert RequestOk(w, q);
      ClaimRequest(w, w', k, c, token, q);
    }
    forall p | p in w'.replies ensures ReplyOk(w', p) { assert ReplyOk(w, p); }
    forall s, i ensures HostOk(w', s, i) { assert HostOk(w, s, i); }
  }

  lemma ClaimKeepsPeak(db: Db, c: CommandId, token: Token, now: int)
    requires WithinPeak(db) && c in db.commands
    ensures WithinPeak(ClaimRow(db, c, token, now))
  {
    QuietTransactionKeepsPeak(db, ClaimRow(db, c, token, now));
  }

  lemma ClaimGrows(w: World, w': World, k: ControllerId, c: CommandId, token: Token)
    requires DbInv(w.db) && Step(w, w', Claim(k, c, token))
    ensures Grows(w, w', None)
  {
    hide DbInv;
    ClaimKeeps(w.db, c, token, w.now);
  }

  lemma ClaimTokens(w: World, w': World, k: ControllerId, c: CommandId, token: Token)
    requires TokensOk(w) && Step(w, w', Claim(k, c, token))
    requires forall j :: Doing(w, j).Working? ==> Doing(w, j).frame.job.token in w.issued
    ensures TokensOk(w')
  {
    assert Doing(w', k).frame.job.token == token;
    forall i, j | i != j && Doing(w', i).Working? && Doing(w', j).Working?
      ensures Doing(w', i).frame.job.token != Doing(w', j).frame.job.token
    {
      assert i != k ==> Doing(w', i) == Doing(w, i);
      assert j != k ==> Doing(w', j) == Doing(w, j);
    }
    forall d | d in w'.db.commands && w'.db.commands[d].status.Claimed?
      ensures w'.db.commands[d].status.token in w'.issued
    {
      assert d != c ==> w'.db.commands[d] == w.db.commands[d];
    }
  }

  lemma IssuedToken(w: World, k: ControllerId)
    requires Inv(w) && Doing(w, k).Working?
    ensures Doing(w, k).frame.job.token in w.issued
  {
    assert ActivityOk(w, k);
  }

  lemma NewFrameOk(w: World, w': World, k: ControllerId, c: CommandId, token: Token)
    requires DbInv(w.db) && Step(w, w', Claim(k, c, token))
    ensures FrameOk(w', k, Doing(w', k).frame)
  {
    CommandFact(w.db, c);
  }

  /** A command that was pending until now has no request under a current claim. */
  lemma ClaimRequest(w: World, w': World, k: ControllerId, c: CommandId, token: Token, q: Request)
    requires Step(w, w', Claim(k, c, token)) && Grows(w, w', None) && RequestOk(w, q)
    ensures RequestOk(w', q)
  {
    hide Grows, Logged;
    if q.origin.ByJob? { ClaimsFade(w, w', None, q.origin.job); }
  }

  lemma ReadForAckKeeps(w: World, w': World, k: ControllerId, key: Journal.Key)
    requires Inv(w) && Step(w, w', ReadForAck(k, key))
    ensures Inv(w') && Onward(w, w')
  {
    hide DbInv, Evolves, WithinPeak, Grows, TokensOk;
    assert LogFits(w, k);
    var r := Journal.Replay(LogOf(w, k))[key];
    assert NoClaimSent(w, k, r.command);
    EvolvesReflexive(w.db, None);
    ControllerMoves(w, w', k, None);
  }

  lemma AckFinishedKeeps(w: World, w': World, k: ControllerId)
    requires Inv(w) && Step(w, w', AckFinished(k))
    ensures Inv(w') && Onward(w, w')
  {
    hide DbInv, Evolves, WithinPeak, Grows, TokensOk, LogFits, RequestOk, Logged, RecordOk, NoClaimSent;
    assert ActivityOk(w, k);
    var r := Doing(w, k).record.(phase := Journal.DatabaseAcknowledged, result := None, payload := None,
                                 updatedAt := w.now);
    AckKeepsLog(w, w', k, r);
    EvolvesReflexive(w.db, None);
    ControllerMoves(w, w', k, None);
  }

  lemma CleanupDoneKeeps(w: World, w': World, k: ControllerId, result: Result, payload: Json.Json)
    requires Inv(w) && Step(w, w', CleanupDone(k, result, payload))
    ensures Inv(w') && Onward(w, w')
  {
    hide DbInv, Evolves, WithinPeak, Grows, TokensOk, LogFits, RequestOk, Logged;
    assert ActivityOk(w, k);
    EvolvesReflexive(w.db, None);
    var r := Doing(w, k).record;
    if result.absent || result.stale {
      var r' := Journal.Redact(r.(phase := Journal.DegradedCleanup, result := Some(result), payload := Some(payload),
                                  updatedAt := w.now));
      LiveRecordKeepsLog(w, w', k, r');
    }
    ControllerMoves(w, w', k, None);
  }

  lemma LiveRecordKeepsLog(w: World, w': World, k: ControllerId, r: Journal.Record)
    requires Inv(w) && w'.db == w.db && LogOf(w', k) == LogOf(w, k) + [r]
    requires RecordOk(w.db, r) && r.server.Some? && !r.phase.DatabaseAcknowledged?
    ensures LogFits(w', k)
    ensures forall q | q in w.sent && q.origin.ByJob? && q.origin.controller == k && HoldsClaim(w.db, q.origin.job) ::
              Logged(LogOf(w', k), q.origin.job, q.server)
  {
    hide DbInv, WithinPeak, TokensOk, ActivityOk;
    Journal.ReplayAppend(LogOf(w, k), r);
    assert LogFits(w, k);
    forall q | q in w.sent && q.origin.ByJob? && q.origin.controller == k && HoldsClaim(w.db, q.origin.job)
      ensures Logged(LogOf(w', k), q.origin.job, q.server)
    {
      assert RequestOk(w, q);
    }
  }

  lemma CompactKeeps(w: World, w': World, k: ControllerId, compacted: Journal.Log)
    requires Inv(w) && Step(w, w', Compact(k, compacted))
    ensures Inv(w') && Onward(w, w')
  {
    hide DbInv, Evolves, WithinPeak, Grows, TokensOk, RecordOk, SnapshotFits, Journal.Compaction;
    Journal.CompactionPreservesReplay(LogOf(w, k), compacted);
    assert LogFits(w, k) && ActivityOk(w, k);
    EvolvesReflexive(w.db, None);
    forall q | q in w.sent && q.origin.ByJob? && q.origin.controller == k && HoldsClaim(w.db, q.origin.job)
      ensures Logged(LogOf(w', k), q.origin.job, q.server)
    {
      assert RequestOk(w, q);
    }
    ControllerMoves(w, w', k, None);
  }

  // ------------------------------------------------------------------ background and API transactions

  /** A transaction that neither adds nor places an instance. */
  lemma QuietBackground(w: World, w': World)
    requires Inv(w) && w' == w.(db := w'.db)
    requires DbInv(w'.db) && Evolves(w.db, w'.db, None) && w'.db.servers == w.db.servers && Unplacing(w.db, w'.db)
    ensures Inv(w') && Onward(w, w')
  {
    hide DbInv, Evolves, WithinPeak, TokensOk;
    UnplacingKeepsPeak(w.db, w'.db, None);
    BackgroundMoves(w, w');
  }

  lemma RecoverClaimsKeeps(w: World, w': World, claimedBefore: Option<int>)
    requires Inv(w) && Step(w, w', Recover(claimedBefore))
    ensures Inv(w') && Onward(w, w')
  {
    hide DbInv, Evolves, WithinPeak, TokensOk, LogFits, RequestOk, Grows;
    RecoverKeeps(w.db, claimedBefore, w.now);
    QuietBackground(w, w');
  }

  lemma EnqueueTerminationKeeps(w: World, w': World, i: InstanceId, reason: Reason, newId: CommandId)
    requires Inv(w) && Step(w, w', EnqueueTermination(i, reason, newId))
    ensures Inv(w') && Onward(w, w')
  {
    hide DbInv, Evolves, WithinPeak, TokensOk, LogFits, RequestOk, Grows;
    CreateTerminationKeeps(w.db, i, reason, newId, w.now, None);
    QuietBackground(w, w');
  }

  lemma EnqueueInspectionKeeps(w: World, w': World, i: InstanceId, minimumAge: Option<nat>, newId: CommandId)
    requires Inv(w) && Step(w, w', EnqueueInspection(i, minimumAge, newId))
    ensures Inv(w') && Onward(w, w')
  {
    hide DbInv, Evolves, WithinPeak, TokensOk, LogFits, RequestOk, Grows;
    InsertInspectionKeeps(w.db, i, Inspect, newId, w.now);
    QuietBackground(w, w');
  }

  lemma ApiTerminateKeeps(w: World, w': World, i: InstanceId, newId: CommandId)
    requires Inv(w) && Step(w, w', ApiTerminate(i, newId))
    ensures Inv(w') && Onward(w, w')
    ensures w'.db == w.db
              || (Supersedes(w.db, w'.db, i, newId, Terminate, OtherReason, w.now)
                  && OpenTerminate(w'.db, newId, i) && !HasOpenTerminate(w.db, i))
  {
    hide DbInv, Evolves, Supersedes, WithinPeak, TokensOk, LogFits, RequestOk, Grows;
    RequestTerminationKeeps(w.db, i, newId, w.now);
    QuietBackground(w, w');
  }

  lemma ApiExtendKeeps(w: World, w': World, i: InstanceId, until: int, newId: CommandId)
    requires Inv(w) && Step(w, w', ApiExtend(i, until, newId))
    ensures Inv(w') && Onward(w, w')
    ensures w'.db == w.db || Supersedes(w.db, w'.db, i, newId, Extend, OtherReason, w.now)
  {
    hide DbInv, Evolves, Supersedes, WithinPeak, TokensOk, LogFits, RequestOk, Grows;
    RequestExtensionKeeps(w.db, i, until, newId, w.now);
    QuietBackground(w, w');
  }

  lemma ApiReconcileKeeps(w: World, w': World, i: InstanceId, newId: CommandId)
    requires Inv(w) && Step(w, w', ApiReconcile(i, newId))
    ensures Inv(w') && Onward(w, w')
  {
    hide DbInv, Evolves, WithinPeak, TokensOk, LogFits, RequestOk, Grows;
    EvolvesReflexive(w.db, None);
    if w'.db != w.db { InsertInspectionKeeps(w.db, i, Reconcile, newId, w.now); }
    QuietBackground(w, w');
  }

  lemma ApiPolicyKeeps(w: World, w': World, policy: Policy)
    requires Inv(w) && Step(w, w', ApiPolicy(policy))
    ensures Inv(w') && Onward(w, w')
  {
    hide DbInv, Evolves, WithinPeak, TokensOk, LogFits, RequestOk, Grows;
    PolicyKeeps(w.db, policy);
    QuietBackground(w, w');
  }

  lemma ApiCreateKeeps(w: World, w': World, i: InstanceId, newId: CommandId, challenge: ChallengeId,
                       pool: Option<string>,
                       expiry: int, maximum: int)
    requires Inv(w) && Step(w, w', ApiCreate(i, newId, challenge, pool, expiry, maximum))
    ensures Inv(w') && Onward(w, w') && OnlyStart(w'.db, i, newId)
  {
    hide DbInv, Evolves, OnlyStart, WithinPeak, TokensOk, LogFits, RequestOk, Grows;
    CreateInstanceKeeps(w.db, i, newId, challenge, pool, expiry, maximum, w.now);
    QuietTransactionKeepsPeak(w.db, w'.db);
    BackgroundMoves(w, w');
  }

  lemma ApiServerKeeps(w: World, w': World, s: ServerId, capacity: nat, enabled: bool, pool: Option<string>)
    requires Inv(w) && Step(w, w', ApiServer(s, capacity, enabled, pool))
    ensures Inv(w') && Onward(w, w')
  {
    hide DbInv, Evolves, WithinPeak, TokensOk, LogFits, RequestOk, Grows;
    ServerKeeps(w.db, s, capacity, enabled, pool);
    if s !in w.db.servers {
      forall i | i in ActiveOn(w.db, s) ensures false { InstanceFact(w.db, i); }
    }
    ServerKeepsPeak(w.db, s, capacity, enabled, pool);
    BackgroundMoves(w, w');
  }

  // ------------------------------------------------------------------ hosts and time

  /** One host changes one instance's files: fences stay, and a new container has been asked for. */
  lemma HostMoves(w: World, w': World, s: ServerId, i: InstanceId)
    requires Inv(w) && w' == w.(hosts := w.hosts[(s, i) := HostOf(w', s, i)], replies := w'.replies)
    requires Fenced(HostOf(w, s, i)) ==> Fenced(HostOf(w', s, i))
    requires HostOf(w', s, i).container && !HostOf(w, s, i).container ==> PlacedOn(w.db, i, s)
    requires w.replies <= w'.replies && forall p | p in w'.replies && p !in w.replies :: ReplyOk(w', p)
    ensures Inv(w') && Onward(w, w')
  {
    hide DbInv, Evolves, WithinPeak, FrameOk, LogFits, RequestOk, TokensOk, RecordOk, NoClaimSent, Grows, Fenced;
    EvolvesReflexive(w.db, None);
    HostGrows(w, w', s, i);
    TokensMove(w, w', None);
    forall j ensures ActivityOk(w', j) {
      assert ActivityOk(w, j);
      ActivityStable(w, w', None, j);
    }
    forall j ensures LogFits(w', j) {
      assert LogFits(w, j);
      LogStable(w, w', None, j);
    }
    forall q | q in w'.sent ensures RequestOk(w', q) {
      assert RequestOk(w, q);
      RequestStable(w, w', None, q);
    }
    forall p | p in w'.replies ensures ReplyOk(w', p) {
      if p in w.replies {
        assert ReplyOk(w, p);
        FencesStay(w, w', None, p.request.server, p.request.instance);
      }
    }
    forall t, j ensures HostOk(w', t, j) { assert HostOk(w, t, j); }
  }

  lemma HostGrows(w: World, w': World, s: ServerId, i: InstanceId)
    requires DbInv(w.db) && w' == w.(hosts := w.hosts[(s, i) := HostOf(w', s, i)], replies := w'.replies)
    requires Fenced(HostOf(w, s, i)) ==> Fenced(HostOf(w', s, i))
    ensures Grows(w, w', None)
  {
    hide DbInv;
  }

  lemma DeliverKeeps(w: World, w': World, q: Request, hostNow: int, h: Helper, out: Option<Result>)
    requires Inv(w) && Step(w, w', Deliver(q, hostNow, h, out))
    ensures Inv(w') && Onward(w, w')
  {
    hide DbInv, Evolves, WithinPeak, TokensOk, LogFits, Grows, HelperStep;
    HelperNeverForgets(q.op, HostOf(w, q.server, q.instance), q.generation, q.deadline <= hostNow, h, out);
    assert RequestOk(w, q);
    HostMoves(w, w', q.server, q.instance);
  }

  lemma HostAloneKeeps(w: World, w': World, s: ServerId, i: InstanceId, h: Helper)
    requires Inv(w) && Step(w, w', HostAlone(s, i, h))
    ensures Inv(w') && Onward(w, w')
  {
    hide DbInv, Evolves, WithinPeak, TokensOk, LogFits, Grows, HostStep;
    HostNeverLaunches(HostOf(w, s, i), h);
    HostMoves(w, w', s, i);
  }

  lemma TickKeeps(w: World, w': World, now: int)
    requires Inv(w) && Step(w, w', Tick(now))
    ensures Inv(w') && Onward(w, w')
  {
    hide DbInv, WithinPeak, TokensOk, FrameOk, LogFits, RequestOk, RecordOk, NoClaimSent, Grows;
    HostGrowsByTime(w, w');
    EvolvesReflexive(w.db, None);
    TokensMove(w, w', None);
    forall j ensures ActivityOk(w', j) {
      assert ActivityOk(w, j);
      ActivityStable(w, w', None, j);
    }
    forall j ensures LogFits(w', j) {
      assert LogFits(w, j);
      LogStable(w, w', None, j);
    }
    forall q | q in w'.sent ensures RequestOk(w', q) {
      assert RequestOk(w, q);
      RequestStable(w, w', None, q);
    }
    forall p | p in w'.replies ensures ReplyOk(w', p) { assert ReplyOk(w, p); }
    forall s, i ensures HostOk(w', s, i) { assert HostOk(w, s, i); }
  }

  lemma HostGrowsByTime(w: World, w': World)
    requires DbInv(w.db) && w' == w.(now := w'.now)
    ensures Grows(w, w', None)
  {
    hide DbInv;
  }

  // ------------------------------------------------------------------ every step, every run

  /** The labels of a controller at work on its command. */
  predicate OnCommand(l: Label) {
    l.Load? || l.Decide? || l.PlaceOn? || l.Stop? || l.RejectTx? || l.CompleteTx? || l.FinishLocal? || l.LogIntent?
    || l.Send? || l.Receive? || l.Commit? || l.CancelTx? || l.AckNext? || l.Fail? || l.Retry?
  }

  lemma FrameStepKeeps(w: World, w': World, l: Label, k: ControllerId, f: Frame)
    requires Inv(w) && Doing(w, k) == Working(f) && OnCommand(l) && l.k == k && FrameStep(w, w', l, k, f)
    ensures Inv(w') && Onward(w, w')
  {
    assert OnDatabase(l) || l.Load? || l.Decide? || l.LogIntent? || l.Send? || l.Receive? || l.AckNext? || l.Fail?;
    hide *;
    match l {
      case Load(_) => LoadKeeps(w, w', k, f);
      case Decide(_) => DecideKeeps(w, w', k, f);
      case LogIntent(_, payload) => LogIntentKeeps(w, w', k, f, payload);
      case Send(_) => SendKeeps(w, w', k, f);
      case Receive(_, result, payload) => ReceiveKeeps(w, w', k, f, result, payload);
      case AckNext(_) => AckKeeps(w, w', k, f);
      case Fail(_) => FailKeeps(w, w', k, f);
      case _ => FrameTransactionKeeps(w, w', l, k, f);
    }
  }

  /** The labels of a database transaction. */
  predicate OnDatabase(l: Label) {
    l.PlaceOn? || l.Stop? || l.RejectTx? || l.CompleteTx? || l.FinishLocal? || l.Commit? || l.CancelTx? || l.Retry?
  }

  lemma FrameTransactionKeeps(w: World, w': World, l: Label, k: ControllerId, f: Frame)
    requires Inv(w) && Doing(w, k) == Working(f) && OnDatabase(l) && l.k == k && FrameStep(w, w', l, k, f)
    ensures Inv(w') && Onward(w, w')
  {
    assert OnDatabase(l);
    hide Inv, FrameStep, Onward, Doing;
    match l {
      case PlaceOn(_, s) => PlaceKeeps(w, w', k, f, s);
      case Stop(_) => StopKeeps(w, w', k, f);
      case RejectTx(_) => RejectKeeps(w, w', k, f);
      case CompleteTx(_) => CompleteKeeps(w, w', k, f);
      case FinishLocal(_) => FinishLocalKeeps(w, w', k, f);
      case Commit(_, newId) => CommitKeeps(w, w', k, f, newId);
      case CancelTx(_) => CancelKeeps(w, w', k, f);
      case Retry(_, maxAttempts, newId) => RetryKeeps(w, w', k, f, maxAttempts, newId);
    }
  }

  lemma ActingController(w: World, w': World, l: Label) returns (k: ControllerId)
    requires Step(w, w', l) && OnCommand(l)
    ensures l.k == k && Acts(l, k) && Doing(w, k).Working? && FrameStep(w, w', l, k, Doing(w, k).frame)
  {
    hide FrameStep;
    k :| Acts(l, k) && Doing(w, k).Working? && FrameStep(w, w', l, k, Doing(w, k).frame);
  }

  lemma StepKeeps(w: World, w': World, l: Label)
    requires Inv(w) && Step(w, w', l)
    ensures Inv(w') && Onward(w, w')
  {
    hide Inv, FrameStep, Step, Onward;
    match l {
      case Claim(k, c, token) => ClaimKeepsInv(w, w', k, c, token);
      case Crash(k) => CrashKeeps(w, w', k);
      case ReadForAck(k, key) => ReadForAckKeeps(w, w', k, key);
      case AckFinished(k) => AckFinishedKeeps(w, w', k);
      case CleanupSend(k, key) => CleanupSendKeeps(w, w', k, key);
      case CleanupDone(k, result, payload) => CleanupDoneKeeps(w, w', k, result, payload);
      case Compact(k, compacted) => CompactKeeps(w, w', k, compacted);
      case Recover(claimedBefore) => RecoverClaimsKeeps(w, w', claimedBefore);
      case EnqueueTermination(i, reason, newId) => EnqueueTerminationKeeps(w, w', i, reason, newId);
      case EnqueueInspection(i, minimumAge, newId) => EnqueueInspectionKeeps(w, w', i, minimumAge, newId);
      case ApiCreate(i, newId, challenge, pool, expiry, maximum) =>
        ApiCreateKeeps(w, w', i, newId, challenge, pool, expiry, maximum);
      case ApiTerminate(i, newId) => ApiTerminateKeeps(w, w', i, newId);
      case ApiExtend(i, until, newId) => ApiExtendKeeps(w, w', i, until, newId);
      case ApiReconcile(i, newId) => ApiReconcileKeeps(w, w', i, newId);
      case ApiPolicy(policy) => ApiPolicyKeeps(w, w', policy);
      case ApiServer(s, capacity, enabled, pool) => ApiServerKeeps(w, w', s, capacity, enabled, pool);
      case Deliver(q, hostNow, h, out) => DeliverKeeps(w, w', q, hostNow, h, out);
      case HostAlone(s, i, h) => HostAloneKeeps(w, w', s, i, h);
      case Tick(now) => TickKeeps(w, w', now);
      case _ =>
        var k := ActingController(w, w', l);
        FrameStepKeeps(w, w', l, k, Doing(w, k).frame);
    }
  }

  lemma InitKeeps(w: World)
    requires Init(w)
    ensures Inv(w)
  {
  }

  /** The invariant holds in every world of every run. */
  lemma {:induction false} RunKeeps(run: seq<World>, labels: seq<Label>, n: nat)
    requires IsRun(run, labels) && n < |run|
    ensures Inv(run[n])
  {
    hide Inv, Step, Onward;
    if n == 0 { InitKeeps(run[0]); }
    else {
      RunKeeps(run, labels, n - 1);
      StepKeeps(run[n - 1], run[n], labels[n - 1]);
    }
  }
}
