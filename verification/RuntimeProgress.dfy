/** What is always possible: no controller is ever stuck in the middle of a command, and nothing is ever safe from
    crashes, recovered claims and late deliveries. */
module RuntimeProgress {
  import opened Options
  import opened RuntimeRows
  import opened RemoteHelper
  import opened RuntimeProtocol
  import opened RuntimeInvariant
  import Journal
  import Json

  /** The controller can take a step on its command, other than to give up on it. */
  ghost predicate CanMove(w: World, k: ControllerId) {
    exists l, w' :: Acts(l, k) && !l.Fail? && Step(w, w', l)
  }

  lemma Moves(w: World, w': World, l: Label, k: ControllerId)
    requires Doing(w, k).Working? && Acts(l, k) && !l.Fail? && FrameStep(w, w', l, k, Doing(w, k).frame)
    ensures CanMove(w, k)
  {
    hide FrameStep;
    assert Step(w, w', l);
  }

  /** An answer has not come, or a new start finds no host with room. */
  ghost predicate Waits(w: World, k: ControllerId, f: Frame) {
    && f.snapshot.Some?
    && match f.pc
       case Awaiting(op, s) =>
         forall result :: Reply(JobRequest(k, f.job, op, s, f.snapshot.value), result) !in w.replies
       case Admitted =>
         f.job.kind.Start? && f.snapshot.value.server.None? && HoldsClaim(w.db, f.job)
         && forall s :: !Selectable(w.db, f.snapshot.value.pool, s)
       case _ => false
  }

  /** The steps of an active controller end only where it waits for the outside. */
  lemma NeverStuck(w: World, k: ControllerId)
    requires Inv(w) && Doing(w, k).Working?
    ensures CanMove(w, k) <==> !Waits(w, k, Doing(w, k).frame)
  {
    var f := Doing(w, k).frame;
    assert ActivityOk(w, k);
    hide Inv;
    if Waits(w, k, f) {
      WaitingHolds(w, k);
    } else {
      match f.pc {
        case Admitted => AdmittedMoves(w, k);
        case Awaiting(_, _) => AnsweredMoves(w, k);
        case _ => BusyMoves(w, k);
      }
    }
  }

  lemma WaitingHolds(w: World, k: ControllerId)
    requires Doing(w, k).Working? && Waits(w, k, Doing(w, k).frame)
    requires Doing(w, k).frame.snapshot.Some? && Doing(w, k).frame.pc.Admitted? ==> Doing(w, k).frame.job.kind.Start?
    ensures !CanMove(w, k)
  {
    hide HelperStep, HostStep, MarkStarting, MarkStopping, RecoverClaims;
  }

  lemma AdmittedMoves(w: World, k: ControllerId)
    requires Doing(w, k).Working? && FrameOk(w, k, Doing(w, k).frame)
    requires Doing(w, k).frame.pc.Admitted? && !Waits(w, k, Doing(w, k).frame)
    ensures CanMove(w, k)
  {
    var f := Doing(w, k).frame;
    var db, job, snap := w.db, f.job, f.snapshot.value;
    if job.kind.Terminate? {
      var (outcome, db') := MarkStopping(db, job, w.now);
      var pc := if !outcome.Applied? then Cancelling([])
                else if snap.server.Some? then Logging(StopInstance, snap.server.value) else FinishingLocally;
      Moves(w, Goto(w.(db := db'), k, f, pc), Stop(k), k);
    } else {
      var s := if snap.server.Some? then snap.server.value
               else if HoldsClaim(db, job) then (var s: ServerId :| Selectable(db, snap.pool, s); s) else 0;
      var (outcome, db') := MarkStarting(db, job, s, w.now);
      var pc := if outcome.Applied? then Logging(EnsureInstance, s) else Cancelling([]);
      Moves(w, Goto(w.(db := db'), k, f, pc), PlaceOn(k, s), k);
    }
  }

  lemma AnsweredMoves(w: World, k: ControllerId)
    requires Doing(w, k).Working? && FrameOk(w, k, Doing(w, k).frame)
    requires Doing(w, k).frame.pc.Awaiting? && !Waits(w, k, Doing(w, k).frame)
    ensures CanMove(w, k)
  {
    var f := Doing(w, k).frame;
    var op, s, snap := f.pc.op, f.pc.server, f.snapshot.value;
    var result :| Reply(JobRequest(k, f.job, op, s, snap), result) in w.replies;
    var payload := Json.Null;
    var entry := JournalEntry(f.job, snap, op, Some(s), Journal.RemoteResult, Some(result), Some(payload), w.now);
    var w' :=
      if !PassesBeforeLog(op, result, f.job.generation) then Goto(w, k, f, Erring)
      else Goto(Append(w, k, entry), k, f,
                if PassesAfterLog(op, result, f.job.generation) then Answered(op, s, result) else Erring);
    Moves(w, w', Receive(k, result, payload), k);
  }

  /** Everything else a controller does by itself, and the database answers at once. */
  lemma BusyMoves(w: World, k: ControllerId)
    requires Doing(w, k).Working? && FrameOk(w, k, Doing(w, k).frame)
    requires !Doing(w, k).frame.pc.Admitted? && !Doing(w, k).frame.pc.Awaiting?
    ensures CanMove(w, k)
  {
    hide CanMove;
    match Doing(w, k).frame.pc {
      case Fetched => ReadingMoves(w, k);
      case Loaded => ReadingMoves(w, k);
      case Rejecting(_) => SettlingMoves(w, k);
      case Completing => SettlingMoves(w, k);
      case FinishingLocally => SettlingMoves(w, k);
      case Cancelling(_) => SettlingMoves(w, k);
      case Logging(_, _) => CallingMoves(w, k);
      case Sending(_, _) => CallingMoves(w, k);
      case Answered(_, _, _) => CommittingMoves(w, k);
      case Erring => CommittingMoves(w, k);
      case Acking(_) => AckingMoves(w, k);
      case _ =>
    }
  }

  lemma ReadingMoves(w: World, k: ControllerId)
    requires Doing(w, k).Working? && FrameOk(w, k, Doing(w, k).frame)
    requires Doing(w, k).frame.pc.Fetched? || Doing(w, k).frame.pc.Loaded?
    ensures CanMove(w, k)
  {
    var f := Doing(w, k).frame;
    hide Dispatch;
    if f.pc.Fetched? {
      var snap := w.db.instances[f.job.instance];
      var pc := if snap.generation == f.job.generation then Loaded else Cancelling([]);
      Moves(w, Do(w, k, Working(Frame(f.job, Some(snap), pc))), Load(k), k);
    } else {
      Moves(w, Goto(w, k, f, Dispatch(w.db, f.job, f.snapshot.value, w.now)), Decide(k), k);
    }
  }

  lemma SettlingMoves(w: World, k: ControllerId)
    requires Doing(w, k).Working? && FrameOk(w, k, Doing(w, k).frame)
    requires var pc := Doing(w, k).frame.pc;
             pc.Rejecting? || pc.Completing? || pc.FinishingLocally? || pc.Cancelling?
    ensures CanMove(w, k)
  {
    var f := Doing(w, k).frame;
    var db, job, now := w.db, f.job, w.now;
    hide RejectStart, FinishIfHeld, FinishTermination, HoldsClaim;
    if f.pc.Rejecting? {
      Moves(w, Do(w.(db := RejectStart(db, job, f.pc.observed, now)), k, Idle), RejectTx(k), k);
    } else if f.pc.Completing? {
      Moves(w, Do(w.(db := FinishIfHeld(db, job, Completed, now)), k, Idle), CompleteTx(k), k);
    } else if f.pc.Cancelling? {
      Moves(w, Goto(w.(db := FinishIfHeld(db, job, Cancelled, now)), k, f, Acking(f.pc.acks)), CancelTx(k), k);
    } else {
      var (outcome, db') := FinishTermination(db, job, f.snapshot.value.expiresAt, now);
      Moves(w, if outcome.Applied? then Do(w.(db := db'), k, Idle) else Goto(w.(db := db'), k, f, Cancelling([])),
            FinishLocal(k), k);
    }
  }

  lemma CallingMoves(w: World, k: ControllerId)
    requires Doing(w, k).Working? && FrameOk(w, k, Doing(w, k).frame)
    requires Doing(w, k).frame.pc.Logging? || Doing(w, k).frame.pc.Sending?
    ensures CanMove(w, k)
  {
    var f := Doing(w, k).frame;
    var op, s, snap := f.pc.op, f.pc.server, f.snapshot.value;
    hide JournalEntry;
    if f.pc.Logging? {
      var entry := JournalEntry(f.job, snap, op, Some(s), Journal.Intent, None, Some(Json.Null), w.now);
      Moves(w, Goto(Append(w, k, entry), k, f, Sending(op, s)), LogIntent(k, Json.Null), k);
    } else {
      Moves(w, Goto(w.(sent := w.sent + {JobRequest(k, f.job, op, s, snap)}), k, f, Awaiting(op, s)), Send(k), k);
    }
  }

  lemma CommittingMoves(w: World, k: ControllerId)
    requires Doing(w, k).Working? && FrameOk(w, k, Doing(w, k).frame)
    requires Doing(w, k).frame.pc.Answered? || Doing(w, k).frame.pc.Erring?
    ensures CanMove(w, k)
  {
    var f := Doing(w, k).frame;
    var newId := OneBeyond(w.db.commands.Keys);
    assert newId !in w.db.commands;
    hide Conclude, ScheduleRetry;
    if f.pc.Answered? {
      var (pc, db') := Conclude(w.db, f, newId, w.now);
      Moves(w, Goto(w.(db := db'), k, f, pc), Commit(k, newId), k);
    } else {
      Moves(w, Do(w.(db := ScheduleRetry(w.db, f.job, 0, newId, w.now)), k, Idle), Retry(k, 0, newId), k);
    }
  }

  lemma AckingMoves(w: World, k: ControllerId)
    requires Doing(w, k).Working? && FrameOk(w, k, Doing(w, k).frame)
    requires Doing(w, k).frame.pc.Acking?
    ensures CanMove(w, k)
  {
    var f := Doing(w, k).frame;
    var acks := f.pc.acks;
    hide JournalEntry;
    if acks == [] {
      Moves(w, Do(w, k, Idle), AckNext(k), k);
    } else {
      var entry :=
        JournalEntry(f.job, f.snapshot.value, acks[0], None, Journal.DatabaseAcknowledged, None, None, w.now);
      Moves(w, Goto(Append(w, k, entry), k, f, Acking(acks[1..])), AckNext(k), k);
    }
  }

  // ------------------------------------------------------------------ what nobody is safe from

  /** A controller may crash in the middle of anything, and its claims may be recovered at any time. */
  lemma AnyoneMayCrash(w: World, k: ControllerId, claimedBefore: Option<int>)
    ensures Step(w, Do(w, k, Idle), Crash(k))
    ensures Step(w, w.(db := RecoverClaims(w.db, claimedBefore, w.now)), Recover(claimedBefore))
  {
    hide FrameStep, HelperStep, HostStep, RecoverClaims;
  }

  /** Whatever was sent may arrive now, on any clock within the lag and with any outcome the helper allows; it may
      arrive again, and the answer may be read at any later time. */
  lemma AnyRequestMayArrive(w: World, r: Request, hostNow: int, h': Helper, out: Option<Result>)
    returns (w': World)
    requires r in w.sent && w.now - w.lag <= hostNow <= w.now + w.lag
    requires HelperStep(r.op, HostOf(w, r.server, r.instance), r.generation, r.deadline <= hostNow, h', out)
    ensures Step(w, w', Deliver(r, hostNow, h', out)) && w' == w.(hosts := w'.hosts, replies := w'.replies)
    ensures HostOf(w', r.server, r.instance) == h' && r in w'.sent
    ensures forall s: ServerId, i: InstanceId | (s, i) != (r.server, r.instance) :: HostOf(w', s, i) == HostOf(w, s, i)
    ensures w'.replies == if out.Some? then w.replies + {Reply(r, out.value)} else w.replies
  {
    hide FrameStep, HelperStep, HostStep, RecoverClaims;
    w' := w.(hosts := w.hosts[(r.server, r.instance) := h'],
             replies := match out case Some(result) => w.replies + {Reply(r, result)} case None => w.replies);
  }
}
