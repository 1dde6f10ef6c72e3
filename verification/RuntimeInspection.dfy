/** `finish_inspection` gives a slot back on a mere "absent" answer, without a tombstone. This module
    says exactly when that is safe. A controller starts one SSH process for each launch, so here each
    launch that was sent is carried out at most once, at whatever later time; and a host refuses it once its
    own clock has reached the deadline. */
module RuntimeInspection {
  import opened Options
  import opened RuntimeRows
  import opened RuntimeDatabase
  import opened RemoteHelper
  import opened RuntimeProtocol
  import opened RuntimeInvariant
  import opened RuntimeSteps
  import opened RuntimeSafety
  import opened RuntimeTheorems
  import Journal
  import Json

  predicate Launches(q: Request, i: InstanceId) { q.op.EnsureInstance? && q.instance == i }

  /** Some host's clock may still be before the deadline. */
  predicate StillTaken(w: World, deadline: int) { w.now - w.lag < deadline }

  /** A worker that will still send `ensure-instance` for the instance, with a deadline that has not passed. */
  predicate AboutToLaunch(w: World, k: ControllerId, i: InstanceId) {
    && Doing(w, k).Working?
    && var f := Doing(w, k).frame;
    && f.job.instance == i && f.snapshot.Some? && StillTaken(w, f.snapshot.value.desiredExpiresAt)
    && ((f.pc.Logging? && f.pc.op.EnsureInstance?) || (f.pc.Sending? && f.pc.op.EnsureInstance?))
  }

  // ------------------------------------------------------------------ launches that have been carried out

  predicate DeliversLaunch(l: Label) { l.Deliver? && l.request.op.EnsureInstance? }

  /** The launches that have been carried out, or refused, in these steps. */
  function Ran(labels: seq<Label>): set<Request> { set l | l in labels && DeliversLaunch(l) :: l.request }

  /** These steps carry out no launch twice, and none of `ran` again. */
  predicate EachLaunchOnce(ran: set<Request>, labels: seq<Label>) {
    forall n | 0 <= n < |labels| && DeliversLaunch(labels[n]) :: labels[n].request !in ran + Ran(labels[..n])
  }

  lemma RanAppend(labels: seq<Label>, l: Label)
    ensures Ran(labels + [l]) == Ran(labels) + Ran([l])
  {
    forall x | x in labels ensures x in labels + [l] {}
    assert l in labels + [l] && l in [l];
  }

  lemma RanPrepend(l: Label, labels: seq<Label>)
    requires !DeliversLaunch(l)
    ensures Ran([l] + labels) == Ran(labels)
  {
    forall x | x in labels ensures x in [l] + labels {}
  }

  /** A launch for the instance whose deadline has not passed is on the wire, or about to be. */
  ghost predicate Outstanding(w: World, ran: set<Request>, i: InstanceId) {
    || (exists q | q in w.sent && Launches(q, i) :: q !in ran && StillTaken(w, q.deadline))
    || (exists k :: AboutToLaunch(w, k, i))
  }

  /** The host runs nothing, and would refuse the start command or will never be asked. */
  ghost predicate Harmless(w: World, ran: set<Request>, i: InstanceId) {
    && i in w.db.instances
    && (w.db.instances[i].server.Some? ==>
          var h := HostOf(w, w.db.instances[i].server.value, i);
          !h.container && (CanLaunch(h, 1) ==> !Outstanding(w, ran, i)))
  }

  ghost predicate IsPath(path: seq<World>, labels: seq<Label>, from: World) {
    && |path| == |labels| + 1
    && path[0] == from
    && forall n | 0 <= n < |labels| :: Step(path[n], path[n + 1], labels[n])
  }

  /** No continuation ever runs a workload for the instance, on any host. */
  ghost predicate NeverRuns(w: World, ran: set<Request>, i: InstanceId) {
    forall path, labels, s | IsPath(path, labels, w) && EachLaunchOnce(ran, labels) ::
      !HostOf(path[|labels|], s, i).container
  }

  // ------------------------------------------------------------------ each command launches at most once

  /** From here a worker may yet come to send `ensure-instance`. */
  predicate BeforeLaunch(pc: Pc) {
    pc.Fetched? || pc.Loaded? || pc.Admitted? || ((pc.Logging? || pc.Sending?) && pc.op.EnsureInstance?)
  }

  ghost predicate NotYetLaunched(w: World, k: ControllerId) {
    Doing(w, k).Working? && BeforeLaunch(Doing(w, k).frame.pc) ==>
      forall q | q in w.sent && q.op.EnsureInstance? :: q.origin != ByJob(k, Doing(w, k).frame.job)
  }

  /** Nobody who may yet send a launch has sent it already. */
  ghost predicate Unlaunched(w: World) { forall k :: NotYetLaunched(w, k) }

  lemma CommitTurnsAway(w: World, w': World, k: ControllerId, f: Frame, newId: CommandId)
    requires FrameStep(w, w', Commit(k, newId), k, f)
    ensures Doing(w', k).Working? && !BeforeLaunch(Doing(w', k).frame.pc)
  {
    hide FinishStart, FinishTermination, FinishExtension, FinishInspection;
  }

  lemma FrameTurnsAway(w: World, w': World, l: Label, k: ControllerId, f: Frame)
    requires Doing(w, k) == Working(f) && OnCommand(l) && l.k == k && FrameStep(w, w', l, k, f)
    requires Doing(w', k).Working? && BeforeLaunch(Doing(w', k).frame.pc)
    ensures BeforeLaunch(f.pc) && Doing(w', k).frame.job == f.job
    ensures (l.Load? || l.Decide? || l.PlaceOn? || l.LogIntent?)
  {
    hide FrameStep, BeforeLaunch;
    if l.Commit? {
      CommitTurnsAway(w, w', k, f, l.newId);
    } else if l.Load? || l.Decide? || l.PlaceOn? || l.Stop? || l.LogIntent? {
      EarlyTurns(w, w', l, k, f);
    } else {
      LateTurns(w, w', l, k, f);
    }
  }

  lemma EarlyTurns(w: World, w': World, l: Label, k: ControllerId, f: Frame)
    requires FrameStep(w, w', l, k, f) && (l.Load? || l.Decide? || l.PlaceOn? || l.Stop? || l.LogIntent?)
    requires Doing(w', k).Working? && BeforeLaunch(Doing(w', k).frame.pc)
    ensures BeforeLaunch(f.pc) && Doing(w', k).frame.job == f.job && !l.Stop?
  {
    hide GateOpen, JournalEntry, Selectable, MarkStarting, MarkStopping, Append;
  }

  lemma LateTurns(w: World, w': World, l: Label, k: ControllerId, f: Frame)
    requires FrameStep(w, w', l, k, f)
    requires !l.Commit? && !l.Load? && !l.Decide? && !l.PlaceOn? && !l.Stop? && !l.LogIntent?
    ensures Doing(w', k).Working? ==> !BeforeLaunch(Doing(w', k).frame.pc)
  {
    hide ScheduleRetry, RejectStart, FinishTermination, JournalEntry, FinishIfHeld, PassesBeforeLog, PassesAfterLog,
        Append;
  }

  /** What is not a step on a command sends no launch and lets nobody come nearer to one, but for a claim. */
  lemma BackgroundLaunchesNothing(w: World, w': World, l: Label)
    requires Step(w, w', l) && !OnCommand(l)
    ensures forall q | q in w'.sent && q.op.EnsureInstance? :: q in w.sent
    ensures forall j | Doing(w', j).Working? :: Doing(w', j) == Doing(w, j)
              || (l.Claim? && l.k == j && Doing(w', j).frame.pc.Fetched?)
  {
    hide FrameStep, HelperStep, HostStep, WantsInspection, DatabaseFinished, Acts;
  }

  lemma FrameUnlaunched(w: World, w': World, l: Label, k: ControllerId, f: Frame)
    requires Doing(w, k) == Working(f) && OnCommand(l) && l.k == k && FrameStep(w, w', l, k, f) && Unlaunched(w)
    ensures Unlaunched(w')
  {
    hide FrameStep, BeforeLaunch;
    if l.Send? {
      SendSends(w, w', k, f);
    } else {
      FrameSendsNothing(w, w', l, k, f);
    }
    forall j ensures NotYetLaunched(w', j) {
      assert NotYetLaunched(w, j);
      if j == k && Doing(w', k).Working? && BeforeLaunch(Doing(w', k).frame.pc) { FrameTurnsAway(w, w', l, k, f); }
    }
  }

  lemma SendSends(w: World, w': World, k: ControllerId, f: Frame)
    requires FrameStep(w, w', Send(k), k, f)
    ensures f.pc.Sending? && f.snapshot.Some?
    ensures w'.sent == w.sent + {JobRequest(k, f.job, f.pc.op, f.pc.server, f.snapshot.value)}
    ensures w'.controllers == w.controllers[k := Doing(w', k)]
  {
  }

  lemma ClaimUnlaunched(w: World, w': World, k: ControllerId, c: CommandId, token: Token)
    requires Inv(w) && Unlaunched(w) && Step(w, w', Claim(k, c, token))
    ensures Unlaunched(w')
  {
    hide DbInv, WithinPeak, TokensOk, ActivityOk, LogFits, HostOk, ReplyOk;
    forall j ensures NotYetLaunched(w', j) {
      assert NotYetLaunched(w, j);
      if j == k {
        forall q | q in w.sent && q.op.EnsureInstance? ensures q.origin != ByJob(k, Doing(w', k).frame.job) {
          assert RequestOk(w, q);
        }
      }
    }
  }

  lemma UnlaunchedStays(w: World, w': World, l: Label)
    requires Inv(w) && Unlaunched(w) && Step(w, w', l)
    ensures Unlaunched(w')
  {
    if OnCommand(l) {
      hide Inv, Step, FrameStep, Unlaunched;
      var k := ActingController(w, w', l);
      FrameUnlaunched(w, w', l, k, Doing(w, k).frame);
    } else if l.Claim? {
      hide Inv, Step, Unlaunched;
      ClaimUnlaunched(w, w', l.k, l.c, l.token);
    } else {
      hide Inv, Step, BeforeLaunch;
      BackgroundLaunchesNothing(w, w', l);
      forall j ensures NotYetLaunched(w', j) { assert NotYetLaunched(w, j); }
    }
  }

  /** What is known of the launches after a run: those carried out were sent, and each command sends one. */
  lemma {:induction false} RunLaunches(run: seq<World>, labels: seq<Label>, n: nat)
    requires IsRun(run, labels) && n < |run|
    ensures Inv(run[n]) && Unlaunched(run[n]) && Ran(labels[..n]) <= run[n].sent
  {
    RunKeeps(run, labels, n);
    hide Inv, Step;
    if n == 0 {
      assert labels[..0] == [];
    } else {
      RunLaunches(run, labels, n - 1);
      assert labels[..n] == labels[..n - 1] + [labels[n - 1]];
      RanAppend(labels[..n - 1], labels[n - 1]);
      UnlaunchedStays(run[n - 1], run[n], labels[n - 1]);
      hide Unlaunched;
      StepKeeps(run[n - 1], run[n], labels[n - 1]);
      if DeliversLaunch(labels[n - 1]) { DeliveredWasSent(run[n - 1], run[n], labels[n - 1]); }
    }
  }

  lemma DeliveredWasSent(w: World, w': World, l: Label)
    requires Step(w, w', l) && l.Deliver?
    ensures l.request in w.sent
  {
  }

  // ------------------------------------------------------------------ harmless stays harmless

  lemma LaunchRequestsAreFirstGeneration(w: World, q: Request, i: InstanceId)
    requires Inv(w) && q in w.sent && Launches(q, i)
    ensures q.generation == 1 && PlacedOn(w.db, i, q.server)
  {
    hide DbInv, WithinPeak, TokensOk, ActivityOk, LogFits;
    assert RequestOk(w, q);
    CommandFact(w.db, q.origin.job.id);
  }

  /** A helper that would refuse keeps refusing, and starts nothing. */
  lemma RefusalStays(op: Operation, h: Helper, g: nat, elapsed: bool, h': Helper, out: Option<Result>)
    requires HelperStep(op, h, g, elapsed, h', out) && !h.container
    requires op.EnsureInstance? ==> g == 1 && (elapsed || !CanLaunch(h, 1))
    ensures !h'.container && (CanLaunch(h', 1) ==> CanLaunch(h, 1))
  {
  }

  lemma HostRefusalStays(h: Helper, h': Helper)
    requires HostStep(h, h') && !h.container
    ensures !h'.container && (CanLaunch(h', 1) ==> CanLaunch(h, 1))
  {
  }

  /** For an inactive instance no step makes a launch outstanding that was not. */
  lemma NothingNewOutstanding(w: World, w': World, ran: set<Request>, ran': set<Request>, l: Label, i: InstanceId)
    requires Inv(w) && Step(w, w', l) && i in w.db.instances && !w.db.instances[i].active
    requires !Outstanding(w, ran, i) && ran <= ran' && w.now <= w'.now && w'.lag == w.lag
    ensures !Outstanding(w', ran', i)
  {
    if OnCommand(l) {
      hide Inv, Step, FrameStep, Outstanding;
      var k := ActingController(w, w', l);
      FrameLaunchesNothing(w, w', ran, ran', l, k, Doing(w, k).frame, i);
    } else {
      hide Inv, Step;
      BackgroundLaunchesNothing(w, w', l);
      forall q | q in w'.sent && Launches(q, i) && q !in ran' ensures !StillTaken(w', q.deadline) {
        assert q in w.sent;
      }
      forall k ensures !AboutToLaunch(w', k, i) { assert !AboutToLaunch(w, k, i); }
    }
  }

  lemma FrameLaunchesNothing(w: World, w': World, ran: set<Request>, ran': set<Request>, l: Label, k: ControllerId,
                             f: Frame,
                             i: InstanceId)
    requires Inv(w) && Doing(w, k) == Working(f) && OnCommand(l) && l.k == k && FrameStep(w, w', l, k, f)
    requires i in w.db.instances && !w.db.instances[i].active && !Outstanding(w, ran, i) && ran <= ran'
    requires w.now <= w'.now && w'.lag == w.lag
    ensures !Outstanding(w', ran', i)
  {
    hide Inv, FrameStep, AboutToLaunch;
    assert !AboutToLaunch(w, k, i);
    FrameTurnsToNoLaunch(w, w', l, k, f, i);
    FrameTouchesOnlyItself(w, w', l, k, f, i);
    forall j ensures !AboutToLaunch(w', j, i) {
      if j != k { OtherFramesWait(w, w', ran, j, i); }
    }
    forall q | q in w'.sent && Launches(q, i) && q !in ran' ensures !StillTaken(w', q.deadline) {
      assert StillTaken(w, q.deadline) ==> q in w.sent;
    }
  }

  lemma OtherFramesWait(w: World, w': World, ran: set<Request>, j: ControllerId, i: InstanceId)
    requires Doing(w', j) == Doing(w, j) && !Outstanding(w, ran, i) && w.now <= w'.now && w'.lag == w.lag
    ensures !AboutToLaunch(w', j, i)
  {
    assert !AboutToLaunch(w, j, i);
  }

  lemma FrameTouchesOnlyItself(w: World, w': World, l: Label, k: ControllerId, f: Frame, i: InstanceId)
    requires Doing(w, k) == Working(f) && FrameStep(w, w', l, k, f) && !AboutToLaunch(w, k, i)
    ensures forall j | j != k :: Doing(w', j) == Doing(w, j)
    ensures forall q | q in w'.sent && Launches(q, i) && StillTaken(w, q.deadline) :: q in w.sent
  {
    if l.Send? {
      SendSends(w, w', k, f);
    } else {
      FrameSendsNothing(w, w', l, k, f);
    }
  }

  lemma FrameSendsNothing(w: World, w': World, l: Label, k: ControllerId, f: Frame)
    requires FrameStep(w, w', l, k, f) && !l.Send?
    ensures w'.sent == w.sent && w'.controllers == w.controllers[k := Doing(w', k)]
  {
    hide ScheduleRetry, RejectStart, FinishTermination, MarkStarting, MarkStopping, GateOpen, JournalEntry, Selectable,
         Dispatch, Conclude, FinishIfHeld, HoldsClaim, PassesBeforeLog, PassesAfterLog;
  }

  lemma FrameTurnsToNoLaunch(w: World, w': World, l: Label, k: ControllerId, f: Frame, i: InstanceId)
    requires Doing(w, k) == Working(f) && OnCommand(l) && l.k == k && FrameStep(w, w', l, k, f)
    requires i in w.db.instances && !w.db.instances[i].active && !AboutToLaunch(w, k, i)
    ensures !AboutToLaunch(w', k, i)
  {
    if AboutToLaunch(w', k, i) {
      assert BeforeLaunch(Doing(w', k).frame.pc);
      hide FrameStep;
      FrameTurnsAway(w, w', l, k, f);
      OnlyPlacingLeadsToLaunch(w, w', l, k, f, i);
    }
  }

  lemma OnlyPlacingLeadsToLaunch(w: World, w': World, l: Label, k: ControllerId, f: Frame, i: InstanceId)
    requires Doing(w, k) == Working(f) && FrameStep(w, w', l, k, f)
    requires (l.Load? || l.Decide? || l.PlaceOn? || l.LogIntent?)
    requires l.k == k && i in w.db.instances && !w.db.instances[i].active && !AboutToLaunch(w, k, i)
    ensures !AboutToLaunch(w', k, i)
  {
    hide GateOpen, JournalEntry, Selectable, PlaceRow;
  }

  lemma HostOnward(w: World, w': World, ran: set<Request>, l: Label, s: ServerId, i: InstanceId)
    requires Inv(w) && Step(w, w', l) && EachLaunchOnce(ran, [l])
    requires !HostOf(w, s, i).container && (CanLaunch(HostOf(w, s, i), 1) ==> !Outstanding(w, ran, i))
    ensures !HostOf(w', s, i).container
    ensures CanLaunch(HostOf(w', s, i), 1) ==> CanLaunch(HostOf(w, s, i), 1)
  {
    match l {
      case Deliver(q, hostNow, h, out) =>
        hide Inv, HelperStep, Outstanding, CanLaunch, FrameStep, Acts;
        if q.server == s && q.instance == i {
          if q.op.EnsureInstance? {
            assert q !in ran by { assert [l][0] == l; }
            if StillTaken(w, q.deadline) { OnTheWire(w, ran, q, i); }
            LaunchRequestsAreFirstGeneration(w, q, i);
          }
          RefusalStays(q.op, HostOf(w, s, i), q.generation, q.deadline <= hostNow, h, out);
        }
      case HostAlone(t, j, h) =>
        hide Inv, HostStep, Outstanding, CanLaunch, FrameStep, Acts;
        if t == s && j == i { HostRefusalStays(HostOf(w, s, i), h); }
      case _ =>
        hide Inv, Outstanding, CanLaunch, FrameStep, Step;
        OtherStepsLeaveHosts(w, w', l);
    }
  }

  lemma OnTheWire(w: World, ran: set<Request>, q: Request, i: InstanceId)
    requires q in w.sent && q !in ran && Launches(q, i) && StillTaken(w, q.deadline)
    ensures Outstanding(w, ran, i)
  {
  }

  lemma OtherStepsLeaveHosts(w: World, w': World, l: Label)
    requires Step(w, w', l) && !l.Deliver?
    ensures w'.replies == w.replies && (!l.HostAlone? ==> w'.hosts == w.hosts)
  {
    if OnCommand(l) {
      hide Step, FrameStep;
      var k := ActingController(w, w', l);
      FrameLeavesHosts(w, w', l, k, Doing(w, k).frame);
    } else {
      hide FrameStep, WantsInspection, DatabaseFinished, Acts;
    }
  }

  lemma FrameLeavesHosts(w: World, w': World, l: Label, k: ControllerId, f: Frame)
    requires FrameStep(w, w', l, k, f)
    ensures w'.hosts == w.hosts && w'.replies == w.replies
  {
    hide ScheduleRetry, RejectStart, FinishTermination, MarkStarting, MarkStopping, GateOpen, JournalEntry, Selectable,
         Dispatch, Conclude;
  }

  lemma ClocksOnward(w: World, w': World)
    requires Onward(w, w')
    ensures w.now <= w'.now && w'.lag == w.lag
  {
  }

  lemma HarmlessStays(w: World, w': World, ran: set<Request>, l: Label, i: InstanceId)
    requires Inv(w) && Step(w, w', l) && Harmless(w, ran, i) && !w.db.instances[i].active && EachLaunchOnce(ran, [l])
    ensures Harmless(w', ran + Ran([l]), i) && !w'.db.instances[i].active
  {
    hide Inv, Step, Onward, Outstanding, CanLaunch, EachLaunchOnce, Ran;
    StepKeeps(w, w', l);
    RowOnward(w, w', i);
    ClocksOnward(w, w');
    if w.db.instances[i].server.Some? {
      HostOnward(w, w', ran, l, w.db.instances[i].server.value, i);
      if !Outstanding(w, ran, i) { NothingNewOutstanding(w, w', ran, ran + Ran([l]), l, i); }
    }
  }

  lemma {:induction false} HarmlessPath(path: seq<World>, labels: seq<Label>, from: World, ran: set<Request>, n: nat,
                                        i: InstanceId)
    requires IsPath(path, labels, from) && EachLaunchOnce(ran, labels) && n <= |labels|
    requires Inv(from) && Harmless(from, ran, i) && !from.db.instances[i].active
    ensures Inv(path[n]) && Harmless(path[n], ran + Ran(labels[..n]), i) && !path[n].db.instances[i].active
  {
    hide Inv, Step, Onward, Harmless;
    if n == 0 {
      assert labels[..0] == [] && ran + Ran([]) == ran;
    } else {
      HarmlessPath(path, labels, from, ran, n - 1, i);
      var l, before := labels[n - 1], ran + Ran(labels[..n - 1]);
      assert EachLaunchOnce(before, [l]) by { assert [l][..0] == []; }
      assert labels[..n] == labels[..n - 1] + [l];
      RanAppend(labels[..n - 1], l);
      assert ran + Ran(labels[..n]) == before + Ran([l]);
      StepKeeps(path[n - 1], path[n], l);
      HarmlessStays(path[n - 1], path[n], before, l, i);
    }
  }

  lemma HarmlessRunsNothing(w: World, ran: set<Request>, i: InstanceId, s: ServerId)
    requires Inv(w) && Harmless(w, ran, i)
    ensures !HostOf(w, s, i).container
  {
    hide DbInv, WithinPeak, TokensOk, ActivityOk, LogFits, RequestOk, ReplyOk, Outstanding;
    assert HostOk(w, s, i);
  }

  // ------------------------------------------------------------------ and nothing less will do

  /** Delivering an outstanding launch to a helper that accepts it. */
  lemma LateLaunch(w: World, ran: set<Request>, q: Request, i: InstanceId)
    requires q in w.sent && q !in ran && Launches(q, i) && StillTaken(w, q.deadline)
    requires q.generation == 1 && CanLaunch(HostOf(w, q.server, i), 1)
    ensures !NeverRuns(w, ran, i)
  {
    var h := Helper(true, Some(1), None);
    var w' := w.(hosts := w.hosts[(q.server, i) := h]);
    var path, labels := [w, w'], [Deliver(q, w.now - w.lag, h, None)];
    assert Step(w, w', labels[0]);
    assert IsPath(path, labels, w);
    assert labels[..0] == [] && EachLaunchOnce(ran, labels);
    assert HostOf(path[|labels|], q.server, i).container;
  }

  lemma NeverRunsAfter(w: World, w': World, ran: set<Request>, l: Label, i: InstanceId)
    requires Step(w, w', l) && !DeliversLaunch(l) && NeverRuns(w, ran, i)
    ensures NeverRuns(w', ran, i)
  {
    hide Step, Ran;
    forall path, labels, s | IsPath(path, labels, w') && EachLaunchOnce(ran, labels)
      ensures !HostOf(path[|labels|], s, i).container
    {
      var longer, all := [w] + path, [l] + labels;
      forall n | 0 <= n < |all| ensures Step(longer[n], longer[n + 1], all[n]) {
        if n > 0 { assert Step(path[n - 1], path[n], labels[n - 1]); }
      }
      forall n | 0 <= n < |all| && DeliversLaunch(all[n]) ensures all[n].request !in ran + Ran(all[..n]) {
        assert all[..n] == [l] + labels[..n - 1];
        RanPrepend(l, labels[..n - 1]);
      }
      assert IsPath(longer, all, w);
      assert longer[|all|] == path[|labels|];
    }
  }

  lemma SendingLaunches(w: World, ran: set<Request>, k: ControllerId, i: InstanceId, s: ServerId)
    requires Inv(w) && PlacedOn(w.db, i, s) && CanLaunch(HostOf(w, s, i), 1)
    requires AboutToLaunch(w, k, i) && Doing(w, k).frame.pc.Sending? && NotYetLaunched(w, k) && ran <= w.sent
    ensures !NeverRuns(w, ran, i)
  {
    hide DbInv, WithinPeak, TokensOk, LogFits, RequestOk, NeverRuns, LoggedIntent, Onward, Grows;
    WorkingFrameOk(w, k);
    var f := Doing(w, k).frame;
    var q := JobRequest(k, f.job, f.pc.op, f.pc.server, f.snapshot.value);
    var w' := Goto(w.(sent := w.sent + {q}), k, f, Awaiting(f.pc.op, f.pc.server));
    assert FrameStep(w, w', Send(k), k, f);
    assert Step(w, w', Send(k)) by { assert Acts(Send(k), k); }
    assert f.job.generation == 1 by { CommandFact(w.db, f.job.id); }
    LateLaunch(w', ran, q, i);
    if NeverRuns(w, ran, i) { NeverRunsAfter(w, w', ran, Send(k), i); }
  }

  lemma LoggingLaunches(w: World, ran: set<Request>, k: ControllerId, i: InstanceId, s: ServerId)
    requires Inv(w) && PlacedOn(w.db, i, s) && CanLaunch(HostOf(w, s, i), 1)
    requires AboutToLaunch(w, k, i) && Doing(w, k).frame.pc.Logging? && NotYetLaunched(w, k) && ran <= w.sent
    ensures !NeverRuns(w, ran, i)
  {
    hide DbInv, WithinPeak, TokensOk, LogFits, RequestOk, NeverRuns, LoggedIntent, Onward, Grows, JournalEntry;
    WorkingFrameOk(w, k);
    var f := Doing(w, k).frame;
    var r := JournalEntry(f.job, f.snapshot.value, f.pc.op, Some(f.pc.server), Journal.Intent, None, Some(Json.Null),
        w.now);
    var w' := Goto(Append(w, k, r), k, f, Sending(f.pc.op, f.pc.server));
    assert FrameStep(w, w', LogIntent(k, Json.Null), k, f);
    assert Step(w, w', LogIntent(k, Json.Null)) by { assert Acts(LogIntent(k, Json.Null), k); }
    StepKeeps(w, w', LogIntent(k, Json.Null));
    SendingLaunches(w', ran, k, i, s);
    if NeverRuns(w, ran, i) { NeverRunsAfter(w, w', ran, LogIntent(k, Json.Null), i); }
  }

  lemma HarmfulRuns(w: World, ran: set<Request>, i: InstanceId)
    requires Inv(w) && Unlaunched(w) && ran <= w.sent && i in w.db.instances && !Harmless(w, ran, i)
    ensures !NeverRuns(w, ran, i)
  {
    hide Inv, NeverRuns, CanLaunch, Step, NotYetLaunched;
    var s := w.db.instances[i].server.value;
    if HostOf(w, s, i).container {
      RunningAlready(w, ran, s, i);
    } else if q :| q in w.sent && Launches(q, i) && q !in ran && StillTaken(w, q.deadline) {
      LaunchRequestsAreFirstGeneration(w, q, i);
      LateLaunch(w, ran, q, i);
    } else {
      var k :| AboutToLaunch(w, k, i);
      assert NotYetLaunched(w, k);
      if Doing(w, k).frame.pc.Sending? { SendingLaunches(w, ran, k, i, s); } else { LoggingLaunches(w, ran, k, i, s); }
    }
  }

  lemma RunningAlready(w: World, ran: set<Request>, s: ServerId, i: InstanceId)
    requires HostOf(w, s, i).container
    ensures !NeverRuns(w, ran, i)
  {
    hide Step;
    var labels: seq<Label> := [];
    assert IsPath([w], labels, w) && EachLaunchOnce(ran, labels);
    assert HostOf([w][|labels|], s, i).container;
  }

  /** Exactly when an inactive instance is safe: in every reachable world, no continuation runs its workload if
      and only if nothing runs now and no launch that is still to be carried out, its deadline still ahead by
      some host's clock, would be accepted. */
  lemma SafeExactlyWhenHarmless(run: seq<World>, labels: seq<Label>, n: nat, i: InstanceId)
    requires IsRun(run, labels) && n < |run| && i in run[n].db.instances && !run[n].db.instances[i].active
    ensures NeverRuns(run[n], Ran(labels[..n]), i) <==> Harmless(run[n], Ran(labels[..n]), i)
  {
    hide Inv, Step, Harmless, Unlaunched, Ran;
    RunLaunches(run, labels, n);
    var ran := Ran(labels[..n]);
    if Harmless(run[n], ran, i) {
      forall path, more, s | IsPath(path, more, run[n]) && EachLaunchOnce(ran, more)
        ensures !HostOf(path[|more|], s, i).container
      {
        HarmlessPath(path, more, run[n], ran, |more|, i);
        HarmlessRunsNothing(path[|more|], ran + Ran(more[..|more|]), i, s);
      }
    } else {
      HarmfulRuns(run[n], ran, i);
    }
  }

  // ------------------------------------------------------------------ the ordinary case

  /** A launch that was answered has been carried out. */
  lemma {:induction false} AnsweredLaunchesAreOver(run: seq<World>, labels: seq<Label>, n: nat, p: Reply)
    requires IsRun(run, labels) && n < |run| && p in run[n].replies && p.request.op.EnsureInstance?
    ensures p.request in Ran(labels[..n])
  {
    hide Step;
    if n > 0 {
      var w, w', l := run[n - 1], run[n], labels[n - 1];
      assert labels[..n] == labels[..n - 1] + [l];
      RanAppend(labels[..n - 1], l);
      if p in w.replies {
        AnsweredLaunchesAreOver(run, labels, n - 1, p);
      } else {
        NewReplyIsDelivered(w, w', l, p);
      }
    }
  }

  lemma NewReplyIsDelivered(w: World, w': World, l: Label, p: Reply)
    requires Step(w, w', l) && p in w'.replies && p !in w.replies
    ensures l.Deliver? && l.request == p.request
  {
    if !l.Deliver? {
      hide Step;
      OtherStepsLeaveHosts(w, w', l);
    } else {
      hide HelperStep;
    }
  }

  /** When every launch that was sent has been answered and nobody is about to send one, an inactive instance
      that runs nothing never runs again, whatever its host would accept. */
  lemma AnsweredReleaseIsSafe(run: seq<World>, labels: seq<Label>, n: nat, i: InstanceId)
    requires IsRun(run, labels) && n < |run| && i in run[n].db.instances && !run[n].db.instances[i].active
    requires forall q | q in run[n].sent && Launches(q, i) :: exists result :: Reply(q, result) in run[n].replies
    requires forall k :: !AboutToLaunch(run[n], k, i)
    requires forall s :: !HostOf(run[n], s, i).container
    ensures NeverRuns(run[n], Ran(labels[..n]), i)
  {
    hide Step, NeverRuns, AboutToLaunch, Ran;
    forall q | q in run[n].sent && Launches(q, i) ensures q in Ran(labels[..n]) {
      var result :| Reply(q, result) in run[n].replies;
      AnsweredLaunchesAreOver(run, labels, n, Reply(q, result));
    }
    SafeExactlyWhenHarmless(run, labels, n, i);
  }

  // ------------------------------------------------------------------ the case that the row decides

  predicate DeadlineFits(db: Db, i: InstanceId, deadline: int) {
    i in db.instances && deadline <= db.instances[i].desiredExpiresAt
  }

  ghost predicate FrameDeadlineFits(w: World, k: ControllerId) {
    Doing(w, k).Working? && Doing(w, k).frame.snapshot.Some? ==>
      DeadlineFits(w.db, Doing(w, k).frame.job.instance, Doing(w, k).frame.snapshot.value.desiredExpiresAt)
  }

  /** Every snapshot, and every launch that was sent, has at most the deadline of the stored row. */
  ghost predicate DeadlinesFit(w: World) {
    && (forall k :: FrameDeadlineFits(w, k))
    && (forall q | q in w.sent && q.op.EnsureInstance? :: DeadlineFits(w.db, q.instance, q.deadline))
  }

  lemma DeadlineFitsOnward(w: World, w': World, i: InstanceId, deadline: int)
    requires Onward(w, w') && DeadlineFits(w.db, i, deadline)
    ensures DeadlineFits(w'.db, i, deadline)
  {
    RowOnward(w, w', i);
  }

  /** A worker keeps its job and its snapshot, which it reads once. */
  predicate SameSnapshot(w: World, w': World, k: ControllerId, f: Frame) {
    Doing(w', k).Working? ==>
      && Doing(w', k).frame.job == f.job
      && (Doing(w', k).frame.snapshot != f.snapshot ==>
            f.job.instance in w.db.instances && Doing(w', k).frame.snapshot == Some(w.db.instances[f.job.instance]))
  }

  lemma EarlySnapshot(w: World, w': World, l: Label, k: ControllerId, f: Frame)
    requires FrameStep(w, w', l, k, f) && (l.Load? || l.Decide? || l.PlaceOn? || l.Stop? || l.LogIntent?)
    ensures SameSnapshot(w, w', k, f)
  {
    hide GateOpen, JournalEntry, Selectable, MarkStarting, MarkStopping, Append, Dispatch;
  }

  lemma CommitSnapshot(w: World, w': World, l: Label, k: ControllerId, f: Frame)
    requires FrameStep(w, w', l, k, f) && l.Commit?
    ensures SameSnapshot(w, w', k, f)
  {
    hide Conclude;
  }

  lemma LateSnapshot(w: World, w': World, l: Label, k: ControllerId, f: Frame)
    requires FrameStep(w, w', l, k, f)
    requires !l.Commit? && !l.Load? && !l.Decide? && !l.PlaceOn? && !l.Stop? && !l.LogIntent?
    ensures SameSnapshot(w, w', k, f)
  {
    hide ScheduleRetry, RejectStart, FinishTermination, JournalEntry, FinishIfHeld, PassesBeforeLog, PassesAfterLog,
         Append, JobRequest;
  }

  lemma FrameSnapshotStays(w: World, w': World, l: Label, k: ControllerId, f: Frame)
    requires FrameStep(w, w', l, k, f)
    ensures SameSnapshot(w, w', k, f)
  {
    hide FrameStep, SameSnapshot;
    if l.Commit? {
      CommitSnapshot(w, w', l, k, f);
    } else if l.Load? || l.Decide? || l.PlaceOn? || l.Stop? || l.LogIntent? {
      EarlySnapshot(w, w', l, k, f);
    } else {
      LateSnapshot(w, w', l, k, f);
    }
  }

  lemma FrameDeadlinesStay(w: World, w': World, l: Label, k: ControllerId, f: Frame)
    requires Doing(w, k) == Working(f) && OnCommand(l) && l.k == k && FrameStep(w, w', l, k, f)
    requires DeadlinesFit(w) && Onward(w, w')
    ensures DeadlinesFit(w')
  {
    hide FrameStep, Onward, DeadlineFits;
    FrameSnapshotStays(w, w', l, k, f);
    assert FrameDeadlineFits(w, k);
    if l.Send? { SendSends(w, w', k, f); } else { FrameSendsNothing(w, w', l, k, f); }
    forall j ensures FrameDeadlineFits(w', j) {
      assert FrameDeadlineFits(w, j);
      if Doing(w', j).Working? && Doing(w', j).frame.snapshot.Some? {
        var i, deadline := Doing(w', j).frame.job.instance, Doing(w', j).frame.snapshot.value.desiredExpiresAt;
        assert DeadlineFits(w.db, i, deadline) by { RowDeadlineFits(w.db, i); }
        DeadlineFitsOnward(w, w', i, deadline);
      }
    }
    forall q | q in w'.sent && q.op.EnsureInstance? ensures DeadlineFits(w'.db, q.instance, q.deadline) {
      assert DeadlineFits(w.db, q.instance, q.deadline);
      DeadlineFitsOnward(w, w', q.instance, q.deadline);
    }
  }

  lemma RowDeadlineFits(db: Db, i: InstanceId)
    ensures i in db.instances ==> DeadlineFits(db, i, db.instances[i].desiredExpiresAt)
  {
  }

  lemma DeadlinesStay(w: World, w': World, l: Label)
    requires Step(w, w', l) && DeadlinesFit(w) && Onward(w, w')
    ensures DeadlinesFit(w')
  {
    hide Step, FrameStep, Onward, DeadlineFits;
    if OnCommand(l) {
      hide DeadlinesFit;
      var k := ActingController(w, w', l);
      FrameDeadlinesStay(w, w', l, k, Doing(w, k).frame);
    } else {
      BackgroundLaunchesNothing(w, w', l);
      forall j ensures FrameDeadlineFits(w', j) {
        assert FrameDeadlineFits(w, j);
        if Doing(w', j).Working? && Doing(w', j).frame.snapshot.Some? {
          ClaimedUnread(w, w', l, j);
          var f := Doing(w', j).frame;
          DeadlineFitsOnward(w, w', f.job.instance, f.snapshot.value.desiredExpiresAt);
        }
      }
      forall q | q in w'.sent && q.op.EnsureInstance? ensures DeadlineFits(w'.db, q.instance, q.deadline) {
        DeadlineFitsOnward(w, w', q.instance, q.deadline);
      }
    }
  }

  lemma ClaimedUnread(w: World, w': World, l: Label, j: ControllerId)
    requires Step(w, w', l) && !OnCommand(l) && Doing(w', j).Working? && Doing(w', j).frame.snapshot.Some?
    ensures Doing(w', j) == Doing(w, j)
  {
    hide FrameStep, HelperStep, HostStep, WantsInspection, DatabaseFinished, Acts;
  }

  lemma {:induction false} RunDeadlines(run: seq<World>, labels: seq<Label>, n: nat)
    requires IsRun(run, labels) && n < |run|
    ensures Inv(run[n]) && DeadlinesFit(run[n])
  {
    RunKeeps(run, labels, n);
    hide Inv, Step, Onward;
    if n > 0 {
      RunDeadlines(run, labels, n - 1);
      hide DeadlinesFit;
      StepKeeps(run[n - 1], run[n], labels[n - 1]);
      DeadlinesStay(run[n - 1], run[n], labels[n - 1]);
    }
  }

  /** A condition to be read from the row: the release of an instance that runs nothing and whose desired expiry
      has passed by every host's clock is safe, whatever is in flight. */
  lemma ExpiredReleaseIsSafe(run: seq<World>, labels: seq<Label>, n: nat, i: InstanceId)
    requires IsRun(run, labels) && n < |run| && i in run[n].db.instances && !run[n].db.instances[i].active
    requires run[n].db.instances[i].desiredExpiresAt + run[n].lag <= run[n].now
    requires forall s :: !HostOf(run[n], s, i).container
    ensures NeverRuns(run[n], Ran(labels[..n]), i)
  {
    hide Inv, Step, NeverRuns, Ran;
    RunDeadlines(run, labels, n);
    var w := run[n];
    forall k ensures !AboutToLaunch(w, k, i) { assert FrameDeadlineFits(w, k); }
    SafeExactlyWhenHarmless(run, labels, n, i);
  }
}
