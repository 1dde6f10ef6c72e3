/** A run in which the slot released by an inspection is not empty afterwards: a start command's
    `ensure-instance` is delayed on the wire, the start is put back for a retry, an administrator asks for
    a reconciliation (which keeps the instance's generation), the host answers "absent", the inspection
    makes the instance inactive, and then the delayed launch arrives. */
module RuntimeOutrun {
  import opened Options
  import opened RuntimeRows
  import opened RemoteHelper
  import opened RuntimeProtocol
  import opened RuntimeTheorems
  import opened RuntimeInspection
  import Journal
  import Json

  /** Reachable without any launch having been carried out yet. */
  ghost predicate Reachable(w: World) {
    exists run, labels :: IsRun(run, labels) && run[|labels|] == w && Unlaunching(labels)
  }

  predicate Unlaunching(labels: seq<Label>) { forall n | 0 <= n < |labels| :: !DeliversLaunch(labels[n]) }

  lemma ReachStep(w: World, w': World, l: Label)
    requires Reachable(w) && Step(w, w', l) && !DeliversLaunch(l)
    ensures Reachable(w')
  {
    hide Step;
    var run, labels :| IsRun(run, labels) && run[|labels|] == w && Unlaunching(labels);
    ExtendRun(run, labels, w', l);
    assert Unlaunching(labels + [l]);
    assert (run + [w'])[|labels + [l]|] == w';
  }

  lemma ExtendRun(run: seq<World>, labels: seq<Label>, w: World, l: Label)
    requires IsRun(run, labels) && Step(run[|labels|], w, l)
    ensures IsRun(run + [w], labels + [l])
  {
    hide Step;
    var longer, more := run + [w], labels + [l];
    forall n | 0 <= n < |more| ensures Step(longer[n], longer[n + 1], more[n]) {
      if n < |labels| { assert Step(run[n], run[n + 1], labels[n]); }
    }
  }

  const POLICY := Policy(true, 1, map[0 := RuntimeConfig(true, true, 1)])
  const HOST := Server(1, true, None, 1)
  const FRESH := Instance(0, None, 1, 1, true, Running, Requested, 1, None, 100, 100, 100, None, 0)
  const PLACED := FRESH.(observed := Starting, server := Some(0), lastObservedAt := Some(0))
  const ABSENT := Result(true, false, false, false, None, None)
  const START_JOB := Job(0, 0, 0, Start, 1, 1, 1, OtherReason, 1)
  const LOOK_JOB := Job(1, 1, 0, Reconcile, 1, 1, 1, OtherReason, 1)
  const LAUNCH := Request(ByJob(0, START_JOB), EnsureInstance, 0, 0, 1, 100)
  const LOOK := Request(ByJob(0, LOOK_JOB), InspectInstance, 0, 0, 1, 100)

  function StartRow(status: Status, attempts: nat, availableAt: int): Command {
    Command(0, Start, 1, 1, 1, OtherReason, status, attempts, availableAt, None)
  }

  function LookRow(status: Status, attempts: nat): Command {
    Command(0, Reconcile, 1, 1, 1, OtherReason, status, attempts, 0, None)
  }

  function Tables(row: Instance, commands: map<CommandId, Command>): Db {
    Db(map[0 := row], commands, map[0 := HOST], POLICY)
  }

  /** The installed system with one registered host and one fresh instance. */
  function Begun(): World {
    World(Tables(FRESH, map[0 := StartRow(Pending, 0, 0)]), 0, 0, {}, map[], {}, {}, map[], map[])
  }

  lemma ReachBegun()
    ensures Reachable(Begun())
  {
    var w0 := World(Db(map[], map[], map[], POLICY), 0, 0, {}, map[], {}, {}, map[], map[]);
    var w1 := w0.(db := Db(map[], map[], map[0 := HOST], POLICY));
    var labels: seq<Label> := [];
    assert IsRun([w0], labels);
    assert [w0][|labels|] == w0;
    assert Step(w0, w1, ApiServer(0, 1, true, None));
    ReachStep(w0, w1, ApiServer(0, 1, true, None));
    assert Step(w1, Begun(), ApiCreate(0, 0, 0, None, 100, 100));
    ReachStep(w1, Begun(), ApiCreate(0, 0, 0, None, 100, 100));
  }

  /** A step of controller 0 on the command it works on. */
  lemma ReachFrameStep(w: World, w': World, l: Label, f: Frame)
    requires Reachable(w) && Acts(l, 0) && Doing(w, 0) == Working(f) && FrameStep(w, w', l, 0, f)
    ensures Reachable(w')
  {
    hide Reachable, FrameStep;
    assert Step(w, w', l);
    ReachStep(w, w', l);
  }

  function InStart(row: Instance, pc: Pc, snapshot: Option<Instance>): World {
    Do(Begun().(db := Tables(row, map[0 := StartRow(Claimed(0, 0), 1, 0)]), issued := {0}),
       0, Working(Frame(START_JOB, snapshot, pc)))
  }

  lemma ReachPlaced()
    ensures Reachable(InStart(PLACED, Logging(EnsureInstance, 0), Some(FRESH)))
  {
    hide Reachable;
    ReachBegun();
    var w1 := InStart(FRESH, Fetched, None);
    assert Step(Begun(), w1, Claim(0, 0, 0));
    ReachStep(Begun(), w1, Claim(0, 0, 0));
    var w2 := InStart(FRESH, Loaded, Some(FRESH));
    ReachFrameStep(w1, w2, Load(0), Frame(START_JOB, None, Fetched));
    var w3 := InStart(FRESH, Admitted, Some(FRESH));
    ReachFrameStep(w2, w3, Decide(0), Frame(START_JOB, Some(FRESH), Loaded));
    var w4 := InStart(PLACED, Logging(EnsureInstance, 0), Some(FRESH));
    assert ActiveOn(w3.db, 0) == {};
    ReachFrameStep(w3, w4, PlaceOn(0, 0), Frame(START_JOB, Some(FRESH), Admitted));
  }

  /** The launch is on the wire; the start command waits for its retry. */
  predicate Delayed(w: World) {
    && w.db == Tables(PLACED, map[0 := StartRow(Pending, 1, 10)])
    && w.now == 0 && w.issued == {0} && w.hosts == map[] && LAUNCH in w.sent && Doing(w, 0).Idle?
  }

  function LaunchSent(log: Journal.Log): World {
    InStart(PLACED, Awaiting(EnsureInstance, 0), Some(FRESH)).(sent := {LAUNCH}, journals := map[0 := log])
  }

  lemma ReachLaunchSent() returns (log: Journal.Log)
    ensures Reachable(LaunchSent(log))
  {
    hide Reachable, JournalEntry, ScheduleRetry, Conclude, MarkStarting, Dispatch;
    ReachPlaced();
    var w0 := InStart(PLACED, Logging(EnsureInstance, 0), Some(FRESH));
    var f := Frame(START_JOB, Some(FRESH), Logging(EnsureInstance, 0));
    var r := JournalEntry(START_JOB, FRESH, EnsureInstance, Some(0), Journal.Intent, None, Some(Json.Null), 0);
    log := LogOf(w0, 0) + [r];
    var w1 := Goto(Append(w0, 0, r), 0, f, Sending(EnsureInstance, 0));
    ReachFrameStep(w0, w1, LogIntent(0, Json.Null), f);
    f := f.(pc := Sending(EnsureInstance, 0));
    var w2 := Goto(w1.(sent := w1.sent + {LAUNCH}), 0, f, Awaiting(EnsureInstance, 0));
    ReachFrameStep(w1, w2, Send(0), f);
    assert w2.controllers == LaunchSent(log).controllers && w2.journals == LaunchSent(log).journals;
    assert w2 == LaunchSent(log);
  }

  lemma ReachDelayed() returns (w: World)
    ensures Reachable(w) && Delayed(w)
  {
    hide Reachable;
    var log := ReachLaunchSent();
    var f := Frame(START_JOB, Some(FRESH), Awaiting(EnsureInstance, 0));
    var w1 := Goto(LaunchSent(log), 0, f, Erring);
    ReachFrameStep(LaunchSent(log), w1, Fail(0), f);
    f := f.(pc := Erring);
    w := Do(w1.(db := Tables(PLACED, map[0 := StartRow(Pending, 1, 10)])), 0, Idle);
    ReachFrameStep(w1, w, Retry(0, 5, 1), f);
  }

  /** The reconciliation is about to ask the host. */
  predicate Looking(w: World, pc: Pc) {
    && w.db == Tables(PLACED, map[0 := StartRow(Pending, 1, 10), 1 := LookRow(Claimed(1, 0), 1)])
    && w.now == 0 && HostOf(w, 0, 0) == PRISTINE && LAUNCH in w.sent
    && Doing(w, 0) == Working(Frame(LOOK_JOB, Some(PLACED), pc))
  }

  lemma ReachAsked() returns (w: World)
    ensures Reachable(w) && Delayed(w.(db := w.db.(commands := map[0 := StartRow(Pending, 1, 10)])))
    ensures w.db == Tables(PLACED, map[0 := StartRow(Pending, 1, 10), 1 := LookRow(Pending, 0)])
  {
    hide Reachable;
    var w0 := ReachDelayed();
    w := w0.(db := Tables(PLACED, map[0 := StartRow(Pending, 1, 10), 1 := LookRow(Pending, 0)]));
    assert Step(w0, w, ApiReconcile(0, 1));
    ReachStep(w0, w, ApiReconcile(0, 1));
  }

  lemma ReachTaken() returns (w: World)
    ensures Reachable(w) && Looking(Do(w, 0, Working(Frame(LOOK_JOB, Some(PLACED), Fetched))), Fetched)
    ensures Doing(w, 0) == Working(Frame(LOOK_JOB, None, Fetched))
  {
    hide Reachable, FrameStep;
    var w1 := ReachAsked();
    var db := Tables(PLACED, map[0 := StartRow(Pending, 1, 10), 1 := LookRow(Claimed(1, 0), 1)]);
    w := Do(w1.(db := db, issued := {0, 1}), 0, Working(Frame(LOOK_JOB, None, Fetched)));
    assert Step(w1, w, Claim(0, 1, 1));
    ReachStep(w1, w, Claim(0, 1, 1));
  }

  lemma ReachLooking() returns (w: World)
    ensures Reachable(w) && Looking(w, Logging(InspectInstance, 0))
  {
    hide Reachable, JournalEntry, ScheduleRetry, Conclude, MarkStarting;
    var w2 := ReachTaken();
    var w3 := Do(w2, 0, Working(Frame(LOOK_JOB, Some(PLACED), Loaded)));
    ReachFrameStep(w2, w3, Load(0), Frame(LOOK_JOB, None, Fetched));
    w := Do(w3, 0, Working(Frame(LOOK_JOB, Some(PLACED), Logging(InspectInstance, 0))));
    ReachFrameStep(w3, w, Decide(0), Frame(LOOK_JOB, Some(PLACED), Loaded));
  }

  lemma ReachLookSent() returns (w: World)
    ensures Reachable(w) && Looking(w, Awaiting(InspectInstance, 0)) && LOOK in w.sent
  {
    hide Reachable, JournalEntry, ScheduleRetry, Conclude, MarkStarting, Dispatch;
    var w0 := ReachLooking();
    var f := Frame(LOOK_JOB, Some(PLACED), Logging(InspectInstance, 0));
    var r := JournalEntry(LOOK_JOB, PLACED, InspectInstance, Some(0), Journal.Intent, None, Some(Json.Null), 0);
    var w1 := Goto(Append(w0, 0, r), 0, f, Sending(InspectInstance, 0));
    ReachFrameStep(w0, w1, LogIntent(0, Json.Null), f);
    f := f.(pc := Sending(InspectInstance, 0));
    w := Goto(w1.(sent := w1.sent + {LOOK}), 0, f, Awaiting(InspectInstance, 0));
    ReachFrameStep(w1, w, Send(0), f);
  }

  lemma ReachAbsent() returns (w: World)
    ensures Reachable(w) && Looking(w, Answered(InspectInstance, 0, ABSENT))
  {
    hide Reachable, JournalEntry, ScheduleRetry, Conclude, MarkStarting, Dispatch;
    var w2 := ReachLookSent();
    var f := Frame(LOOK_JOB, Some(PLACED), Awaiting(InspectInstance, 0));
    var w3 := w2.(hosts := w2.hosts[(0, 0) := PRISTINE], replies := w2.replies + {Reply(LOOK, ABSENT)});
    assert Step(w2, w3, Deliver(LOOK, 0, PRISTINE, Some(ABSENT)));
    ReachStep(w2, w3, Deliver(LOOK, 0, PRISTINE, Some(ABSENT)));
    var r := JournalEntry(LOOK_JOB, PLACED, InspectInstance, Some(0), Journal.RemoteResult, Some(ABSENT),
        Some(Json.Null), 0);
    w := Goto(Append(w3, 0, r), 0, f, Answered(InspectInstance, 0, ABSENT));
    ReachFrameStep(w3, w, Receive(0, ABSENT, Json.Null), f);
  }

  lemma InspectionReleases(w: World) returns (w': World)
    requires Looking(w, Answered(InspectInstance, 0, ABSENT))
    ensures Step(w, w', Commit(0, 2)) && CommitsInspection(w, Commit(0, 2)) && Deactivates(w, w', 0)
    ensures LAUNCH in w'.sent && HostOf(w', 0, 0) == PRISTINE && w'.now == 0
  {
    var f := Frame(LOOK_JOB, Some(PLACED), Answered(InspectInstance, 0, ABSENT));
    var (pc, db') := Conclude(w.db, f, 2, w.now);
    w' := Goto(w.(db := db'), 0, f, pc);
    assert FrameStep(w, w', Commit(0, 2), 0, f);
    assert Acts(Commit(0, 2), 0);
  }

  lemma LaunchArrives(w: World) returns (w': World)
    requires LAUNCH in w.sent && HostOf(w, 0, 0) == PRISTINE && w.now == 0
    ensures Step(w, w', Deliver(LAUNCH, 0, Helper(true, Some(1), None), None)) && HostOf(w', 0, 0).container
  {
    w' := w.(hosts := w.hosts[(0, 0) := Helper(true, Some(1), None)]);
  }

  /** `ReleasedSlotsStayEmpty` does not extend to `finish_inspection`: some run releases a slot there and
      has the workload running on the host one step later, though no launch is carried out twice. */
  lemma InspectionReleaseCanBeOutrun() returns (run: seq<World>, labels: seq<Label>, n: nat)
    ensures IsRun(run, labels) && n + 2 < |run| && EachLaunchOnce({}, labels)
    ensures CommitsInspection(run[n], labels[n]) && Deactivates(run[n], run[n + 1], 0)
    ensures HostOf(run[n + 2], 0, 0).container
  {
    hide Step, Looking, CommitsInspection, Deactivates;
    var w0 := ReachAbsent();
    run, labels :| IsRun(run, labels) && run[|labels|] == w0 && Unlaunching(labels);
    n := |labels|;
    var w1 := InspectionReleases(w0);
    ExtendRun(run, labels, w1, Commit(0, 2));
    run, labels := run + [w1], labels + [Commit(0, 2)];
    var w2 := LaunchArrives(w1);
    ExtendRun(run, labels, w2, Deliver(LAUNCH, 0, Helper(true, Some(1), None), None));
    var last := Deliver(LAUNCH, 0, Helper(true, Some(1), None), None);
    assert EachLaunchOnce({}, labels + [last]) by {
      assert Unlaunching(labels);
      assert (labels + [last])[..|labels|] == labels;
    }
    run, labels := run + [w2], labels + [last];
  }
}
