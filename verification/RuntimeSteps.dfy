/** Every step of the runtime control plane keeps the invariant. */
module RuntimeSteps {
  import opened Options
  import opened RuntimeRows
  import opened RuntimeDatabase
  import opened RemoteHelper
  import opened RuntimeProtocol
  import opened RuntimeInvariant
  import Journal

  // ------------------------------------------------------------------ stability

  /** What every step, by whomever, means for everybody else. */
  ghost predicate Grows(w: World, w': World, actor: Option<Job>) {
    && DbInv(w.db) && DbInv(w'.db)
    && RowsEvolve(w.db, w'.db, actor)
    && (actor.Some? ==> JobOk(w.db, actor.value))
    && w.issued <= w'.issued
    && (forall c | c in w'.db.commands && w'.db.commands[c].status.Claimed?
        && w'.db.commands[c].status.token in w.issued ::
          c in w.db.commands && w.db.commands[c].status == w'.db.commands[c].status)
    && (forall s, i :: Fenced(HostOf(w, s, i)) ==> Fenced(HostOf(w', s, i)))
  }

  /** One step forward: nothing recorded is taken back. */
  ghost predicate Onward(w: World, w': World) {
    && w.sent <= w'.sent && w.replies <= w'.replies && w.now <= w'.now && w'.lag == w.lag
    && exists actor :: Grows(w, w', actor)
  }

  lemma ClaimsFade(w: World, w': World, actor: Option<Job>, job: Job)
    requires Grows(w, w', actor) && JobFits(w, job)
    ensures JobFits(w', job)
    ensures HoldsClaim(w'.db, job) ==> HoldsClaim(w.db, job)
  {
    assert CommandEvolves(w.db.commands[job.id], w'.db.commands[job.id]);
  }

  lemma PlacementStays(w: World, w': World, actor: Option<Job>, i: InstanceId, s: ServerId)
    requires Grows(w, w', actor) && PlacedOn(w.db, i, s)
    ensures PlacedOn(w'.db, i, s)
  {
    assert RowEvolves(w.db.instances[i], w'.db.instances[i]);
  }

  /** Another worker's transaction cannot place the instance of a start command that is still claimed,
      nor that of a later command. */
  lemma SnapshotStable(w: World, w': World, actor: Option<Job>, job: Job, snap: Instance, pc: Pc)
    requires Grows(w, w', actor) && JobFits(w, job) && job.instance in w.db.instances
    requires SnapshotFits(w.db, job, snap, pc)
    requires actor.Some? ==> actor.value.token != job.token
    ensures job.instance in w'.db.instances && SnapshotFits(w'.db, job, snap, pc)
  {
    var i := job.instance;
    var a, b := w.db.instances[i], w'.db.instances[i];
    assert RowEvolves(a, b) && (a.server != b.server ==> Places(w.db, i, actor));
    ClaimsFade(w, w', actor, job);
    if a.server != b.server {
      assert CommandOk(w.db, job.id) && CommandOk(w.db, actor.value.id);
      assert OneStart(w.db);
    }
  }

  lemma FrameStable(w: World, w': World, actor: Option<Job>, k: ControllerId, f: Frame)
    requires Grows(w, w', actor) && FrameOk(w, k, f) && LogOf(w', k) == LogOf(w, k)
    requires actor.Some? ==> actor.value.token != f.job.token
    ensures FrameOk(w', k, f)
  {
    hide Grows, SnapshotFits, DbInv;
    ClaimsFade(w, w', actor, f.job);
    RowsPersist(w, w', actor, f.job.instance);
    if f.snapshot.Some? {
      SnapshotStable(w, w', actor, f.job, f.snapshot.value, f.pc);
    }
    if f.pc.Logging? || f.pc.Sending? || f.pc.Awaiting? || f.pc.Answered? {
      PlacementStays(w, w', actor, f.job.instance, f.pc.server);
      FencesStay(w, w', actor, f.pc.server, f.job.instance);
    }
  }

  lemma RowsPersist(w: World, w': World, actor: Option<Job>, i: InstanceId)
    requires Grows(w, w', actor) && i in w.db.instances
    ensures i in w'.db.instances
  {
  }

  lemma FencesStay(w: World, w': World, actor: Option<Job>, s: ServerId, i: InstanceId)
    requires Grows(w, w', actor)
    ensures Fenced(HostOf(w, s, i)) ==> Fenced(HostOf(w', s, i))
  {
  }

  lemma RecordStable(w: World, w': World, actor: Option<Job>, r: Journal.Record)
    requires Grows(w, w', actor) && RecordOk(w.db, r)
    ensures RecordOk(w'.db, r)
  {
    assert CommandEvolves(w.db.commands[r.command], w'.db.commands[r.command]);
    if r.server.Some? { PlacementStays(w, w', actor, r.instance, r.server.value); }
  }

  lemma LogStable(w: World, w': World, actor: Option<Job>, k: ControllerId)
    requires Grows(w, w', actor) && LogFits(w, k) && LogOf(w', k) == LogOf(w, k)
    ensures LogFits(w', k)
  {
    hide Grows, RecordOk;
    var current := Journal.Replay(LogOf(w, k));
    forall key | key in current ensures RecordOk(w'.db, current[key]) {
      RecordStable(w, w', actor, current[key]);
    }
  }

  /** The controller goes on with the same job, or drops it. */
  predicate SameWork(a: Activity, b: Activity) {
    b.Working? ==> a.Working? && a.frame.job == b.frame.job
  }

  lemma RequestStable(w: World, w': World, actor: Option<Job>, q: Request)
    requires Grows(w, w', actor) && RequestOk(w, q)
    requires q.origin.ByJob? ==> SameWork(Doing(w, q.origin.controller), Doing(w', q.origin.controller))
    requires q.origin.ByJob? ==> LogOf(w', q.origin.controller) == LogOf(w, q.origin.controller)
    ensures RequestOk(w', q)
  {
    hide Grows, DbInv;
    PlacementStays(w, w', actor, q.instance, q.server);
    if q.origin.ByJob? { ClaimsFade(w, w', actor, q.origin.job); }
  }

  lemma NoClaimStable(w: World, w': World, actor: Option<Job>, k: ControllerId, c: CommandId)
    requires Grows(w, w', actor) && NoClaimSent(w, k, c)
    requires forall q | q in w'.sent && q.origin.ByJob? && q.origin.controller == k :: q in w.sent
    requires forall q | q in w.sent :: RequestOk(w, q)
    ensures NoClaimSent(w', k, c)
  {
    hide Grows, DbInv;
    forall q | q in w'.sent && q.origin.ByJob? && q.origin.controller == k && q.origin.job.id == c
      ensures !HoldsClaim(w'.db, q.origin.job)
    {
      assert RequestOk(w, q);
      ClaimsFade(w, w', actor, q.origin.job);
    }
  }

  lemma ActivityStable(w: World, w': World, actor: Option<Job>, k: ControllerId)
    requires Grows(w, w', actor) && ActivityOk(w, k)
    requires Doing(w', k) == Doing(w, k) && LogOf(w', k) == LogOf(w, k)
    requires actor.Some? && Doing(w, k).Working? ==> actor.value.token != Doing(w, k).frame.job.token
    requires forall q | q in w'.sent && q.origin.ByJob? && q.origin.controller == k :: q in w.sent
    requires forall q | q in w.sent :: RequestOk(w, q)
    ensures ActivityOk(w', k)
  {
    hide Grows, DbInv, FrameOk, RecordOk, NoClaimSent, RequestOk;
    match Doing(w, k) {
      case Idle =>
      case Working(f) => FrameStable(w, w', actor, k, f);
      case Reconciling(r) =>
        RecordStable(w, w', actor, r);
        NoClaimStable(w, w', actor, k, r.command);
      case Cleaning(r) => RecordStable(w, w', actor, r);
    }
  }

  // ------------------------------------------------------------------ the kinds of move

  lemma EvolvingGrows(w: World, w': World, actor: Option<Job>)
    requires DbInv(w.db) && DbInv(w'.db) && Evolves(w.db, w'.db, actor) && (actor.Some? ==> JobOk(w.db, actor.value))
    requires w'.issued == w.issued && w'.hosts == w.hosts
    ensures Grows(w, w', actor)
  {
    hide DbInv;
  }

  lemma TokensMove(w: World, w': World, actor: Option<Job>)
    requires TokensOk(w) && Evolves(w.db, w'.db, actor) && w'.issued == w.issued
    requires forall j :: SameWork(Doing(w, j), Doing(w', j))
    ensures TokensOk(w')
  {
    forall c | c in w'.db.commands && w'.db.commands[c].status.Claimed?
      ensures w'.db.commands[c].status.token in w'.issued
    {
      assert c in w.db.commands && w.db.commands[c].status == w'.db.commands[c].status;
    }
    forall j, k | j != k && Doing(w', j).Working? && Doing(w', k).Working?
      ensures Doing(w', j).frame.job.token != Doing(w', k).frame.job.token
    {
      assert SameWork(Doing(w, j), Doing(w', j)) && SameWork(Doing(w, k), Doing(w', k));
    }
  }

  /** A transaction, a journal write or both, by a controller, which then stands at a fitting place. */
  lemma ControllerMoves(w: World, w': World, k: ControllerId, actor: Option<Job>)
    requires Inv(w)
    requires w' == w.(db := w'.db, controllers := w'.controllers, journals := w'.journals)
    requires forall j | j != k :: Doing(w', j) == Doing(w, j) && LogOf(w', j) == LogOf(w, j)
    requires DbInv(w'.db) && WithinPeak(w'.db) && Evolves(w.db, w'.db, actor)
    requires actor.Some? ==> Doing(w, k).Working? && Doing(w, k).frame.job == actor.value
    requires SameWork(Doing(w, k), Doing(w', k))
    requires ActivityOk(w', k)
    requires LogOf(w', k) != LogOf(w, k) ==> LogFits(w', k)
    requires LogOf(w', k) != LogOf(w, k) ==>
               forall q | q in w.sent && q.origin.ByJob? && q.origin.controller == k
                   && HoldsClaim(w'.db, q.origin.job) ::
                 Logged(LogOf(w', k), q.origin.job, q.server)
    ensures Inv(w') && Onward(w, w')
  {
    hide DbInv, Evolves, WithinPeak, FrameOk, LogFits, RequestOk, Grows, TokensOk, RecordOk, NoClaimSent, Logged;
    assert ActivityOk(w, k);
    if actor.Some? { assert FrameOk(w, k, Doing(w, k).frame); ActorFact(w, k, Doing(w, k).frame); }
    EvolvingGrows(w, w', actor);
    forall j ensures SameWork(Doing(w, j), Doing(w', j)) {
      if j != k { assert Doing(w', j) == Doing(w, j); }
    }
    TokensMove(w, w', actor);
    forall j ensures ActivityOk(w', j) {
      if j != k {
        assert ActivityOk(w, j);
        if actor.Some? && Doing(w, j).Working? { TokensDiffer(w, j, k); }
        ActivityStable(w, w', actor, j);
      }
    }
    forall j ensures LogFits(w', j) {
      assert LogFits(w, j);
      if LogOf(w', j) == LogOf(w, j) { LogStable(w, w', actor, j); }
    }
    forall q | q in w'.sent ensures RequestOk(w', q) {
      assert RequestOk(w, q);
      if !q.origin.ByJob? || LogOf(w', q.origin.controller) == LogOf(w, q.origin.controller) {
        RequestStable(w, w', actor, q);
      } else {
        RequestRelogged(w, w', actor, q);
      }
    }
    forall p | p in w'.replies ensures ReplyOk(w', p) { assert ReplyOk(w, p); }
    forall s, i ensures HostOk(w', s, i) {
      assert HostOk(w, s, i);
      if HostOf(w, s, i).container { PlacementStays(w, w', actor, i, s); }
    }
  }

  lemma ActorFact(w: World, k: ControllerId, f: Frame)
    requires FrameOk(w, k, f)
    ensures JobOk(w.db, f.job) && JobFits(w, f.job) && f.job.instance in w.db.instances
  {
  }

  lemma TokensDiffer(w: World, j: ControllerId, k: ControllerId)
    requires TokensOk(w) && j != k && Doing(w, j).Working? && Doing(w, k).Working?
    ensures Doing(w, j).frame.job.token != Doing(w, k).frame.job.token
  {
  }

  lemma RequestRelogged(w: World, w': World, actor: Option<Job>, q: Request)
    requires Grows(w, w', actor) && RequestOk(w, q) && q.origin.ByJob?
    requires SameWork(Doing(w, q.origin.controller), Doing(w', q.origin.controller))
    requires HoldsClaim(w'.db, q.origin.job) ==> Logged(LogOf(w', q.origin.controller), q.origin.job, q.server)
    ensures RequestOk(w', q)
  {
    hide Grows, DbInv, Logged;
    PlacementStays(w, w', actor, q.instance, q.server);
    ClaimsFade(w, w', actor, q.origin.job);
  }

  /** A transaction by nobody in particular: recovery, enqueueing, the API. */
  lemma BackgroundMoves(w: World, w': World)
    requires Inv(w) && w' == w.(db := w'.db)
    requires DbInv(w'.db) && WithinPeak(w'.db) && Evolves(w.db, w'.db, None)
    ensures Inv(w') && Onward(w, w')
  {
    hide DbInv, Evolves, WithinPeak, FrameOk, LogFits, RequestOk, Grows, TokensOk, RecordOk, NoClaimSent;
    EvolvingGrows(w, w', None);
    assert ActivityOk(w, 0);
    ActivityStable(w, w', None, 0);
    ControllerMoves(w, w', 0, None);
  }
}
