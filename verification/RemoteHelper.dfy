/** The forced command on a challenge host: what each operation may do to one instance's files and
    container, and what it may answer. A missing answer stands for an error or a lost connection. */
module RemoteHelper {
  import opened Options

  datatype Operation = EnsureInstance | InspectInstance | StopInstance | UpdateDeadline

  /** One instance UUID on one host: does its container exist, the generation in its state file,
      the generation in its permanent tombstone. */
  datatype Helper = Helper(container: bool, state: Option<nat>, tombstone: Option<nat>)

  const PRISTINE := Helper(false, None, None)

  datatype Result = Result(
    absent: bool,
    ready: bool,
    stale: bool,
    hasContainerId: bool,
    generation: Option<nat>,
    expiresAt: Option<int>)

  /** Nothing runs, and nothing can ever be launched again. */
  predicate Fenced(h: Helper) { h.tombstone.Some? && !h.container }

  /** `ensure-instance` would create or keep the workload of generation `g`. */
  predicate CanLaunch(h: Helper, g: nat) {
    h.tombstone.None? && (if h.container then h.state == Some(g) else h.state.None? || h.state.value <= g)
  }

  predicate Refused(out: Option<Result>) { out.Some? && out.value.stale }

  /** `remove_irrecoverable_instance_unlocked`, possibly interrupted after its tombstone. */
  predicate Irrecoverable(h: Helper, h': Helper, out: Option<Result>) {
    && h.container && h.state.None?
    && h'.tombstone.Some?
    && (out.Some? ==> out.value.absent && h' == Helper(false, None, h'.tombstone))
    && (out.None? ==> h'.state.None?)
  }

  /** `elapsed`: the host's clock has reached the deadline of the request, which is then an error. */
  predicate EnsureStep(h: Helper, g: nat, elapsed: bool, h': Helper, out: Option<Result>) {
    if h.tombstone.Some? then h' == h && (out.Some? ==> Refused(out) && out.value.absent == !h.container)
    else if elapsed then h' == h && out.None?
    else
      || (h' == h && out.None?)
      || (Irrecoverable(h, h', out) && (out.Some? ==> Refused(out)))
      || (h' == h && !CanLaunch(h, g) && Refused(out) && !out.value.absent)
      || (CanLaunch(h, g) && h' == Helper(true, Some(g), None)
          && (out.Some? ==> !out.value.stale && out.value.generation == Some(g)))
      // the launch failed: the new container was removed again, or it was not
      || (CanLaunch(h, g) && out.None? && h'.tombstone.None?
          && (h'.state == h.state || h'.state.None? || h'.state == Some(g)))
  }

  predicate StopStep(h: Helper, g: nat, h': Helper, out: Option<Result>) {
    || (h' == h && out.None?)
    || (Irrecoverable(h, h', out) && (out.Some? ==> !out.value.stale))
    || (h.state.Some? && h.state.value > g && h' == h && Refused(out) && !out.value.absent)
    || ((h.state.None? || h.state.value <= g) && h'.tombstone.Some? && h'.tombstone.value >= g
        && (if out.Some? then h' == Helper(false, None, h'.tombstone) && out.value.absent && !out.value.stale
            else (h'.container ==> h.container) && (h'.state == h.state || h'.state.None?)))
  }

  predicate DeadlineStep(h: Helper, g: nat, h': Helper, out: Option<Result>) {
    if h.tombstone.Some? then h' == h && (out.Some? ==> Refused(out))
    else
      || (h' == h && out.None?)
      || (Irrecoverable(h, h', out) && (out.Some? ==> Refused(out)))
      || (h.container && h.state.Some? && h.state.value > g && h' == h && Refused(out))
      || (h.container && h.state.Some? && h.state.value <= g && h' == h.(state := Some(g))
          && (out.Some? ==> !out.value.stale && !out.value.absent && out.value.generation == Some(g)))
  }

  predicate InspectStep(h: Helper, h': Helper, out: Option<Result>) {
    || (h' == h && (out.Some? ==>
        out.value.absent == !h.container && (h.container ==> out.value.generation == h.state)))
    || (Irrecoverable(h, h', out) && (out.Some? ==> !out.value.ready))
  }

  predicate HelperStep(op: Operation, h: Helper, g: nat, elapsed: bool, h': Helper, out: Option<Result>) {
    match op
    case EnsureInstance => EnsureStep(h, g, elapsed, h', out)
    case StopInstance => StopStep(h, g, h', out)
    case UpdateDeadline => DeadlineStep(h, g, h', out)
    case InspectInstance => InspectStep(h, h', out)
  }

  /** What the host does by itself: expiry timers and sweeps fence the UUID, containers may vanish. */
  predicate HostStep(h: Helper, h': Helper) {
    || (h'.tombstone.Some? && (h'.container ==> h.container) && (h'.state == h.state || h'.state.None?))
    || h' == h.(container := false)
  }

  /** A tombstone is permanent, a fenced UUID stays fenced, and only an `ensure-instance` the helper
      accepts, before its deadline, creates a container. */
  lemma HelperNeverForgets(op: Operation, h: Helper, g: nat, elapsed: bool, h': Helper, out: Option<Result>)
    requires HelperStep(op, h, g, elapsed, h', out)
    ensures h.tombstone.Some? ==> h'.tombstone.Some?
    ensures Fenced(h) ==> Fenced(h')
    ensures h'.container && !h.container ==> op.EnsureInstance? && CanLaunch(h, g) && !elapsed
    ensures op.StopInstance? && out.Some? && out.value.absent && !out.value.stale ==> Fenced(h')
  {
  }

  /** The operation may be answered as carried out: neither refused nor an error. */
  ghost predicate MayBeAccepted(op: Operation, h: Helper, g: nat, elapsed: bool) {
    exists h', out :: HelperStep(op, h, g, elapsed, h', out) && out.Some? && !out.value.stale
  }

  /** Which requests the helper can carry out: a launch of a UUID that was never fenced, before its deadline and
      not behind a newer state; a stop unless the state is newer, even of a UUID that is fenced already; a new
      deadline for a container that is there and not newer; an inspection always. */
  lemma AcceptedExactly(op: Operation, h: Helper, g: nat, elapsed: bool)
    ensures MayBeAccepted(op, h, g, elapsed) <==>
            match op
            case EnsureInstance =>
              && h.tombstone.None? && !elapsed
              && (if h.container then h.state == Some(g) else h.state.None? || h.state.value <= g)
            case StopInstance => h.state.None? || h.state.value <= g
            case UpdateDeadline => h.tombstone.None? && h.container && h.state.Some? && h.state.value <= g
            case InspectInstance => true
  {
    var answer := Result(false, true, false, true, Some(g), None);
    match op
    case EnsureInstance =>
      assert CanLaunch(h, g) && !elapsed ==>
          HelperStep(op, h, g, elapsed, Helper(true, Some(g), None), Some(answer));
    case StopInstance =>
      var fenced := Helper(false, None, Some(g));
      assert h.state.None? || h.state.value <= g ==>
          HelperStep(op, h, g, elapsed, fenced, Some(answer.(absent := true)));
    case UpdateDeadline =>
      assert h.tombstone.None? && h.container && h.state.Some? && h.state.value <= g ==>
          HelperStep(op, h, g, elapsed, h.(state := Some(g)), Some(answer));
    case InspectInstance =>
      assert HelperStep(op, h, g, elapsed, h, Some(answer.(absent := !h.container, generation := h.state)));
  }

  /** What a request that was carried out leaves: an answered launch runs at its own generation, an answered stop
      has removed everything but a tombstone, and an answered deadline has only moved the state's generation. */
  lemma AnsweredEffect(op: Operation, h: Helper, g: nat, elapsed: bool, h': Helper, out: Option<Result>)
    requires HelperStep(op, h, g, elapsed, h', out) && out.Some? && !out.value.stale
    ensures op.EnsureInstance? ==> h' == Helper(true, Some(g), None) && out.value.generation == Some(g)
    ensures op.StopInstance? ==> out.value.absent && !h'.container && h'.state.None? && h'.tombstone.Some?
    ensures op.UpdateDeadline? ==> h' == h.(state := Some(g)) && out.value.generation == Some(g)
    ensures op.InspectInstance? && h' == h ==>
              out.value.absent == !h.container && (h.container ==> out.value.generation == h.state)
    ensures op.InspectInstance? && h' != h ==> h.container && h.state.None? && Fenced(h') && !out.value.ready
  {
  }

  lemma HostNeverLaunches(h: Helper, h': Helper)
    requires HostStep(h, h')
    ensures Fenced(h) ==> Fenced(h')
    ensures h'.container ==> h.container
  {
  }
}
