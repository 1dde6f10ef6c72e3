/** Generating, repairing and rotating a host's SSH identity in one directory. After a power failure every
    directory entry may independently be what it was at the last directory fsync or anything it has been
    since; after a crash of the process alone everything is as it was. */
module IdentityKeys {
  import opened Options

  type KeyId = nat

  datatype Private = NoPrivate | Key(id: KeyId) | BadPrivate
  datatype Public = NoPublic | Of(id: KeyId) | BadPublic

  /** The directory as programs see it; the pending files are only ever used by the attempt that made them. */
  datatype Dir = Dir(private: Private, public: Public, pendingPrivate: Private, pendingPublic: Public, marker: bool)

  /** ... and what a power failure may leave of the installed files and of the rotation marker. */
  datatype Disk = Disk(dir: Dir, privates: set<Private>, publics: set<Public>, markers: set<bool>)

  /** An empty directory, or none. */
  predicate Nothing(d: Dir) { d == Dir(NoPrivate, NoPublic, NoPrivate, NoPublic, false) }

  predicate Coherent(d: Disk) { d.dir.private in d.privates && d.dir.public in d.publics && d.dir.marker in d.markers }

  /** A power failure: the survivors are durable, pending files may be anything. */
  predicate PowerLoss(d: Disk, d': Disk) {
    && d'.dir.private in d.privates && d'.dir.public in d.publics && d'.dir.marker in d.markers
    && d'.privates == {d'.dir.private} && d'.publics == {d'.dir.public} && d'.markers == {d'.dir.marker}
  }

  function PutPrivate(d: Disk, p: Private): Disk { d.(dir := d.dir.(private := p), privates := d.privates + {p}) }
  function PutPublic(d: Disk, p: Public): Disk { d.(dir := d.dir.(public := p), publics := d.publics + {p}) }
  function PutMarker(d: Disk,
                     marker: bool): Disk { d.(dir := d.dir.(marker := marker), markers := d.markers + {marker}) }
  function PutPending(d: Disk, p: Private,
                      q: Public): Disk { d.(dir := d.dir.(pendingPrivate := p, pendingPublic := q)) }

  /** `fsync_directory`. */
  function Synced(d: Disk): Disk { Disk(d.dir, {d.dir.private}, {d.dir.public}, {d.dir.marker}) }

  /** The key is retired: wherever it may still be installed, the rotation marker is durably present. */
  predicate Retired(d: Disk, k: KeyId) { Key(k) in d.privates ==> d.markers == {true} }

  /** No crash un-retires a key. */
  lemma RetiredSurvivesPowerLoss(d: Disk, d': Disk, k: KeyId)
    requires Retired(d, k) && PowerLoss(d, d')
    ensures Retired(d', k) && Coherent(d')
  {
  }

  /** A state that un-retires none of the keys. */
  ghost predicate Guards(keys: set<KeyId>, d: Disk, d': Disk) {
    forall k | k in keys && Retired(d, k) :: Retired(d', k)
  }

  /** No state from moment `n` on un-retires a key that was retired in `d`. */
  ghost predicate AllGuard(keys: set<KeyId>, d: Disk, history: seq<Disk>, n: nat) {
    forall i | n <= i < |history| :: Guards(keys, d, history[i])
  }

  lemma GuardsThrough(keys: set<KeyId>, d: Disk, mid: Disk, history: seq<Disk>, n: nat, m: nat)
    requires n <= m <= |history| && Guards(keys, d, mid)
    requires AllGuard(keys, d, history[..m], n) && AllGuard(keys, mid, history, m)
    ensures AllGuard(keys, d, history, n)
  {
    forall i | n <= i < |history| ensures Guards(keys, d, history[i]) {
      if i < m { assert history[..m][i] == history[i]; }
    }
  }

  // ------------------------------------------------------------------ deletions

  /** No power failure in any state from moment `n` on un-retires the key. */
  ghost predicate OutlivesPowerLoss(history: seq<Disk>, n: nat, k: KeyId) {
    forall i, survivor | n <= i < |history| && PowerLoss(history[i], survivor) :: Retired(survivor, k)
  }

  /** The marker is visible in every state from moment `n` on. */
  predicate MarkerStays(history: seq<Disk>, n: nat) { forall i | n <= i < |history| :: history[i].dir.marker }

  /** The states of a deletion that begins with disk `d` at moment `n` and removes the marker at moment `cut`,
      if it gets there: until the last one, which is synced, nothing is durable. */
  predicate Deletes(d: Disk, history: seq<Disk>, n: nat, cut: nat) {
    && n <= cut <= |history|
    && (forall i | n <= i < |history| ::
          Coherent(history[i]) && history[i].privates <= d.privates + {NoPrivate} && history[i].dir.private.NoPrivate?)
    && (forall i | n <= i < cut :: history[i].markers == d.markers && history[i].dir.marker == d.dir.marker)
    && (cut < |history| ==> history[cut].privates == d.privates + {NoPrivate} && !history[cut].dir.marker)
  }

  /** When a power failure interrupts the deletion after the marker has gone, a retired key may be there
      again without it. */
  lemma DeletionMayUnretire(d: Disk, history: seq<Disk>, n: nat, cut: nat, k: KeyId) returns (survivor: Disk)
    requires Deletes(d, history, n, cut) && cut < |history| && Key(k) in d.privates
    ensures PowerLoss(history[cut], survivor) && survivor.dir.private == Key(k) && !survivor.dir.marker
    ensures !Retired(survivor, k)
  {
    survivor := Synced(history[cut].(dir := history[cut].dir.(private := Key(k))));
    assert Key(k) in history[cut].privates;
    assert false in survivor.markers;
  }

  /** A deletion keeps a retired key retired exactly when the key was durably gone before it, or the deletion
      never gets to the marker. */
  lemma UnmarkingIsHarmlessExactlyWithoutTheKey(d: Disk, history: seq<Disk>, n: nat, cut: nat, k: KeyId)
    requires Deletes(d, history, n, cut) && Coherent(d) && Retired(d, k)
    ensures OutlivesPowerLoss(history, n, k) <==> Key(k) !in d.privates || MarkerStays(history, n)
  {
    if Key(k) in d.privates {
      if cut < |history| {
        var survivor := DeletionMayUnretire(d, history, n, cut, k);
      } else {
        assert d.dir.marker;
        forall i, survivor | n <= i < |history| && PowerLoss(history[i], survivor) ensures Retired(survivor, k) {
          assert survivor.dir.marker in {true};
        }
      }
    }
  }

  lemma NothingDeleted(d: Disk, history: seq<Disk>)
    ensures Deletes(d, history, |history|, |history|)
  {
  }

  /** One more state of a deletion that has not come to the marker. */
  lemma DeletesOn(d: Disk, history: seq<Disk>, n: nat, next: Disk)
    requires Deletes(d, history, n, |history|) && Coherent(next) && next.privates <= d.privates + {NoPrivate}
    requires next.markers == d.markers && next.dir.marker == d.dir.marker
    requires next.dir.private.NoPrivate?
    ensures Deletes(d, history + [next], n, |history| + 1)
  {
  }

  lemma Unmarks(d: Disk, history: seq<Disk>, n: nat, next: Disk)
    requires Deletes(d, history, n, |history|) && Coherent(next)
    requires next.privates == d.privates + {NoPrivate} && !next.dir.marker
    requires next.dir.private.NoPrivate?
    ensures Deletes(d, history + [next], n, |history|)
  {
  }

  lemma AfterUnmarking(d: Disk, history: seq<Disk>, n: nat, cut: nat, next: Disk)
    requires Deletes(d, history, n, cut) && cut < |history| && Coherent(next)
    requires next.privates <= d.privates + {NoPrivate}
    requires next.dir.private.NoPrivate?
    ensures Deletes(d, history + [next], n, cut)
  {
  }

  /** Every key that may be installed was once generated. */
  ghost predicate KnownKeys(d: Disk, used: set<KeyId>) { forall k | Key(k) in d.privates :: k in used }

  /** Whether the tools do their work this time. */
  datatype Tools = Tools(inspects: bool, repairs: bool, generates: bool)

  class IdentityStore {
    var disk: Disk
    /** Every state of the disk, oldest first: a crash may happen in any of them. */
    var history: seq<Disk>
    /** Every key that was ever generated: key generation never repeats one. */
    var used: set<KeyId>
    /** Whether any operation on a file has failed. */
    ghost var mishap: bool

    ghost predicate Valid() reads this {
      && history != [] && history[|history| - 1] == disk
      && forall i | 0 <= i < |history| :: Coherent(history[i]) && KnownKeys(history[i], used)
    }

    constructor ()
      ensures Valid() && disk == Synced(Disk(Dir(NoPrivate, NoPublic, NoPrivate, NoPublic, false), {}, {}, {}))
    {
      disk := Disk(Dir(NoPrivate, NoPublic, NoPrivate, NoPublic, false), {NoPrivate}, {NoPublic}, {false});
      history := [Disk(Dir(NoPrivate, NoPublic, NoPrivate, NoPublic, false), {NoPrivate}, {NoPublic}, {false})];
      used, mishap := {}, false;
    }

    method Store(d: Disk)
      requires Valid() && Coherent(d) && KnownKeys(d, used)
      modifies this`disk, this`history
      ensures Valid() && disk == d && history == old(history) + [d]
    {
      disk := d;
      history := history + [d];
    }

    /** `write_rotation_marker`: once it has succeeded, every key that is installed is retired. */
    method WriteRotationMarker() returns (ok: bool)
      requires Valid()
      modifies this`disk, this`history, this`mishap
      ensures Valid() && old(history) <= history && disk.dir.private == old(disk).dir.private
      ensures AllGuard(used, old(disk), history, |old(history)|)
      ensures ok ==> disk.dir.marker && forall k :: Retired(disk, k)
      ensures mishap == (old(mishap) || !ok)
    {
      if * {
        mishap := true;
        return false;
      }
      Store(PutMarker(disk, true));
      if * {
        mishap := true;
        return false;
      }
      Store(Synced(disk));
      return true;
    }

    /** `validate_existing_identity`: the key of a readable private file, after its public file was found
        to match or was rewritten. */
    method ValidateExisting(tools: Tools) returns (material: Option<KeyId>)
      requires Valid()
      modifies this`disk, this`history
      ensures Valid() && old(history) <= history
      ensures disk.dir.private == old(disk).dir.private && disk.dir.marker == old(disk).dir.marker
      ensures disk.privates <= old(disk).privates
      ensures AllGuard(used, old(disk), history, |old(history)|) && Guards(used, old(disk), disk)
      ensures forall i | |old(history)| <= i < |history| :: history[i].dir.private == old(disk).dir.private
      ensures material.Some? <==> disk.dir.private.Key? && tools.inspects
                                  && (old(disk).dir.public == Of(disk.dir.private.id) || tools.repairs)
      ensures material.Some? ==> disk.dir.private == Key(material.value) && disk.dir.public == Of(material.value)
    {
      if !tools.inspects || !disk.dir.private.Key? { return None; }
      var k := disk.dir.private.id;
      if disk.dir.public != Of(k) {
        // the file is rewritten in place: until it is synced it may hold anything
        Store(PutPublic(disk, BadPublic));
        if !tools.repairs { return None; }
        Store(PutPublic(disk, Of(k)));
        Store(Synced(disk));
      }
      return Some(k);
    }

    /** The old files are removed, and `ssh-keygen` makes a key that never was before. */
    method MakePending(tools: Tools, newKey: KeyId) returns (ok: bool)
      requires Valid() && newKey !in used
      modifies this
      ensures Valid() && old(history) <= history && used == old(used) + if ok then {newKey} else {}
      ensures AllGuard(old(used), old(disk), history, |old(history)|) && Guards(old(used), old(disk), disk)
      ensures disk.dir.marker == old(disk).dir.marker
      ensures ok ==> disk.dir.pendingPrivate == Key(newKey) && disk.dir.pendingPublic == Of(newKey)
      ensures (old(mishap) ==> mishap) && (!ok && tools.generates ==> mishap)
    {
      if * {
        mishap := true;
        return false;
      }
      Store(PutPrivate(disk, NoPrivate));
      if * {
        mishap := true;
        return false;
      }
      Store(PutPublic(disk, NoPublic));
      Store(PutPending(disk, NoPrivate, NoPublic));
      if !tools.generates { return false; }
      used := used + {newKey};
      Store(PutPending(disk, Key(newKey), Of(newKey)));
      return true;
    }

    /** The pending files are installed, and only then is the marker removed. */
    method Install(tools: Tools, newKey: KeyId) returns (material: Option<KeyId>)
      requires Valid() && newKey in used
      requires disk.dir.pendingPrivate == Key(newKey) && disk.dir.pendingPublic == Of(newKey)
      modifies this`disk, this`history, this`mishap
      ensures Valid() && old(history) <= history
      ensures AllGuard(used - {newKey}, old(disk), history, |old(history)|)
      ensures material.Some? ==>
                material == Some(newKey) && disk.dir.private == Key(newKey) && disk.dir.public == Of(newKey)
                    && !disk.dir.marker
      ensures (old(mishap) ==> mishap) && (material.None? && tools.inspects ==> mishap)
    {
      var placed := PlaceFiles(newKey);
      if !placed { return None; }
      ghost var installed, moment := disk, |history|;
      material := ValidateExisting(tools);
      GuardsThrough(used - {newKey}, old(disk), installed, history, |old(history)|, moment);
      if material.None? { return; }
      ghost var validated, later := disk, |history|;
      var ok := RemoveMarker(newKey);
      GuardsThrough(used - {newKey}, old(disk), validated, history, |old(history)|, later);
      if !ok { return None; }
    }

    /** The pending files take the places of the installed ones, durably. */
    method PlaceFiles(newKey: KeyId) returns (ok: bool)
      requires Valid() && newKey in used
      requires disk.dir.pendingPrivate == Key(newKey) && disk.dir.pendingPublic == Of(newKey)
      modifies this`disk, this`history, this`mishap
      ensures Valid() && old(history) <= history && mishap == (old(mishap) || !ok)
      ensures AllGuard(used - {newKey}, old(disk), history, |old(history)|)
      ensures ok ==>
                && Guards(used - {newKey}, old(disk), disk)
                && disk == Synced(disk) && disk.dir.private == Key(newKey) && disk.dir.public == Of(newKey)
    {
      Store(PutPublic(PutPending(disk, disk.dir.pendingPrivate, NoPublic), disk.dir.pendingPublic));
      if * {
        mishap := true;
        return false;
      }
      Store(PutPrivate(PutPending(disk, NoPrivate, NoPublic), disk.dir.pendingPrivate));
      if * {
        mishap := true;
        return false;
      }
      Store(Synced(disk));
      return true;
    }

    /** Once only the new key is installed, durably, the marker guards no other key. */
    method RemoveMarker(newKey: KeyId) returns (ok: bool)
      requires Valid() && disk.dir.private == Key(newKey) && disk.privates == {Key(newKey)}
      modifies this`disk, this`history, this`mishap
      ensures Valid() && old(history) <= history
      ensures AllGuard(used - {newKey}, old(disk), history, |old(history)|)
      ensures ok ==> disk.dir == old(disk).dir.(marker := false)
      ensures mishap == (old(mishap) || !ok)
    {
      if * {
        mishap := true;
        return false;
      }
      Store(PutMarker(disk, false));
      if * {
        mishap := true;
        return false;
      }
      Store(Synced(disk));
      return true;
    }

    /** `generate_identity_blocking`. It may fail at every file operation, and a crash may happen in every
        state it passes through. It never returns a retired key and un-retires none; without a rotation
        marker it returns the key that is installed, as long as that can be inspected and its public file
        matches or can be rewritten; and what it returns is the installed key, with the public file that
        belongs to it. */
    method Generate(tools: Tools, newKey: KeyId) returns (material: Option<KeyId>)
      requires Valid() && newKey !in used
      modifies this
      ensures Valid() && old(history) <= history && old(used) <= used <= old(used) + {newKey}
      ensures AllGuard(old(used), old(disk), history, |old(history)|)
      ensures forall k | k in old(used) && Retired(old(disk), k) :: material != Some(k)
      ensures !old(disk).dir.marker && old(disk).dir.private.Key? && tools.inspects
              && (old(disk).dir.public == Of(old(disk).dir.private.id) || tools.repairs) ==>
                && material == Some(old(disk).dir.private.id)
                && forall i | |old(history)| <= i < |history| :: history[i].dir.private == old(disk).dir.private
      ensures material.Some? ==>
                disk.dir.private == Key(material.value) && disk.dir.public == Of(material.value) && !disk.dir.marker
      ensures material.Some? && old(disk).dir.marker ==> material == Some(newKey)
      ensures (old(mishap) ==> mishap) && (material.None? && tools.generates && tools.inspects ==> mishap)
    {
      var rotationRequired := disk.dir.marker;
      if !disk.dir.private.NoPrivate? && !rotationRequired {
        material := ValidateExisting(tools);
        if material.Some? { return; }
      }
      ghost var validated, moment := disk, |history|;
      var ok := MakePending(tools, newKey);
      GuardsThrough(old(used), old(disk), validated, history, |old(history)|, moment);
      if !ok { return None; }
      ghost var made, later := disk, |history|;
      material := Install(tools, newKey);
      assert old(used) == used - {newKey};
      GuardsThrough(old(used), old(disk), made, history, |old(history)|, later);
    }

    /** A crash in state `i`, of the process alone or with the power. */
    method Crash(i: nat, survivor: Disk)
      requires Valid() && i < |history| && (survivor == history[i] || PowerLoss(history[i], survivor))
      modifies this`disk, this`history
      ensures Valid() && history == old(history) + [survivor] && disk == survivor
    {
      Store(survivor);
    }

    /** `delete_identity_blocking`: the entries go one by one, the private key first and the marker last, and
        then the directory. In every state a retired key that is still visible is still marked. But nothing
        is synced between the two removals: a completed deletion has a state in which a power failure
        un-retires a key, unless the key was durably gone before or there was no directory. */
    method Delete() returns (ok: bool)
      requires Valid()
      modifies this`disk, this`history, this`mishap
      ensures Valid() && old(history) <= history
      ensures forall i, k | |old(history)| <= i < |history| && Retired(old(disk), k)
                && history[i].dir.private == Key(k) ::
                history[i].dir.marker
      ensures forall k | Retired(old(disk), k) ::
                OutlivesPowerLoss(history, |old(history)|, k)
                <==> Key(k) !in old(disk).privates || MarkerStays(history, |old(history)|)
      ensures ok && !Nothing(old(disk).dir) ==> !MarkerStays(history, |old(history)|) && disk == Synced(disk)
      ensures ok ==> disk.dir.private.NoPrivate? && disk.dir.public.NoPublic? && !disk.dir.marker
      ensures mishap == (old(mishap) || !ok)
    {
      if Nothing(disk.dir) {
        // there may be no directory
        if * { return true; }
      }
      ghost var d, n := disk, |history|;
      ghost var cut: nat;
      ok, cut := DeleteEntries(d, n);
      forall k | Retired(d, k)
        ensures OutlivesPowerLoss(history, n, k) <==> Key(k) !in d.privates || MarkerStays(history, n)
      {
        UnmarkingIsHarmlessExactlyWithoutTheKey(d, history, n, cut, k);
      }
    }

    method DeleteEntries(ghost d: Disk, ghost n: nat) returns (ok: bool, ghost cut: nat)
      requires Valid() && disk == d && n == |history|
      modifies this`disk, this`history, this`mishap
      ensures Valid() && old(history) <= history && Deletes(d, history, n, cut)
      ensures forall i | n <= i < |history| :: history[i].dir.private.NoPrivate?
      ensures mishap == (old(mishap) || !ok)
      ensures ok ==> !MarkerStays(history, n)
      ensures ok ==>
                disk == Synced(disk) && disk.dir.private.NoPrivate? && disk.dir.public.NoPublic? && !disk.dir.marker
    {
      ok := DeleteKeys(d, n);
      cut := |history|;
      if !ok { return; }
      Unmarks(d, history, n, PutMarker(disk, false));
      Store(PutMarker(disk, false));
      if * {
        mishap := true;
        return false, cut;
      }
      AfterUnmarking(d, history, n, cut, Synced(disk));
      Store(Synced(disk));
      return true, cut;
    }

    method DeleteKeys(ghost d: Disk, ghost n: nat) returns (ok: bool)
      requires Valid() && disk == d && n == |history|
      modifies this`disk, this`history, this`mishap
      ensures Valid() && old(history) <= history && Deletes(d, history, n, |history|)
      ensures mishap == (old(mishap) || !ok)
      ensures ok ==>
                disk.dir.private.NoPrivate? && disk.dir.public.NoPublic? && disk.privates == d.privates + {NoPrivate}
    {
      hide Deletes;
      NothingDeleted(d, history);
      if * {
        mishap := true;
        return false;
      }
      DeletesOn(d, history, n, PutPrivate(disk, NoPrivate));
      Store(PutPrivate(disk, NoPrivate));
      if * {
        mishap := true;
        return false;
      }
      DeletesOn(d, history, n, PutPublic(disk, NoPublic));
      Store(PutPublic(disk, NoPublic));
      DeletesOn(d, history, n, PutPending(disk, NoPrivate, NoPublic));
      Store(PutPending(disk, NoPrivate, NoPublic));
      if * {
        mishap := true;
        return false;
      }
      return true;
    }

    /** Any number of attempts, each of which may crash in any of its states: a key that was retired before
        them is returned by none, and is still retired afterwards. */
    method AttemptRepeatedly(turns: seq<Turn>, ghost k: KeyId) returns (returned: seq<KeyId>)
      requires Valid() && k in used && Retired(disk, k)
      requires forall m | 0 <= m < |turns| :: turns[m].newKey !in used
      requires forall m, n | 0 <= m < n < |turns| :: turns[m].newKey != turns[n].newKey
      modifies this
      ensures Valid() && Retired(disk, k) && k !in returned
    {
      returned := [];
      for m := 0 to |turns|
        invariant Valid() && k in used && Retired(disk, k) && k !in returned
        invariant forall n | m <= n < |turns| :: turns[n].newKey !in used
      {
        var turn, moment := turns[m], |history|;
        ghost var before, keys := disk, used;
        var material := Generate(turn.tools, turn.newKey);
        assert AllGuard(keys, before, history, moment);
        match turn.crash {
          case Some((i, survivor)) =>
            if moment <= i < |history| && (survivor == history[i] || PowerLoss(history[i], survivor)) {
              assert Guards(keys, before, history[i]);
              Crash(i, survivor);
            }
          case None =>
            if material.Some? { returned := returned + [material.value]; }
        }
        if |history| > moment && turn.crash.None? { assert Guards(keys, before, history[|history| - 1]); }
      }
    }
  }

  /** One attempt: what the tools do, the key that would be generated, and where it crashes into what. */
  datatype Turn = Turn(tools: Tools, newKey: KeyId, crash: Option<(nat, Disk)>)
}
