/** `OperationJournal`: the controller's journal, appended to and compacted in place. Every file
    operation may fail, and a crash may leave any content the file has had. */
module OperationJournal {
  import opened Options
  import opened Json
  import opened TextEncoding
  import opened Journal
  import opened JournalFile
  import RemoteHelper
  import RuntimeRows
  import RuntimeProtocol

  class OperationJournal {
    /** How records are written. */
    const encode: Encoding
    /** What is at the journal's path now. */
    var file: File
    /** Every content the path has had, oldest first: what a crash at that moment leaves. */
    ghost var history: seq<File>
    /** Whether a record has ever been written behind an unterminated line or to a file that cannot be read. */
    ghost var lost: bool
    /** Whether a record has ever been written whose text is not ASCII. */
    ghost var wide: bool

    ghost predicate Valid() reads this { Sound(encode) && history != [] && history[|history| - 1] == file }

    /** `open`: the file is created empty when it is missing, and otherwise left as it is. */
    constructor (encode: Encoding, existing: Option<File>)
      requires Sound(encode)
      ensures Valid() && history == [file] && !lost && !wide && this.encode == encode
      ensures file == existing.GetOr(File([], Terminated))
    {
      this.encode := encode;
      file := existing.GetOr(File([], Terminated));
      history := [existing.GetOr(File([], Terminated))];
      lost, wide := false, false;
    }

    method Store(content: File)
      requires Valid()
      modifies this`file, this`history
      ensures Valid() && file == content && history == old(history) + [content]
    {
      file := content;
      history := history + [content];
    }

    /** `current_unacknowledged`: an error when the file is not UTF-8 throughout. */
    method CurrentUnacknowledged() returns (read: Option<map<Key, Record>>)
      ensures read == Current(file)
    {
      if !Readable(file) { return None; }
      var current: map<Key, Record> := map[];
      for i := 0 to |file.lines|
        invariant current == Replay(Entries(file.lines[..i]))
      {
        assert file.lines[..i + 1] == file.lines[..i] + [file.lines[i]];
        EntriesAppend(file.lines[..i], file.lines[i]);
        match file.lines[i] {
          case Entry(record) =>
            ReplayAppend(Entries(file.lines[..i]), record);
            current := Take(current, record);
          case Unreadable(_) =>
            assert Entries(file.lines[..i + 1]) == Entries(file.lines[..i]);
        }
      }
      assert file.lines[..|file.lines|] == file.lines;
      match file.tail {
        case Unended(record) =>
          ReplayAppend(Entries(file.lines), record);
          current := Take(current, record);
        case _ =>
          assert Records(file) == Entries(file.lines);
      }
      return Some(current);
    }

    static method Take(current: map<Key, Record>, read: Record) returns (next: map<Key, Record>)
      ensures next == Apply(current, read)
    {
      var record := Redact(read);
      var key := (record.instance, record.command);
      if record.phase.DatabaseAcknowledged? {
        next := current - {key};
      } else {
        next := current[key := record];
      }
    }

    /** `append_locked`: the record, redacted, then its newline, then fsync. */
    method AppendLocked(record: Record) returns (ok: bool)
      requires Valid()
      modifies this
      ensures Valid() && old(history) <= history
      ensures lost == (old(lost) || !Intact(old(file))) && wide == (old(wide) || !Ascii(encode(Redact(record))))
      ensures ok ==> file == Extended(encode, old(file), Redact(record)) && file.tail.Terminated?
      ensures forall n | |old(history)| <= n < |history| ::
                Interruption(encode, old(file), Redact(record), history[n])
      ensures ok ==> Completed(old(file), record, Current(file))
      ensures forall n | |old(history)| <= n < |history| :: Interrupted(old(file), record, history[n], wide)
    {
      hide Readable, Ascii, CutShort, Extended, Interruption, Interrupted, Completed, Redact, Utf8;
      var persisted := Redact(record);
      var before := file;
      lost := lost || !Intact(before);
      wide := wide || !Ascii(encode(persisted));
      var k: nat := *;
      if k > |encode(persisted)| + 1 { k := 0; }
      CutInterrupts(encode, before, persisted, k);
      Store(CutShort(encode, before, persisted, k));
      AppendIsInterrupted(encode, before, record, file, wide);
      var interrupted: bool := *;
      if !interrupted {
        CutInterrupts(encode, before, persisted, |encode(persisted)| + 1);
        ExtendedIsUncut(encode, before, persisted);
        Store(Extended(encode, before, persisted));
        ok := *;
        AppendCompletes(encode, before, record);
        AppendIsInterrupted(encode, before, record, file, wide);
      } else {
        ok := false;
      }
    }

    /** `append`: acknowledgements and degraded clean-ups compact at once, other records when the file has
        grown; a compaction that fails is only reported. Whatever is interrupted, an intact file replays to
        what it replayed to before or to that with the record applied, or, when the record's text is not ASCII,
        it may have become unreadable. Behind a torn tail the record is lost, though the append succeeds, and so
        is a record that only lacked its newline. A file that cannot be read stays so. */
    method Append(record: Record) returns (ok: bool)
      requires Valid()
      modifies this
      ensures Valid() && old(history) <= history
      ensures lost == (old(lost) || !Intact(old(file))) && wide == (old(wide) || !Ascii(encode(Redact(record))))
      ensures ok ==> file.tail.Terminated?
      ensures ok ==> Completed(old(file), record, Current(file))
      ensures forall n | |old(history)| <= n < |history| :: Interrupted(old(file), record, history[n], wide)
    {
      hide Readable, Ascii, Interruption, Extended, Completed, Interrupted, CleanFile;
      ok := AppendLocked(record);
      if !ok { return; }
      var large: bool := *;
      if record.phase.DatabaseAcknowledged? || record.phase.DegradedCleanup? || large {
        ghost var written, moment := file, |history|;
        var compacted := CompactLocked();
        forall n | moment <= n < |history| ensures Interrupted(old(file), record, history[n], wide) {
          SameReading(old(file), record, written, history[n], wide);
        }
      }
    }

    /** `compact_locked`: at every moment of it the same is read from the file; a file that cannot be read is left
        as it is. */
    method CompactLocked() returns (ok: bool)
      requires Valid()
      modifies this`file, this`history
      ensures Valid() && old(history) <= history
      ensures forall n | |old(history)| <= n < |history| :: Current(history[n]) == Current(old(file))
      ensures CleanFile(old(file)) ==> forall n | |old(history)| <= n < |history| :: CleanFile(history[n])
      ensures file == old(file) || Intact(file)
      ensures !Readable(old(file)) ==> !ok && history == old(history)
      ensures ok ==> exists records :: Lists(records, Replayed(old(file))) && Ordered(records)
                                       && file == File(Written(records), Terminated)
    {
      var current := CurrentUnacknowledged();
      if current.None? { return false; }
      ReplayWellFormed(Records(file));
      var records := IntoValues(current.value);
      records := SortRecords(records, current.value);
      var replacement := File(Written(records), Terminated);
      CompactedReads(file, records);
      hide Readable, Records, Lists, Ordered, CleanFile, Written;
      // the temporary file may not be created, written or synced; the journal is untouched
      if * { return false; }
      // rename, then a directory fsync without which a crash may still find the old file
      Store(replacement);
      ok := *;
    }

    /** One record of `cleanup_overdue_without_database`. */
    method StopIfOverdue(record: Record, now: int)
      returns (stopped: bool, ok: bool, ghost answer: Option<RemoteHelper.Result>)
      requires Valid()
      modifies this
      ensures Valid() && old(history) <= history && (old(wide) ==> wide)
      ensures stopped <==> Overdue(record, now) && Confirms(answer)
      ensures Intact(old(file)) && KeyOf(record) in Replayed(old(file))
                && Replayed(old(file))[KeyOf(record)] == record ==>
                && (ok ==> Intact(file))
                && (ok ==> OneStopped(Replayed(old(file)), Replayed(file), KeyOf(record), stopped, now))
                && forall n | |old(history)| <= n < |history| ::
                     if Readable(history[n])
                     then MaybeStopped(Replayed(old(file)), Replayed(history[n]), KeyOf(record), now)
                     else wide
    {
      stopped, ok, answer := false, true, None;
      ghost var was := Replayed(file);
      if KeyOf(record) in was && was[KeyOf(record)] == record {
        assert OneStopped(was, was, KeyOf(record), false, now);
      }
      if record.phase.DegradedCleanup? || record.expiresAt > now || record.server.None? { return; }
      var received: Option<RemoteHelper.Result> := *;
      answer := received;
      if received.Some? && (received.value.absent || received.value.stale) {
        var payload: Json := *;
        var kept := record.(phase := DegradedCleanup, result := received, payload := Some(payload), updatedAt := now);
        stopped := true;
        ok := Append(kept);
        if KeyOf(record) in was && was[KeyOf(record)] == record {
          assert OneStopped(was, Apply(was, kept), KeyOf(record), true, now);
          assert MaybeStopped(was, Apply(was, kept), KeyOf(record), now) && MaybeStopped(was, was, KeyOf(record), now);
        }
      }
    }

    /** `cleanup_overdue_without_database`: at every moment of it, and after it, an intact file still replays every
        operation, unless a record whose text is not ASCII was cut; a file that cannot be read is an error. */
    method CleanupOverdueWithoutDatabase(now: int)
      returns (cleaned: nat, ok: bool, ghost answers: map<Key, Option<RemoteHelper.Result>>)
      requires Valid()
      modifies this
      ensures Valid() && old(history) <= history && (old(wide) ==> wide)
      ensures !Readable(old(file)) ==> !ok && history == old(history)
      ensures Intact(old(file)) ==>
                AlwaysKept(Replayed(old(file)), history, |old(history)|, wide, now)
      ensures ok && Intact(old(file)) ==>
                Intact(file) && cleaned == |Changed(Replayed(old(file)), Replayed(file))|
      ensures ok && Intact(old(file)) ==>
                && answers.Keys == Replayed(old(file)).Keys
                && forall k | k in Replayed(old(file)) ::
                     k in Changed(Replayed(old(file)), Replayed(file))
                     <==> Overdue(Replayed(old(file))[k], now) && Confirms(answers[k])
    {
      cleaned, answers := 0, map[];
      var read := CurrentUnacknowledged();
      if read.None? {
        ok := false;
        return;
      }
      var records := read.value;
      ReplayWellFormed(Records(file));
      var keys := records.Keys;
      ghost var intact := Intact(file);
      NothingCleaned(records, now);
      while keys != {}
        invariant Valid() && old(history) <= history && keys <= records.Keys && (old(wide) ==> wide)
        invariant answers.Keys == records.Keys - keys
        invariant intact ==> Intact(file) && CleanedSoFar(records, Replayed(file), answers, keys, cleaned, now)
        invariant intact ==> AlwaysKept(records, history, |old(history)|, wide, now)
      {
        var k :| k in keys;
        ghost var before, past, had, remaining := Replayed(file), history, wide, keys;
        keys := keys - {k};
        var stopped: bool;
        ghost var answer: Option<RemoteHelper.Result>;
        stopped, ok, answer := StopIfOverdue(records[k], now);
        if intact {
          KeptThrough(records, before, answers, remaining, cleaned, k, past, history, |old(history)|, had, wide, now);
          if ok {
            CleanedOneMore(records, before, Replayed(file), answers, remaining, cleaned, k, stopped, answer, now);
          }
        }
        if !ok { return; }
        answers := answers[k := answer];
        cleaned := if stopped then cleaned + 1 else cleaned;
        hide CleanedSoFar, AlwaysKept;
      }
      ok := true;
    }

    /** One record of `reconcile_database_acknowledgements`. */
    method AcknowledgeFinished(record: Record, ghost records: map<Key, Record>, ghost db: RuntimeRows.Db, now: int)
      returns (ok: bool)
      requires Valid() && KeyOf(record) in records && records[KeyOf(record)] == record
      requires RuntimeProtocol.DatabaseFinished(db, record)
      modifies this
      ensures Valid() && old(history) <= history && (old(wide) ==> wide)
      ensures Intact(old(file)) && PartlyReconciled(records, Replayed(old(file)), db) ==>
                && (ok ==> Intact(file) && Replayed(file) == Replayed(old(file)) - {KeyOf(record)})
                && (ok ==> PartlyReconciled(records, Replayed(file), db))
                && forall n | |old(history)| <= n < |history| :: ReconciledOrSpoilt(records, history[n], wide, db)
    {
      var done := record.(phase := DatabaseAcknowledged, result := None, payload := None, updatedAt := now);
      ghost var before := Replayed(file);
      assert PartlyReconciled(records, before, db) ==> PartlyReconciled(records, Apply(before, done), db);
      hide PartlyReconciled, Utf8, Ascii;
      ok := Append(done);
    }

    /** `reconcile_database_acknowledgements`: exactly the operations that PostgreSQL has finished are
        forgotten, or belong to no command of theirs any more, and at no moment is another one missing, unless a record
        whose text is not ASCII was cut; a file that cannot be read is an error. */
    method ReconcileDatabaseAcknowledgements(db: RuntimeRows.Db, now: int) returns (acknowledged: nat, ok: bool)
      requires Valid()
      modifies this
      ensures Valid() && old(history) <= history && (old(wide) ==> wide)
      ensures !Readable(old(file)) ==> !ok && history == old(history)
      ensures Intact(old(file)) ==>
                AlwaysReconciled(Replayed(old(file)), history, |old(history)|, wide, db)
      ensures ok && Intact(old(file)) ==>
                && Intact(file)
                && (forall k | k in Replayed(file) ::
                      k in Replayed(old(file)) && Replayed(file)[k] == Replayed(old(file))[k])
                && (forall k | k in Replayed(old(file)) ::
                      k in Replayed(file) <==> Outstanding(db, Replayed(old(file))[k]))
                && acknowledged == |Replayed(old(file)).Keys - Replayed(file).Keys|
    {
      acknowledged := 0;
      var read := CurrentUnacknowledged();
      if read.None? { return 0, false; }
      var records := read.value;
      ReplayWellFormed(Records(file));
      var keys := records.Keys;
      ghost var intact := Intact(file);
      assert records.Keys - Replayed(file).Keys == {};
      while keys != {}
        invariant Valid() && old(history) <= history && keys <= records.Keys && (old(wide) ==> wide)
        invariant intact ==> Intact(file) && ReconciledSoFar(records, Replayed(file), keys, acknowledged, db)
        invariant intact ==> AlwaysReconciled(records, history, |old(history)|, wide, db)
      {
        var k :| k in keys;
        ghost var before, past, had, remaining := Replayed(file), history, wide, keys;
        keys := keys - {k};
        var record := records[k];
        if RuntimeProtocol.DatabaseFinished(db, record) {
          ok := AcknowledgeFinished(record, records, db, now);
          if intact { ReconciledThrough(records, past, history, |old(history)|, had, wide, db); }
          if !ok { return; }
          if intact { ReconciledOneMore(records, before, remaining, acknowledged, k, db); }
          acknowledged := acknowledged + 1;
        } else if intact {
          KeptUnfinished(records, before, remaining, acknowledged, k, db);
        }
        hide ReconciledSoFar, AlwaysReconciled;
      }
      ok := true;
      if intact { AllReconciled(records, Replayed(file), acknowledged, db); }
    }

    static method IntoValues(current: map<Key, Record>) returns (records: Log)
      requires forall k | k in current :: KeyOf(current[k]) == k
      ensures Lists(records, current)
    {
      records := [];
      var keys := current.Keys;
      while keys != {}
        invariant keys <= current.Keys
        invariant forall r | r in records :: KeyOf(r) in current && KeyOf(r) !in keys && current[KeyOf(r)] == r
        invariant forall k | k in current && k !in keys :: current[k] in records
        invariant forall i, j | 0 <= i < j < |records| :: KeyOf(records[i]) != KeyOf(records[j])
      {
        var k :| k in keys;
        keys := keys - {k};
        records := records + [current[k]];
      }
    }

    static method Position(sorted: Log, record: Record) returns (at: nat)
      ensures at <= |sorted| && forall j | 0 <= j < at :: Before(sorted[j], record)
      ensures at < |sorted| ==> !Before(sorted[at], record)
    {
      at := 0;
      while at < |sorted| && Before(sorted[at], record)
        invariant at <= |sorted|
        invariant forall j | 0 <= j < at :: Before(sorted[j], record)
      {
        at := at + 1;
      }
    }

    /** `records.sort_by(..)`. */
    static method SortRecords(records: Log, ghost current: map<Key, Record>) returns (sorted: Log)
      requires Lists(records, current)
      ensures Lists(sorted, current) && Ordered(sorted)
    {
      sorted := [];
      for i := 0 to |records|
        invariant multiset(sorted) == multiset(records[..i]) && Ordered(sorted)
      {
        var at := Position(sorted, records[i]);
        InsertionKeepsOrder(sorted, at, records[i]);
        assert records[..i + 1] == records[..i] + [records[i]];
        sorted := sorted[..at] + [records[i]] + sorted[at..];
      }
      assert records[..|records|] == records;
      ListsPermute(records, sorted, current);
    }
  }

  /** One record after a degraded clean-up at `now`: as before, or stopped and kept under the new phase. */
  predicate Degraded(r: Record, r': Record, now: int) {
    || r' == r
    || (!r.phase.DegradedCleanup? && r.expiresAt <= now && r.server.Some?
        && r'.phase.DegradedCleanup? && r'.result.Some? && (r'.result.value.absent || r'.result.value.stale)
        && r' == r.(phase := r'.phase, result := r'.result, payload := r'.payload, updatedAt := now))
  }

  /** No operation is forgotten by a degraded clean-up. */
  ghost predicate AllKept(current: map<Key, Record>, current': map<Key, Record>, now: int) {
    current'.Keys == current.Keys && forall k | k in current :: Degraded(current[k], current'[k], now)
  }

  /** The operations a clean-up has stopped. */
  ghost function Changed(current: map<Key, Record>, current': map<Key, Record>): set<Key> {
    set k | k in current && k in current' && current'[k] != current[k]
  }

  ghost predicate OneStopped(current: map<Key, Record>, current': map<Key, Record>, k: Key, stopped: bool, now: int) {
    if !stopped then current' == current
    else k in current && k in current' && current' == current[k := current'[k]]
         && current'[k] != current[k] && Degraded(current[k], current'[k], now)
  }

  ghost predicate MaybeStopped(current: map<Key, Record>, current': map<Key, Record>, k: Key, now: int) {
    exists done :: OneStopped(current, current', k, done, now)
  }

  /** What a crash during a degraded clean-up may leave. */
  ghost predicate KeptOrSpoilt(records: map<Key, Record>, g: File, wide: bool, now: int) {
    if Readable(g) then AllKept(records, Replayed(g), now) else wide
  }

  /** The answers tell which records are changed. */
  ghost predicate Told(records: map<Key, Record>, changed: set<Key>, answers: map<Key, Option<RemoteHelper.Result>>,
                       now: int) {
    forall k | k in answers && k in records :: k in changed <==> Overdue(records[k], now) && Confirms(answers[k])
  }

  /** The records outside `keys` have been dealt with, those whose stop was confirmed are changed and counted. */
  ghost predicate CleanedSoFar(records: map<Key, Record>, current: map<Key, Record>,
                               answers: map<Key, Option<RemoteHelper.Result>>, keys: set<Key>, cleaned: nat, now: int) {
    && AllKept(records, current, now) && keys <= records.Keys && answers.Keys == records.Keys - keys
    && (forall k | k in keys :: current[k] == records[k])
    && Told(records, Changed(records, current), answers, now)
    && cleaned == |Changed(records, current)|
  }

  lemma NothingCleaned(records: map<Key, Record>, now: int)
    ensures CleanedSoFar(records, records, map[], records.Keys, 0, now)
  {
    assert Changed(records, records) == {};
  }

  lemma ToldOneMore(records: map<Key, Record>, changed: set<Key>, answers: map<Key, Option<RemoteHelper.Result>>,
                    k: Key,
                    stopped: bool, answer: Option<RemoteHelper.Result>, now: int)
    requires Told(records, changed, answers, now) && k in records && k !in answers && k !in changed
    requires stopped <==> Overdue(records[k], now) && Confirms(answer)
    ensures Told(records, changed + if stopped then {k} else {}, answers[k := answer], now)
  {
    hide Overdue, Confirms;
  }

  lemma OthersUntouched(records: map<Key, Record>, before: map<Key, Record>, after: map<Key, Record>, keys: set<Key>,
                        k: Key, stopped: bool, now: int)
    requires before.Keys == records.Keys && keys <= records.Keys && k in keys
    requires forall j | j in keys :: before[j] == records[j]
    requires OneStopped(before, after, k, stopped, now)
    ensures after.Keys == records.Keys && forall j | j in keys - {k} :: after[j] == records[j]
  {
    hide Degraded;
  }

  lemma CleanedOneMore(records: map<Key, Record>, before: map<Key, Record>, after: map<Key, Record>,
                       answers: map<Key, Option<RemoteHelper.Result>>, keys: set<Key>, cleaned: nat, k: Key,
                       stopped: bool, answer: Option<RemoteHelper.Result>, now: int)
    requires CleanedSoFar(records, before, answers, keys, cleaned, now) && k in keys
    requires OneStopped(before, after, k, stopped, now) && (stopped <==> Overdue(records[k], now) && Confirms(answer))
    ensures CleanedSoFar(records, after, answers[k := answer], keys - {k},
                         if stopped then cleaned + 1 else cleaned, now)
  {
    KeepsAll(records, before, after, k, stopped, now);
    OthersUntouched(records, before, after, keys, k, stopped, now);
    ToldOneMore(records, Changed(records, before), answers, k, stopped, answer, now);
    hide AllKept, OneStopped, Overdue, Confirms, Changed, Told;
    assert answers[k := answer].Keys == records.Keys - (keys - {k});
  }

  /** ... at every moment of the file from `from` on. */
  ghost predicate AlwaysKept(records: map<Key, Record>, history: seq<File>, from: nat, wide: bool, now: int) {
    forall n | from <= n < |history| :: KeptOrSpoilt(records, history[n], wide, now)
  }

  /** The moments of one more stop. */
  lemma KeptThrough(records: map<Key, Record>, before: map<Key, Record>, answers: map<Key, Option<RemoteHelper.Result>>,
                    keys: set<Key>, cleaned: nat, k: Key, past: seq<File>, history: seq<File>, from: nat, had: bool,
                    wide: bool, now: int)
    requires CleanedSoFar(records, before, answers, keys, cleaned, now) && k in keys
    requires AlwaysKept(records, past, from, had, now) && past <= history && (had ==> wide)
    requires forall n | |past| <= n < |history| ::
               if Readable(history[n]) then MaybeStopped(before, Replayed(history[n]), k, now) else wide
    ensures AlwaysKept(records, history, from, wide, now)
  {
    forall n | from <= n < |history| ensures KeptOrSpoilt(records, history[n], wide, now) {
      if n < |past| {
        assert KeptOrSpoilt(records, past[n], had, now);
      } else {
        StopKeeps(records, before, answers, keys, cleaned, k, history[n], wide, now);
      }
    }
  }

  lemma StopKeeps(records: map<Key, Record>, before: map<Key, Record>, answers: map<Key, Option<RemoteHelper.Result>>,
                  keys: set<Key>, cleaned: nat, k: Key, g: File, wide: bool, now: int)
    requires CleanedSoFar(records, before, answers, keys, cleaned, now) && k in keys
    requires if Readable(g) then MaybeStopped(before, Replayed(g), k, now) else wide
    ensures KeptOrSpoilt(records, g, wide, now)
  {
    if Readable(g) {
      var done :| OneStopped(before, Replayed(g), k, done, now);
      KeepsAll(records, before, Replayed(g), k, done, now);
    }
  }

  lemma KeepsAll(records: map<Key, Record>, before: map<Key, Record>, after: map<Key, Record>, k: Key, stopped: bool,
                 now: int)
    requires AllKept(records, before, now) && k in records && before[k] == records[k]
    requires OneStopped(before, after, k, stopped, now)
    ensures AllKept(records, after, now)
    ensures k !in Changed(records, before)
    ensures Changed(records, after) == Changed(records, before) + if stopped then {k} else {}
  {
    hide Degraded;
  }

  /** A degraded clean-up has this to do, and the answer says that it is done. */
  predicate Overdue(r: Record, now: int) { !r.phase.DegradedCleanup? && r.expiresAt <= now && r.server.Some? }

  predicate Confirms(answer: Option<RemoteHelper.Result>) {
    answer.Some? && (answer.value.absent || answer.value.stale)
  }

  /** PostgreSQL may still need the record: its command is pending or claimed for that very generation, and the
      instance has not moved on, or the command is claimed. */
  predicate Outstanding(db: RuntimeRows.Db, r: Record) {
    && r.command in db.commands && db.commands[r.command].instance == r.instance && r.instance in db.instances
    && db.commands[r.command].generation == r.generation
    && (db.commands[r.command].status.Claimed?
        || (db.commands[r.command].status.Pending? && db.instances[r.instance].generation == r.generation))
  }

  lemma UnfinishedExactly(db: RuntimeRows.Db, r: Record)
    ensures !RuntimeProtocol.DatabaseFinished(db, r) <==> Outstanding(db, r)
  {
  }

  /** The operations that PostgreSQL has not finished. */
  function Unfinished(current: map<Key, Record>, db: RuntimeRows.Db): map<Key, Record> {
    map k | k in current && !RuntimeProtocol.DatabaseFinished(db, current[k]) :: current[k]
  }

  /** Some finished operations are gone, and no other. */
  ghost predicate PartlyReconciled(current: map<Key, Record>, current': map<Key, Record>, db: RuntimeRows.Db) {
    && (forall k | k in current' :: k in current && current'[k] == current[k])
    && (forall k | k in Unfinished(current, db) :: k in current')
  }

  /** A compacted file is intact and clean, and the same is read from it. */
  lemma CompactedReads(f: File, records: Log)
    requires Readable(f) && Lists(records, Replayed(f))
    ensures var g := File(Written(records), Terminated);
            Intact(g) && CleanFile(g) && Current(g) == Current(f)
  {
    var g := File(Written(records), Terminated);
    EntriesOfWritten(records);
    assert Records(g) == records;
    CompactionPreservesReplay(Records(f), records);
    ReplayWellFormed(Records(f));
  }

  /** What a crash during a reconciliation may leave. */
  ghost predicate ReconciledOrSpoilt(records: map<Key, Record>, g: File, wide: bool, db: RuntimeRows.Db) {
    if Readable(g) then PartlyReconciled(records, Replayed(g), db) else wide
  }

  /** The records outside `keys` have been dealt with, and those that are gone are counted. */
  ghost predicate ReconciledSoFar(records: map<Key, Record>, current: map<Key, Record>, keys: set<Key>, gone: nat,
                                  db: RuntimeRows.Db) {
    && PartlyReconciled(records, current, db) && keys <= current.Keys
    && (forall k | k in current && k !in keys :: k in Unfinished(records, db))
    && gone == |records.Keys - current.Keys|
  }

  lemma ReconciledOneMore(records: map<Key, Record>, before: map<Key, Record>, keys: set<Key>, gone: nat, k: Key,
                          db: RuntimeRows.Db)
    requires ReconciledSoFar(records, before, keys, gone, db) && k in keys && k in records
    requires PartlyReconciled(records, before - {k}, db)
    ensures ReconciledSoFar(records, before - {k}, keys - {k}, gone + 1, db)
  {
    assert records.Keys - (before - {k}).Keys == records.Keys - before.Keys + {k};
  }

  lemma KeptUnfinished(records: map<Key, Record>, current: map<Key, Record>, keys: set<Key>, gone: nat, k: Key,
                       db: RuntimeRows.Db)
    requires ReconciledSoFar(records, current, keys, gone, db) && k in keys && k in records
    requires !RuntimeProtocol.DatabaseFinished(db, records[k])
    ensures ReconciledSoFar(records, current, keys - {k}, gone, db)
  {
  }

  /** ... at every moment of the file from `from` on. */
  ghost predicate AlwaysReconciled(records: map<Key, Record>, history: seq<File>, from: nat, wide: bool,
                                   db: RuntimeRows.Db) {
    forall n | from <= n < |history| :: ReconciledOrSpoilt(records, history[n], wide, db)
  }

  lemma ReconciledThrough(records: map<Key, Record>, past: seq<File>, history: seq<File>, from: nat, had: bool,
                          wide: bool, db: RuntimeRows.Db)
    requires AlwaysReconciled(records, past, from, had, db) && past <= history && (had ==> wide)
    requires forall n | |past| <= n < |history| :: ReconciledOrSpoilt(records, history[n], wide, db)
    ensures AlwaysReconciled(records, history, from, wide, db)
  {
    forall n | from <= n < |history| ensures ReconciledOrSpoilt(records, history[n], wide, db) {
      if n < |past| { assert ReconciledOrSpoilt(records, past[n], had, db); }
    }
  }

  lemma AllReconciled(records: map<Key, Record>, current: map<Key, Record>, gone: nat, db: RuntimeRows.Db)
    requires ReconciledSoFar(records, current, {}, gone, db)
    ensures forall k | k in current :: k in records && current[k] == records[k]
    ensures forall k | k in records :: k in current <==> Outstanding(db, records[k])
    ensures gone == |records.Keys - current.Keys|
  {
    forall k | k in records ensures k in Unfinished(records, db) <==> Outstanding(db, records[k]) {
      UnfinishedExactly(db, records[k]);
    }
  }

  /** What a crash during an append may leave: what was read before, the new records, or, when some text is not
      ASCII, a file that cannot be read. */
  predicate AfterAppend(f: File, applied: map<Key, Record>, g: File, wide: bool) {
    Current(g) == Current(f) || Current(g) == Some(applied) || (Current(g) == None && wide)
  }

  /** ... for every file it may begin with, and what the file discloses. */
  ghost predicate Interrupted(f: File, record: Record, g: File, wide: bool) {
    && (Intact(f) ==> AfterAppend(f, Apply(Replayed(f), record), g, wide))
    && (Readable(f) && !f.tail.Terminated? ==> AfterAppend(f, Complete(f), g, wide))
    && (!Readable(f) ==> !Readable(g))
    && (CleanFile(f) ==> CleanFile(g))
  }

  /** What is read once an append has succeeded. */
  predicate Completed(f: File, record: Record, read: Option<map<Key, Record>>) {
    read == if !Readable(f) then None
            else if f.tail.Terminated? then Some(Apply(Replayed(f), record))
            else Some(Complete(f))
  }

  lemma AppendIsInterrupted(encode: Encoding, f: File, record: Record, g: File, wide: bool)
    requires Sound(encode) && (Ascii(encode(Redact(record))) || wide) && Interruption(encode, f, Redact(record), g)
    ensures Interrupted(f, record, g, wide)
  {
    RedactIsClean(record);
    ApplyRedacted(Replayed(f), record);
    var r := Redact(record);
    var k: nat :| k <= |encode(r)| + 1 && g == CutShort(encode, f, r, k);
    assert WellEncoded(encode(r));
    AsciiExactlyWhenCutsAreTexts(encode(r));
    CutReadableExactly(encode, f, r, k);
    if Intact(f) {
      AppendIsAtomic(encode, f, r, k);
    } else if Readable(f) {
      AppendBehindATornTail(encode, f, r, k);
    }
    if CleanFile(f) { WritingKeepsClean(encode, f, r, k); }
  }

  lemma ExtendedIsUncut(encode: Encoding, f: File, r: Record)
    ensures Extended(encode, f, r) == CutShort(encode, f, r, |encode(r)| + 1) && Extended(encode, f, r).tail.Terminated?
  {
  }

  lemma AppendCompletes(encode: Encoding, f: File, record: Record)
    requires Sound(encode)
    ensures Completed(f, record, Current(Extended(encode, f, Redact(record))))
  {
    ExtendedReplayed(encode, f, Redact(record));
    CutReadableExactly(encode, f, Redact(record), |encode(Redact(record))| + 1);
    ApplyRedacted(Replayed(f), record);
  }

  lemma SameReading(f: File, record: Record, g: File, g': File, wide: bool)
    requires Interrupted(f, record, g, wide) && Current(g') == Current(g) && (CleanFile(g) ==> CleanFile(g'))
    ensures Interrupted(f, record, g', wide)
  {
  }
}
