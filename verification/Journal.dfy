/** The controller's local operation journal: an append-only log of records, replayed into the
    unacknowledged operations, and compacted by an atomic file replacement. */
module Journal {
  import opened Options
  import opened Json
  import RemoteHelper

  datatype Phase = Intent | RemoteResult | DatabaseAcknowledged | DegradedCleanup

  datatype Record = Record(
    instance: nat,
    command: nat,
    generation: nat,
    operation: RemoteHelper.Operation,
    phase: Phase,
    server: Option<nat>,
    expiresAt: int,
    result: Option<RemoteHelper.Result>,
    payload: Option<Json>,
    updatedAt: int)

  type Key = (nat, nat)
  type Log = seq<Record>

  function KeyOf(r: Record): Key { (r.instance, r.command) }

  // ------------------------------------------------------------------ redaction

  const DEPLOYMENT: Text := [100, 101, 112, 108, 111, 121, 109, 101, 110, 116]
  const FLAG_VALUE: Text := [102, 108, 97, 103, 95, 118, 97, 108, 117, 101]
  const REDACTED: Json := String([91, 114, 101, 100, 97, 99, 116, 101, 100, 93])

  /** `deployment.flag_value`, when the payload has one. */
  function FlagValue(payload: Json): Option<Json> {
    match Get(payload, DEPLOYMENT)
    case Some(deployment) => Get(deployment, FLAG_VALUE)
    case None => None
  }

  function RedactPayload(payload: Json): Json {
    if FlagValue(payload).None? then payload
    else
      var deployment := Get(payload, DEPLOYMENT).value;
      Object(SetField(payload.fields, DEPLOYMENT,
                      Object(SetField(deployment.fields, FLAG_VALUE, REDACTED))))
  }

  function Redact(r: Record): Record {
    r.(payload := match r.payload case Some(p) => Some(RedactPayload(p)) case None => None)
  }

  /** A record that may be on disk: it discloses no flag. */
  predicate Clean(r: Record) {
    r.payload.Some? && FlagValue(r.payload.value).Some? ==> FlagValue(r.payload.value) == Some(REDACTED)
  }

  /** Redaction hides the flag, keeps every other top-level member, and leaves a clean payload as it is. */
  lemma RedactionHidesTheFlag(payload: Json)
    ensures FlagValue(payload).Some? <==> FlagValue(RedactPayload(payload)).Some?
    ensures FlagValue(payload).Some? ==> FlagValue(RedactPayload(payload)) == Some(REDACTED)
    ensures forall key | key != DEPLOYMENT :: Get(RedactPayload(payload), key) == Get(payload, key)
    ensures FlagValue(payload) == Some(REDACTED) ==> RedactPayload(payload) == payload
    ensures RedactPayload(RedactPayload(payload)) == RedactPayload(payload)
  {
    if FlagValue(payload).Some? {
      var deployment := Get(payload, DEPLOYMENT).value;
      var hidden := Object(SetField(deployment.fields, FLAG_VALUE, REDACTED));
      GetSet(payload.fields, DEPLOYMENT, hidden, DEPLOYMENT);
      GetSet(deployment.fields, FLAG_VALUE, REDACTED, FLAG_VALUE);
      forall key | key != DEPLOYMENT ensures Get(RedactPayload(payload), key) == Get(payload, key) {
        GetSet(payload.fields, DEPLOYMENT, hidden, key);
      }
      if FlagValue(payload) == Some(REDACTED) {
        SetGet(deployment.fields, FLAG_VALUE);
        SetGet(payload.fields, DEPLOYMENT);
      }
      RedactedIsFixed(RedactPayload(payload));
    }
  }

  lemma RedactedIsFixed(payload: Json)
    requires FlagValue(payload) == Some(REDACTED)
    ensures RedactPayload(payload) == payload
  {
    var deployment := Get(payload, DEPLOYMENT).value;
    SetGet(deployment.fields, FLAG_VALUE);
    SetGet(payload.fields, DEPLOYMENT);
  }

  // ------------------------------------------------------------------ replay

  function Apply(current: map<Key, Record>, r: Record): map<Key, Record> {
    if r.phase.DatabaseAcknowledged? then current - {KeyOf(r)} else current[KeyOf(r) := Redact(r)]
  }

  /** What `current_unacknowledged_locked` reads back. */
  function Replay(log: Log): map<Key, Record> {
    if log == [] then map[] else Apply(Replay(log[..|log| - 1]), log[|log| - 1])
  }

  lemma ReplayAppend(log: Log, r: Record)
    ensures Replay(log + [r]) == Apply(Replay(log), r)
  {
    assert (log + [r])[..|log|] == log;
  }

  /** Everything replay returns is filed under its own key, unacknowledged and redacted. */
  lemma {:induction false} ReplayWellFormed(log: Log)
    ensures forall k | k in Replay(log) ::
              KeyOf(Replay(log)[k]) == k && !Replay(log)[k].phase.DatabaseAcknowledged?
              && Redact(Replay(log)[k]) == Replay(log)[k] && Clean(Replay(log)[k])
  {
    if log != [] {
      ReplayWellFormed(log[..|log| - 1]);
      var r := log[|log| - 1];
      if r.payload.Some? { RedactionHidesTheFlag(r.payload.value); }
    }
  }

  /** Record `n` is the last one that the log has of an operation. */
  predicate LastOf(log: Log, k: Key, n: int) {
    0 <= n < |log| && KeyOf(log[n]) == k && forall m | n < m < |log| :: KeyOf(log[m]) != k
  }

  /** Replay is the last word on every operation: its last record, redacted, unless that acknowledges it. */
  lemma {:induction false} ReplayIsTheLastWord(log: Log, k: Key)
    ensures k in Replay(log) <==> exists n :: LastOf(log, k, n) && !log[n].phase.DatabaseAcknowledged?
    ensures forall n | LastOf(log, k, n) && k in Replay(log) :: Replay(log)[k] == Redact(log[n])
  {
    if log != [] {
      var front, last := log[..|log| - 1], |log| - 1;
      ReplayIsTheLastWord(front, k);
      if KeyOf(log[last]) == k {
        assert LastOf(log, k, last);
        forall n | LastOf(log, k, n) ensures n == last {}
      } else {
        forall n ensures LastOf(log, k, n) <==> LastOf(front, k, n) {
          if LastOf(front, k, n) {
            forall m | n < m < |log| ensures KeyOf(log[m]) != k { assert m < last ==> front[m] == log[m]; }
          }
          if LastOf(log, k, n) {
            forall m | n < m < |front| ensures KeyOf(front[m]) != k { assert front[m] == log[m]; }
          }
        }
      }
    }
  }

  // ------------------------------------------------------------------ compaction

  /** A log that lists the replayed records of another, each once, in some order. */
  ghost predicate Lists(records: Log, current: map<Key, Record>) {
    && (forall r | r in records :: KeyOf(r) in current && current[KeyOf(r)] == r)
    && (forall k | k in current :: current[k] in records)
    && (forall i, j | 0 <= i < j < |records| :: KeyOf(records[i]) != KeyOf(records[j]))
  }

  ghost predicate Compaction(log: Log, compacted: Log) { Lists(compacted, Replay(log)) }

  /** Compaction preserves replay, whatever order the records are written in. */
  lemma CompactionPreservesReplay(log: Log, compacted: Log)
    requires Compaction(log, compacted)
    ensures Replay(compacted) == Replay(log)
  {
    ReplayWellFormed(log);
    ReplayOfList(compacted);
    var m, m' := Replay(log), Replay(compacted);
    forall k | k in m ensures k in m' && m'[k] == m[k] {
      assert m[k] in compacted;
    }
    assert m'.Keys == m.Keys;
  }

  lemma {:induction false} ReplayOfList(records: Log)
    requires forall r | r in records :: !r.phase.DatabaseAcknowledged? && Redact(r) == r
    requires forall i, j | 0 <= i < j < |records| :: KeyOf(records[i]) != KeyOf(records[j])
    ensures forall k | k in Replay(records) :: exists r | r in records :: KeyOf(r) == k
    ensures forall r | r in records :: KeyOf(r) in Replay(records) && Replay(records)[KeyOf(r)] == r
  {
    if records != [] {
      var front, last := records[..|records| - 1], records[|records| - 1];
      ReplayOfList(front);
      forall r | r in records ensures KeyOf(r) in Replay(records) && Replay(records)[KeyOf(r)] == r {
        var i :| 0 <= i < |records| && records[i] == r;
        if i < |front| { assert r == front[i] && r in front; }
      }
      forall k | k in Replay(records) ensures exists r | r in records :: KeyOf(r) == k {
        if k == KeyOf(last) { assert last in records; }
        else {
          var r :| r in front && KeyOf(r) == k;
          assert r in records;
        }
      }
    }
  }
}
