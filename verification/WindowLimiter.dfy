/** The API's limiter: a fixed window per operation and subject, in a table that is pruned on every call.
    Times are nanoseconds of a clock that never goes back. */
module WindowLimiter {
  type Key = string

  datatype Window = Window(started: int, count: nat, interval: nat)
  type Table = map<Key, Window>

  datatype Call = Call(key: Key, limit: nat, interval: nat, now: int)

  predicate Over(w: Window, now: int) { now - w.started >= w.interval }

  function Prune(t: Table, now: int): Table { map k | k in t && !Over(t[k], now) :: t[k] }

  /** The window that counts this call: a new one when there is none, when it is over, or when the interval
      has changed. */
  function Current(t: Table, c: Call): Window {
    if c.key !in t || t[c.key].interval != c.interval || Over(t[c.key], c.now) then Window(c.now, 0, c.interval)
    else t[c.key]
  }

  function Decide(t: Table, c: Call): (bool, Table) {
    var w := Current(t, c);
    if w.count >= c.limit then (false, t[c.key := w]) else (true, t[c.key := w.(count := w.count + 1)])
  }

  /** `allow`. */
  function Allow(t: Table, c: Call): (bool, Table) { Decide(Prune(t, c.now), c) }

  /** The table after a log of calls, pruned on every call or never. */
  function Pruned(log: seq<Call>): Table {
    if log == [] then map[] else Allow(Pruned(log[..|log| - 1]), log[|log| - 1]).1
  }

  function Full(log: seq<Call>): Table {
    if log == [] then map[] else Decide(Full(log[..|log| - 1]), log[|log| - 1]).1
  }

  predicate Allowed(log: seq<Call>, n: nat)
    requires n < |log|
  {
    Allow(Pruned(log[..n]), log[n]).0
  }

  predicate AllowedByFull(log: seq<Call>, n: nat)
    requires n < |log|
  {
    Decide(Full(log[..n]), log[n]).0
  }

  predicate InOrder(log: seq<Call>) { forall m, n | 0 <= m < n < |log| :: log[m].now <= log[n].now }

  // ------------------------------------------------------------------ pruning is invisible

  /** Only windows that are over are missing. */
  ghost predicate Keeps(full: Table, t: Table, now: int) {
    && (forall k | k in t :: k in full && full[k] == t[k])
    && (forall k | k in full && k !in t :: Over(full[k], now))
  }

  lemma CallKeeps(full: Table, t: Table, c: Call)
    requires Keeps(full, t, c.now)
    ensures Allow(t, c).0 == Decide(full, c).0
    ensures Keeps(Decide(full, c).1, Allow(t, c).1, c.now)
  {
    var p := Prune(t, c.now);
    assert Keeps(full, p, c.now);
    assert Current(p, c) == Current(full, c);
  }

  lemma {:induction false} PrunedKeeps(log: seq<Call>, now: int)
    requires InOrder(log) && (log != [] ==> log[|log| - 1].now <= now)
    ensures Keeps(Full(log), Pruned(log), now)
  {
    if log != [] {
      var front, c := log[..|log| - 1], log[|log| - 1];
      PrunedKeeps(front, c.now);
      CallKeeps(Full(front), Pruned(front), c);
    }
  }

  /** The pruned table answers every call as a table that is never pruned. */
  lemma PruningIsInvisible(log: seq<Call>, n: nat)
    requires InOrder(log) && n < |log|
    ensures Allowed(log, n) == AllowedByFull(log, n)
  {
    PrunedKeeps(log[..n], log[n].now);
    CallKeeps(Full(log[..n]), Pruned(log[..n]), log[n]);
  }

  // ------------------------------------------------------------------ how many calls a key gets

  function CountAllowed(log: seq<Call>, key: Key, from: nat, to: nat): nat
    requires from <= to <= |log|
  {
    if from == to then 0
    else CountAllowed(log, key, from, to - 1) + if log[to - 1].key == key && Allowed(log, to - 1) then 1 else 0
  }

  predicate FixedPolicy(log: seq<Call>, key: Key, limit: nat, interval: nat) {
    forall n | 0 <= n < |log| && log[n].key == key :: log[n].limit == limit && log[n].interval == interval
  }

  // ------------------------------------------------------------------ exactly which calls are allowed

  function CountCalls(log: seq<Call>, key: Key, from: nat, to: nat): nat
    requires from <= to <= |log|
  {
    if from == to then 0 else CountCalls(log, key, from, to - 1) + if log[to - 1].key == key then 1 else 0
  }

  /** The call that opened the key's window, as the last call leaves it: the first one, or the first at least an
      interval after the one that opened the window before. */
  function Opening(log: seq<Call>, key: Key, interval: nat): (r: int)
    ensures -1 <= r < |log|
  {
    if log == [] then -1
    else
      var front, last := log[..|log| - 1], |log| - 1;
      var o := Opening(front, key, interval);
      if log[last].key != key then o
      else if o == -1 || log[last].now - log[o].now >= interval then last
      else o
  }

  lemma {:induction false} CountPrefix(log: seq<Call>, c: Call, key: Key, from: nat, to: nat)
    requires from <= to <= |log|
    ensures CountCalls(log + [c], key, from, to) == CountCalls(log, key, from, to)
  {
    if from < to { CountPrefix(log, c, key, from, to - 1); }
  }

  /** The window of a key that is always called with one limit and interval. */
  lemma {:induction false} WindowOfKey(log: seq<Call>, key: Key, limit: nat, interval: nat)
    requires FixedPolicy(log, key, limit, interval)
    ensures var o := Opening(log, key, interval);
            if o == -1 then key !in Full(log)
            else
              var calls := CountCalls(log, key, o, |log|);
              key in Full(log) && 1 <= calls
              && Full(log)[key] == Window(log[o].now, if calls <= limit then calls else limit, interval)
  {
    if log != [] {
      var front, c := log[..|log| - 1], log[|log| - 1];
      assert log == front + [c];
      WindowOfKey(front, key, limit, interval);
      var o, o' := Opening(front, key, interval), Opening(log, key, interval);
      if o != -1 { CountPrefix(front, c, key, o, |front|); }
      hide Opening;
      if o' != -1 && o' < |front| { assert o' == o; }
    }
  }

  /** Exactly the first `limit` calls of each window are allowed, whatever other keys and intervals are mixed in. */
  lemma AllowedExactly(log: seq<Call>, n: nat, key: Key, limit: nat, interval: nat)
    requires InOrder(log) && n < |log| && log[n].key == key && FixedPolicy(log, key, limit, interval)
    ensures var o := Opening(log[..n + 1], key, interval);
            0 <= o <= n && (Allowed(log, n) <==> CountCalls(log, key, o, n) < limit)
  {
    PruningIsInvisible(log, n);
    var front, c := log[..n], log[n];
    assert log[..n + 1][..n] == front && log[..n + 1] == front + [c];
    WindowOfKey(front, key, limit, interval);
    var o, o' := Opening(front, key, interval), Opening(log[..n + 1], key, interval);
    CountInPrefix(log, key, o', n);
    if o == o' { CountInPrefix(log, key, o, n); }
    hide Opening, Allowed;
  }

  lemma {:induction false} CountInPrefix(log: seq<Call>, key: Key, from: int, to: nat)
    requires 0 <= from <= to <= |log|
    ensures CountCalls(log[..to], key, from, to) == CountCalls(log, key, from, to)
  {
    if from < to {
      CountInPrefix(log, key, from, to - 1);
      assert log[..to] == log[..to - 1] + [log[to - 1]];
      CountPrefix(log[..to - 1], log[to - 1], key, from, to - 1);
    }
  }

  /** Calls allowed since `since`: those of the key's window without the one that began it, when that was
      earlier; otherwise those of its window and, short of one, a limit's worth of the window before. */
  predicate Counted(t: Table, key: Key, limit: nat, interval: nat, since: int, allowed: nat) {
    if key !in t || limit == 0 then allowed == 0
    else
      && t[key].interval == interval && 1 <= t[key].count <= limit
      && allowed <= t[key].count - 1 + if t[key].started >= since then limit else 0
  }

  lemma CallCounts(t: Table, c: Call, key: Key, limit: nat, interval: nat, since: int, allowed: nat)
    requires Counted(t, key, limit, interval, since, allowed)
    requires since <= c.now < since + interval && (c.key == key ==> c.limit == limit && c.interval == interval)
    ensures Counted(Decide(t, c).1, key, limit, interval, since,
                    allowed + if c.key == key && Decide(t, c).0 then 1 else 0)
  {
  }

  lemma {:induction false} SinceStart(log: seq<Call>, key: Key, limit: nat, interval: nat, since: int)
    requires FixedPolicy(log, key, limit, interval)
    ensures Counted(Full(log), key, limit, interval, since, 0)
  {
    if log != [] {
      SinceStart(log[..|log| - 1], key, limit, interval, since);
    }
  }

  lemma {:induction false} SpanCounts(log: seq<Call>, key: Key, limit: nat, interval: nat, from: nat, to: nat)
    requires InOrder(log) && FixedPolicy(log, key, limit, interval) && from < |log| && from <= to <= |log|
    requires from < to ==> log[to - 1].now - log[from].now < interval
    ensures Counted(Full(log[..to]), key, limit, interval, log[from].now, CountAllowed(log, key, from, to))
  {
    hide Decide, Counted, Allow, Pruned;
    if to == from {
      SinceStart(log[..to], key, limit, interval, log[from].now);
    } else {
      SpanCounts(log, key, limit, interval, from, to - 1);
      var c := log[to - 1];
      assert log[..to][..to - 1] == log[..to - 1];
      PruningIsInvisible(log, to - 1);
      CallCounts(Full(log[..to - 1]), c, key, limit, interval, log[from].now, CountAllowed(log, key, from, to - 1));
    }
  }

  /** In any span shorter than its interval a key is allowed less than twice its limit, whatever other keys
      and intervals are mixed in. */
  lemma LessThanTwiceTheLimit(log: seq<Call>, key: Key, limit: nat, interval: nat, from: nat, to: nat)
    requires InOrder(log) && FixedPolicy(log, key, limit, interval) && from < to <= |log|
    requires log[to - 1].now - log[from].now < interval
    ensures CountAllowed(log, key, from, to) <= if limit == 0 then 0 else 2 * limit - 1
  {
    SpanCounts(log, key, limit, interval, from, to);
  }

  /** One call opens a window; the rest of its limit comes just before its end, a whole limit just after. */
  function EdgeLog(key: Key, limit: nat, interval: nat, n: nat): seq<Call>
    requires interval >= 2
  {
    seq(n, i => Call(key, limit, interval, if i == 0 then 0 else if i < limit then interval - 1 else interval))
  }

  lemma EdgeOneMore(key: Key, limit: nat, interval: nat, n: nat)
    requires interval >= 2
    ensures EdgeLog(key, limit, interval, n + 1)[..n] == EdgeLog(key, limit, interval, n)
  {
  }

  function EdgeTable(key: Key, limit: nat, interval: nat, n: nat): Table {
    map[key := if n <= limit then Window(0, n, interval) else Window(interval, n - limit, interval)]
  }

  lemma {:induction false} EdgeWindow(key: Key, limit: nat, interval: nat, n: nat)
    requires interval >= 2 && limit >= 2 && 1 <= n <= 2 * limit
    ensures Pruned(EdgeLog(key, limit, interval, n)) == EdgeTable(key, limit, interval, n)
    ensures Allowed(EdgeLog(key, limit, interval, n), n - 1)
  {
    if n == 1 {
      EdgeOneMore(key, limit, interval, 0);
      assert EdgeLog(key, limit, interval, 0) == [];
    } else {
      hide Pruned, Allowed, EdgeLog, EdgeTable;
      EdgeWindow(key, limit, interval, n - 1);
      EdgeStep(key, limit, interval, n);
    }
  }

  lemma EdgeAllowed(key: Key, limit: nat, interval: nat, n: nat, m: nat)
    requires interval >= 2 && limit >= 2 && m < n <= 2 * limit
    ensures Allowed(EdgeLog(key, limit, interval, n), m)
  {
    EdgeWindow(key, limit, interval, m + 1);
    assert EdgeLog(key, limit, interval, n)[..m] == EdgeLog(key, limit, interval, m + 1)[..m];
    hide Allow, Pruned;
  }

  lemma {:induction false} AllCounted(log: seq<Call>, key: Key, from: nat, to: nat)
    requires from <= to <= |log| && forall n | from <= n < to :: log[n].key == key && Allowed(log, n)
    ensures CountAllowed(log, key, from, to) == to - from
  {
    if from < to { AllCounted(log, key, from, to - 1); }
  }

  /** No smaller bound holds: twice the limit less one is reached within one nanosecond. */
  lemma TwiceTheLimitLessOneIsReached(key: Key, limit: nat, interval: nat)
    requires interval >= 2 && limit >= 2
    ensures var log := EdgeLog(key, limit, interval, 2 * limit);
            && InOrder(log) && FixedPolicy(log, key, limit, interval)
            && log[2 * limit - 1].now - log[1].now < interval
            && CountAllowed(log, key, 1, 2 * limit) == 2 * limit - 1
  {
    hide Allowed;
    forall m | 1 <= m < 2 * limit ensures Allowed(EdgeLog(key, limit, interval, 2 * limit), m) {
      EdgeAllowed(key, limit, interval, 2 * limit, m);
    }
    AllCounted(EdgeLog(key, limit, interval, 2 * limit), key, 1, 2 * limit);
  }

  lemma EdgeStep(key: Key, limit: nat, interval: nat, n: nat)
    requires interval >= 2 && limit >= 2 && 2 <= n <= 2 * limit
    requires Pruned(EdgeLog(key, limit, interval, n - 1)) == EdgeTable(key, limit, interval, n - 1)
    ensures Pruned(EdgeLog(key, limit, interval, n)) == EdgeTable(key, limit, interval, n)
    ensures Allowed(EdgeLog(key, limit, interval, n), n - 1)
  {
    hide Allow;
    EdgeOneMore(key, limit, interval, n - 1);
    var t, now := Pruned(EdgeLog(key, limit, interval, n - 1)), EdgeLog(key, limit, interval, n)[n - 1].now;
    if n == limit + 1 {
      NextWindow(key, limit, interval, 0, limit, now);
    } else if n <= limit {
      SameWindow(key, limit, interval, 0, n - 1, now);
    } else {
      SameWindow(key, limit, interval, interval, n - 1 - limit, now);
    }
  }

  lemma SameWindow(key: Key, limit: nat, interval: nat, started: int, count: nat, now: int)
    requires now - started < interval && count < limit
    ensures Allow(map[key := Window(started, count, interval)], Call(key, limit, interval, now))
         == (true, map[key := Window(started, count + 1, interval)])
  {
    var t: Table := map[key := Window(started, count, interval)];
    assert Prune(t, now) == t;
    assert t[key := Window(started, count + 1, interval)] == map[key := Window(started, count + 1, interval)];
  }

  lemma NextWindow(key: Key, limit: nat, interval: nat, started: int, count: nat, now: int)
    requires now - started >= interval && 0 < limit
    ensures Allow(map[key := Window(started, count, interval)], Call(key, limit, interval, now))
         == (true, map[key := Window(now, 1, interval)])
  {
    var t: Table := map[key := Window(started, count, interval)];
    var none: Table := map[];
    assert Prune(t, now) == none;
    assert none[key := Window(now, 1, interval)] == map[key := Window(now, 1, interval)];
  }
}
