/** Exactly which ticket requests are accepted, read off the log of requests alone: a client has in every span what a
    full bucket and the refill rate give it, no less and no more; and exactly when the client-count cap turns a
    request away. */
module TicketDecisions {
  import opened Options
  import opened TicketLimiter

  // ------------------------------------------------------------------ the client-count cap

  /** The clients of the table that were seen within the expiry time. */
  function Seen(cfg: Config, clients: map<Ip, Bucket>, now: real): set<Ip> {
    set ip | ip in clients && (now < clients[ip].lastSeenAt || now - clients[ip].lastSeenAt < cfg.expiry)
  }

  /** A request is turned away exactly when the table is full of clients that were seen within the expiry time and
      has no bucket for its client: none at all, or one that has expired and that a due clean-up drops. */
  lemma TurnedAwayExactly(cfg: Config, start: real, log: seq<Request>, n: nat)
    requires cfg.expiry > 0.0 && n < |log|
    ensures var s, r := After(cfg, start, log[..n]).state, log[n];
            DecisionAt(cfg, start, log, n).TurnedAway?
            <==> cfg.maximum <= |Seen(cfg, s.clients, r.now)|
                 && (r.ip !in s.clients || (s.nextCleanup <= r.now && r.ip !in Seen(cfg, s.clients, r.now)))
  {
    var s, r := After(cfg, start, log[..n]).state, log[n];
    var kept := RemoveExpired(cfg, s.clients, r.now);
    assert kept.Keys == Seen(cfg, s.clients, r.now);
    assert RemoveExpired(cfg, kept, r.now) == kept;
    assert |kept| == |kept.Keys| && |s.clients| == |s.clients.Keys|;
    SubsetCount(kept.Keys, s.clients.Keys);
    hide Filled, RemoveExpired;
  }

  function Clients(log: seq<Request>): set<Ip> { set r | r in log :: r.ip }

  lemma ClientsAppend(log: seq<Request>, r: Request)
    ensures Clients(log + [r]) == Clients(log) + {r.ip}
  {
    forall x | x in log ensures x in log + [r] {}
    assert r in log + [r];
  }

  /** Request `n` is the client's last one. */
  predicate LastAsked(log: seq<Request>, ip: Ip, n: int) {
    0 <= n < |log| && log[n].ip == ip && forall m | n < m < |log| :: log[m].ip != ip
  }

  /** One request writes no bucket but its client's, and that one with its own time. */
  lemma OnlyOwnBucket(cfg: Config, s: State, ip: Ip, now: real)
    ensures var s' := AllowAt(cfg, s, ip, now).1;
            && s'.clients.Keys <= s.clients.Keys + {ip}
            && (forall x | x in s'.clients && x != ip :: s'.clients[x] == s.clients[x])
            && (ip in s'.clients ==> s'.clients[ip].lastSeenAt == now && s'.clients[ip].updatedAt == now)
  {
    hide Filled, Since;
  }

  /** The table has no client that has never asked, and knows when each one of its own was last heard. */
  lemma {:induction false} TableKnowsAskers(cfg: Config, start: real, log: seq<Request>)
    ensures var clients := After(cfg, start, log).state.clients;
            && clients.Keys <= Clients(log)
            && forall ip | ip in clients :: exists n :: LastAsked(log, ip, n) && clients[ip].lastSeenAt == log[n].now
  {
    if log != [] {
      var front, r := log[..|log| - 1], log[|log| - 1];
      TableKnowsAskers(cfg, start, front);
      assert log == front + [r];
      ClientsAppend(front, r);
      var s := After(cfg, start, front).state;
      OnlyOwnBucket(cfg, s, r.ip, r.now);
      hide AllowAt, Remembering;
      var clients := After(cfg, start, log).state.clients;
      forall ip | ip in clients ensures exists n :: LastAsked(log, ip, n) && clients[ip].lastSeenAt == log[n].now {
        if ip == r.ip {
          assert LastAsked(log, ip, |log| - 1);
        } else {
          var n :| LastAsked(front, ip, n) && s.clients[ip].lastSeenAt == front[n].now;
          StillLastAsked(front, r, ip, n);
        }
      }
    }
  }

  lemma StillLastAsked(log: seq<Request>, r: Request, ip: Ip, n: int)
    requires LastAsked(log, ip, n) && r.ip != ip
    ensures LastAsked(log + [r], ip, n)
  {
  }

  lemma PrefixClients(log: seq<Request>, n: nat)
    requires n <= |log|
    ensures Clients(log[..n]) <= Clients(log)
  {
    forall r | r in log[..n] ensures r in log {}
  }

  /** A log with no more clients than the table may hold turns nobody away. */
  lemma FewClientsAreNotTurnedAway(cfg: Config, start: real, log: seq<Request>, n: nat)
    requires cfg.expiry > 0.0 && n < |log| && |Clients(log)| <= cfg.maximum
    ensures !DecisionAt(cfg, start, log, n).TurnedAway?
  {
    TurnedAwayExactly(cfg, start, log, n);
    TableKnowsAskers(cfg, start, log[..n]);
    PrefixClients(log, n);
    var s, r := After(cfg, start, log[..n]).state, log[n];
    var seen := Seen(cfg, s.clients, r.now);
    assert r in log && r.ip in Clients(log);
    if r.ip !in seen {
      SubsetCount(seen, Clients(log) - {r.ip});
      assert |Clients(log) - {r.ip}| == |Clients(log)| - 1;
    }
    hide After, DecisionAt;
  }

  // ------------------------------------------------------------------ what a client is entitled to

  /** The client's level when request `n` arrives. */
  function LevelBefore(cfg: Config, start: real, log: seq<Request>, ip: Ip, n: nat): real
    requires n < |log|
  {
    Level(cfg, After(cfg, start, log[..n]).ledger, ip, log[n].now)
  }

  /** What a bucket that was full at request `from`, and the flow since, leave after the accepts since. */
  function Entitled(cfg: Config, start: real, log: seq<Request>, ip: Ip, from: nat, n: nat): real
    requires from <= n < |log|
  {
    cfg.burst as real + cfg.refill * (log[n].now - log[from].now) - CountAccepted(cfg, start, log, ip, from, n) as real
  }

  function Taken(cfg: Config, start: real, log: seq<Request>, ip: Ip, n: nat): real
    requires n < |log|
  {
    if log[n].ip == ip && DecisionAt(cfg, start, log, n).Accepted? then 1.0 else 0.0
  }

  /** The flow of tokens between two requests. */
  function Flowed(cfg: Config, log: seq<Request>, n: nat): real
    requires n + 1 < |log|
  {
    cfg.refill * (log[n + 1].now - log[n].now)
  }

  /** Waiting fills the bucket at the refill rate, up to the burst. */
  lemma LevelFills(cfg: Config, ledger: Ledger, ip: Ip, now: real, later: real)
    requires cfg.refill >= 0.0 && now <= later && (ip in ledger ==> ledger[ip].at <= now)
    ensures Level(cfg, ledger, ip, later)
              == Min(Level(cfg, ledger, ip, now) + cfg.refill * (later - now), cfg.burst as real)
  {
    ProductMonotone(cfg.refill, 0.0, later - now);
    if ip in ledger {
      var a, b := Since(now, ledger[ip].at), Since(later, ledger[ip].at);
      assert b * cfg.refill == a * cfg.refill + cfg.refill * (later - now);
    }
  }

  /** What one request leaves of a client's level. */
  lemma RequestTakes(cfg: Config, p: Pair, r: Request, ip: Ip)
    requires Policy(cfg) && RefillsInTime(cfg) && Tracks(cfg, p, r.now)
    ensures var accepted := r.ip == ip && AllowAt(cfg, p.state, r.ip, r.now).0.Accepted?;
            Level(cfg, Advance(cfg, p, r).ledger, ip, r.now)
              == Level(cfg, p.ledger, ip, r.now) - if accepted then 1.0 else 0.0
  {
    StepAgrees(cfg, p, r);
    LevelBounds(cfg, p.ledger, r.ip, r.now);
    hide AllowAt;
    assert 0.0 * cfg.refill == 0.0;
  }

  lemma LevelRecurs(cfg: Config, start: real, log: seq<Request>, ip: Ip, n: nat)
    requires Policy(cfg) && RefillsInTime(cfg) && InOrder(start, log) && n + 1 < |log|
    ensures LevelBefore(cfg, start, log, ip, n + 1)
         == Min(LevelBefore(cfg, start, log, ip, n) - Taken(cfg, start, log, ip, n) + Flowed(cfg, log, n),
                cfg.burst as real)
  {
    hide Level, Advance, AllowAt, RefillsInTime, Tracks, Policy;
    var before, r := After(cfg, start, log[..n]), log[n];
    assert log[..n + 1][..n] == log[..n];
    AfterTracks(cfg, start, log[..n]);
    TracksLater(cfg, before, Clock(start, log[..n]), r.now);
    RequestTakes(cfg, before, r, ip);
    AfterTracks(cfg, start, log[..n + 1]);
    TrackedLevelFills(cfg, After(cfg, start, log[..n + 1]), ip, r.now, log[n + 1].now);
  }

  lemma TrackedLevelFills(cfg: Config, p: Pair, ip: Ip, now: real, later: real)
    requires Policy(cfg) && Tracks(cfg, p, now) && now <= later
    ensures Level(cfg, p.ledger, ip, later)
         == Min(Level(cfg, p.ledger, ip, now) + cfg.refill * (later - now), cfg.burst as real)
  {
    LevelFills(cfg, p.ledger, ip, now, later);
  }

  lemma EntitledRecurs(cfg: Config, start: real, log: seq<Request>, ip: Ip, from: nat, n: nat)
    requires from <= n && n + 1 < |log|
    ensures Entitled(cfg, start, log, ip, from, n + 1)
         == Entitled(cfg, start, log, ip, from, n) - Taken(cfg, start, log, ip, n) + Flowed(cfg, log, n)
  {
    hide DecisionAt;
    assert cfg.refill * (log[n + 1].now - log[from].now)
        == cfg.refill * (log[n].now - log[from].now) + cfg.refill * (log[n + 1].now - log[n].now);
  }

  lemma EntitledNow(cfg: Config, start: real, log: seq<Request>, ip: Ip, n: nat)
    requires n < |log|
    ensures Entitled(cfg, start, log, ip, n, n) == cfg.burst as real
  {
    assert cfg.refill * (log[n].now - log[n].now) == 0.0;
  }

  lemma FirstLevel(cfg: Config, start: real, log: seq<Request>, ip: Ip)
    requires log != []
    ensures LevelBefore(cfg, start, log, ip, 0) == cfg.burst as real
  {
    assert log[..0] == [];
  }

  /** The level is the least of what the client is entitled to since any earlier request. */
  lemma {:induction false} LevelIsLeastEntitlement(cfg: Config, start: real, log: seq<Request>, ip: Ip, n: nat)
    returns (from: nat)
    requires Policy(cfg) && RefillsInTime(cfg) && InOrder(start, log) && n < |log|
    ensures forall k: nat | k <= n :: LevelBefore(cfg, start, log, ip, n) <= Entitled(cfg, start, log, ip, k, n)
    ensures from <= n && LevelBefore(cfg, start, log, ip, n) == Entitled(cfg, start, log, ip, from, n)
  {
    hide LevelBefore, Entitled, Taken, RefillsInTime, Flowed, Policy;
    EntitledNow(cfg, start, log, ip, n);
    if n == 0 {
      from := 0;
      FirstLevel(cfg, start, log, ip);
    } else {
      var earlier := LevelIsLeastEntitlement(cfg, start, log, ip, n - 1);
      LevelRecurs(cfg, start, log, ip, n - 1);
      forall k: nat | k <= n
        ensures LevelBefore(cfg, start, log, ip, n) <= Entitled(cfg, start, log, ip, k, n)
      {
        if k < n { EntitledRecurs(cfg, start, log, ip, k, n - 1); }
      }
      EntitledRecurs(cfg, start, log, ip, earlier, n - 1);
      from := if LevelBefore(cfg, start, log, ip, n) == cfg.burst as real then n else earlier;
    }
  }

  /** With request `n` accepted, its client has since request `from` had no more than a full bucket and what the
      refill rate gives for the span. */
  predicate Conforms(cfg: Config, start: real, log: seq<Request>, from: nat, n: nat)
    requires from <= n < |log|
  {
    CountAccepted(cfg, start, log, log[n].ip, from, n) as real + 1.0
    <= cfg.burst as real + cfg.refill * (log[n].now - log[from].now)
  }

  lemma ConformsWhenEntitled(cfg: Config, start: real, log: seq<Request>, from: nat, n: nat)
    requires from <= n < |log|
    ensures Conforms(cfg, start, log, from, n) <==> Entitled(cfg, start, log, log[n].ip, from, n) >= 1.0
  {
    hide CountAccepted;
  }

  /** Exactly when a request that the cap does not turn away is accepted: when it conforms in every span that ends
      with it. */
  lemma AcceptedExactly(cfg: Config, start: real, log: seq<Request>, n: nat)
    requires Policy(cfg) && RefillsInTime(cfg) && InOrder(start, log) && n < |log|
    requires !DecisionAt(cfg, start, log, n).TurnedAway?
    ensures DecisionAt(cfg, start, log, n).Accepted?
       <==> forall from: nat | from <= n :: Conforms(cfg, start, log, from, n)
  {
    assert RememberingAt(cfg, start, log, n) == (LevelBefore(cfg, start, log, log[n].ip, n) >= 1.0);
    hide Conforms, Entitled, LevelBefore, RefillsInTime, DecisionAt, RememberingAt, Policy;
    var least := LevelIsLeastEntitlement(cfg, start, log, log[n].ip, n);
    DecidesLikeRemembering(cfg, start, log, n);
    forall from: nat | from <= n
      ensures Conforms(cfg, start, log, from, n) <==> Entitled(cfg, start, log, log[n].ip, from, n) >= 1.0
    {
      ConformsWhenEntitled(cfg, start, log, from, n);
    }
    if LevelBefore(cfg, start, log, log[n].ip, n) < 1.0 { assert !Conforms(cfg, start, log, least, n); }
  }

  /** With no more clients than the table may hold every request is decided by that alone. */
  lemma FewClientsGetTheirShare(cfg: Config, start: real, log: seq<Request>, n: nat)
    requires Policy(cfg) && RefillsInTime(cfg) && InOrder(start, log) && n < |log| && |Clients(log)| <= cfg.maximum
    ensures DecisionAt(cfg, start, log, n).Accepted? == RememberingAt(cfg, start, log, n)
    ensures DecisionAt(cfg, start, log, n).Accepted?
       <==> forall from: nat | from <= n :: Conforms(cfg, start, log, from, n)
  {
    FewClientsAreNotTurnedAway(cfg, start, log, n);
    DecidesLikeRemembering(cfg, start, log, n);
    AcceptedExactly(cfg, start, log, n);
  }
}
